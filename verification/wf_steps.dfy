/** The four stores of the enqueue machine keep its invariant, and so do the steps that only read. */
module WFSteps {
  import opened WFMachine
  import opened WFInv

  // ---------------------------------------------------------------- what a step of thread t may do to the others

  ghost predicate StateKept(s: State, s': State, t: nat, u: nat)
    requires Shape(s) && Shape(s') && |s'.th| == |s.th| && u < |s.th|
  {
    && (s'.state[u] == s.state[u] ||
        (s'.state[u].ptr >= |s.descs| && (DescOf(s, u).pending ==> Linked(s, DescOf(s, u).node))
         && (!DescOf(s', u).pending || DescOf(s', u).node >= |s.nodes|)))
    && (u != t ==> DescOf(s', u).node == DescOf(s, u).node && DescOf(s', u).phase == DescOf(s, u).phase
                   && (DescOf(s', u).pending ==> DescOf(s, u).pending))
  }

  ghost predicate NodeKept(s: State, s': State, n: nat)
    requires n < |s.nodes| <= |s'.nodes|
  {
    && s'.nodes[n].owner == s.nodes[n].owner && s'.nodes[n].item == s.nodes[n].item
    && (s'.nodes[n].next == s.nodes[n].next || (s.nodes[n].next.ptr == NULL && s'.nodes[n].next.ptr != NULL))
  }

  ghost predicate Evolves(s: State, s': State, t: nat) {
    && Shape(s) && Shape(s') && |s'.th| == |s.th| && t < |s.th|
    && (forall u :: 0 <= u < |s.th| && u != t ==> s'.th[u] == s.th[u])
    && |s.order| <= |s'.order| && (forall k :: 0 <= k < |s.order| ==> s'.order[k] == s.order[k])
    && |s.nodes| <= |s'.nodes| && (forall n {:trigger NodeKept(s, s', n)} :: 0 <= n < |s.nodes| ==> NodeKept(s, s', n))
    && |s.descs| <= |s'.descs| && (forall d :: 0 <= d < |s.descs| ==> s'.descs[d] == s.descs[d])
    && (s'.tail == s.tail || s'.tail.aba == s.tail.aba + 1)
    && (forall u {:trigger StateKept(s, s', t, u)} :: 0 <= u < |s.th| ==> StateKept(s, s', t, u))
  }

  lemma PassedStays(s: State, s': State, t: nat, n: int)
    requires Evolves(s, s', t) && Passed(s, n)
    ensures Passed(s', n)
  {
    var k :| 0 <= k <= s.tail.aba && k < |s.order| && s.order[k] == n;
    assert s'.order[k] == n;
  }

  lemma LinkedStays(s: State, s': State, t: nat, n: int)
    requires Evolves(s, s', t) && Linked(s, n)
    ensures Linked(s', n)
  {
    var k :| 0 <= k < |s.order| && s.order[k] == n;
    assert s'.order[k] == n;
  }

  /** While the node that was read as the last one still is, every linked node has been passed. */
  lemma AllPassed(s: State, T: Thread, n: int)
    requires Inv(s) && TailSnap(s, T) && HasTail(T.pc) && StillLast(s, T) && Linked(s, n)
    ensures Passed(s, n)
  {
    assert NodeAt(s, T.tail.aba);
    assert T.tail.aba + 1 < |s.order| ==> NodeAt(s, T.tail.aba + 1);
    var k :| 0 <= k < |s.order| && s.order[k] == n;
    assert k <= s.tail.aba;
  }

  lemma OtherOwn(s: State, s': State, t: nat, u: nat)
    requires Inv(s) && Evolves(s, s', t) && u < |s.th| && u != t
    ensures OwnOk(s', u, s'.th[u]) && HelpedSelf(s', u, s'.th[u])
  {
    assert ThreadOk(s, u) && StateKept(s, s', t, u);
    if DescOf(s, u).node != NULL && Passed(s, DescOf(s, u).node) { PassedStays(s, s', t, DescOf(s, u).node); }
    if SelfDone(s.th[u], u) { LinkedStays(s, s', t, s.th[u].node); }
  }

  lemma OtherSnaps(s: State, s': State, t: nat, u: nat)
    requires Inv(s) && Evolves(s, s', t) && u < |s.th| && u != t
    ensures TailSnap(s', s'.th[u]) && NextSnap(s', s'.th[u]) && LastFinish(s', s'.th[u])
  {
    assert ThreadOk(s, u);
    var T := s.th[u];
    if InFinish(T.pc) && T.ret == ToReturn && T.pc != FinTail && T.tail != s'.tail {
      if T.tail == s.tail { TailReaches(s, s', t, u); } else { PassedStays(s, s', t, T.node); }
    }
  }

  /** When the tail moves away from where thread u saw it, it reaches u's own node. */
  lemma TailReaches(s: State, s': State, t: nat, u: nat)
    requires Inv(s) && Evolves(s, s', t) && u < |s.th| && Linked(s, s.th[u].node) && s'.tail != s.tail
    ensures Passed(s', s.th[u].node)
  {
    var k :| 0 <= k < |s.order| && s.order[k] == s.th[u].node;
    assert s'.order[k] == s.th[u].node && k <= s'.tail.aba;
  }

  lemma OtherLink(s: State, s': State, t: nat, u: nat)
    requires Inv(s) && Evolves(s, s', t) && u < |s.th| && u != t
    ensures LinkFacts(s', s'.th[u])
  {
    assert ThreadOk(s, u) && LocalShape(s, s.th[u]);
    var T := s.th[u];
    if StillLast(s', T) && (T.pc == Phase2 || T.pc == ReadNode || T.pc == Link) {
      assert NodeKept(s, s', T.tail.ptr);
      assert StateKept(s, s', t, T.i) && DescOk(s, T.i);
      if Linked(s, DescOf(s, T.i).node) { AllPassed(s, T, DescOf(s, T.i).node); }
    }
  }

  lemma OtherFinish(s: State, s': State, t: nat, u: nat)
    requires Inv(s) && Evolves(s, s', t) && u < |s.th| && u != t
    ensures LocalShape(s', s'.th[u]) && FinishFacts(s', s'.th[u])
  {
    assert ThreadOk(s, u) && LocalShape(s, s.th[u]) && LocalShape(s', s'.th[u]);
    var T := s.th[u];
    if HasNext(T.pc) && T.pc != FinCur {
      assert NodeKept(s, s', T.next.ptr);
      var w := s.nodes[T.next.ptr].owner;
      assert StateKept(s, s', t, w) && DescOk(s, w);
    }
  }

  lemma OtherThread(s: State, s': State, t: nat, u: nat)
    requires Inv(s) && Evolves(s, s', t) && u < |s.th| && u != t
    ensures ThreadOk(s', u)
  {
    OtherOwn(s, s', t, u);
    OtherSnaps(s, s', t, u);
    OtherLink(s, s', t, u);
    OtherFinish(s, s', t, u);
  }

  // ---------------------------------------------------------------- steps that only read

  lemma MoveShape(s: State, t: nat, T: Thread)
    requires Shape(s) && t < |s.th| && LocalShape(s, T)
    ensures Shape(Move(s, t, T))
  {
    var s' := Move(s, t, T);
    forall u | 0 <= u < |s'.th| ensures LocalShape(s', s'.th[u]) { assert LocalShape(s, s.th[u]); }
  }

  lemma MovePassed(s: State, t: nat, T: Thread, n: int)
    requires t < |s.th|
    ensures Passed(Move(s, t, T), n) <==> Passed(s, n)
  {
    assert Move(s, t, T).order == s.order;
  }

  lemma MoveGlobal(s: State, t: nat, T: Thread)
    requires Inv(s) && t < |s.th| && LocalShape(s, T)
    ensures var s' := Move(s, t, T);
            && Shape(s') && ListOk(s') && Evolves(s, s', t)
            && (forall n {:trigger FreeOk(s', n)} :: 0 <= n < |s'.nodes| ==> FreeOk(s', n))
            && (forall u {:trigger DescOk(s', u)} :: 0 <= u < |s'.th| ==> DescOk(s', u))
  {
    var s' := Move(s, t, T);
    MoveShape(s, t, T);
    forall k {:trigger NodeAt(s', k)} | 0 <= k < |s'.order| ensures NodeAt(s', k) { assert NodeAt(s, k); }
    forall n {:trigger FreeOk(s', n)} | 0 <= n < |s'.nodes| ensures FreeOk(s', n) { assert FreeOk(s, n); }
    forall u {:trigger DescOk(s', u)} | 0 <= u < |s'.th| ensures DescOk(s', u) {
      assert DescOk(s, u);
      MovePassed(s, t, T, DescOf(s, u).node);
    }
    forall n {:trigger NodeKept(s, s', n)} | 0 <= n < |s.nodes| ensures NodeKept(s, s', n) {}
    forall u {:trigger StateKept(s, s', t, u)} | 0 <= u < |s.th| ensures StateKept(s, s', t, u) {}
  }

  lemma MoveKnows(s: State, t: nat, T: Thread)
    requires Shape(s) && t < |s.th| && LocalShape(s, T) && Knows(s, t, T) && Shape(Move(s, t, T))
    ensures ThreadOk(Move(s, t, T), t)
  {
    MovePassed(s, t, T, DescOf(s, t).node);
    MovePassed(s, t, T, T.node);
  }

  /** A step that touches no shared word keeps the invariant if the thread knows what its new locals claim. */
  lemma MoveKeeps(s: State, t: nat, T: Thread)
    requires Inv(s) && t < |s.th| && LocalShape(s, T) && Knows(s, t, T)
    ensures Inv(Move(s, t, T))
  {
    var s' := Move(s, t, T);
    MoveGlobal(s, t, T);
    MoveKnows(s, t, T);
    forall u {:trigger ThreadOk(s', u)} | 0 <= u < |s'.th| ensures ThreadOk(s', u) { if u != t { OtherThread(s, s', t, u); } }
  }

  /** The next node read behind the tail, if any, is the next one of the list. */
  lemma NextRead(s: State, T: Thread)
    requires Inv(s) && HasTail(T.pc) && TailSnap(s, T) && 0 <= T.tail.ptr < |s.nodes|
    ensures var x := s.nodes[T.tail.ptr].next;
            if x.ptr == NULL then x == Word(NULL, 0) && T.tail == s.tail && T.tail.aba + 1 == |s.order|
            else T.tail.aba + 1 < |s.order| && x == Word(s.order[T.tail.aba + 1], 1) && 0 < x.ptr < |s.nodes|
  {
    assert NodeAt(s, T.tail.aba);
    assert T.tail.aba + 1 < |s.order| ==> NodeAt(s, T.tail.aba + 1);
  }

  // The thread that reads: its new locals fit, and what it knows is true.

  lemma CallOk(s: State, t: nat, item: int)
    requires Inv(s) && t < |s.th| && BeforePublish(s.th[t].pc)
    ensures LocalShape(s, CallStep(s, t, item)) && Knows(s, t, CallStep(s, t, item))
  {
    assert LocalShape(s, s.th[t]) && ThreadOk(s, t);
  }

  lemma SeekLocal(s: State, t: nat)
    requires Shape(s) && t < |s.th| && Seeks(s.th[t].pc)
    ensures LocalShape(s, SeekStep(s, t))
  {
    assert LocalShape(s, s.th[t]);
  }

  /** The loop passes the own index only when the own descriptor is not pending: then the own node is linked. */
  lemma SeekSelf(s: State, t: nat)
    requires Shape(s) && t < |s.th| && Seeks(s.th[t].pc) && OwnOk(s, t, s.th[t]) && HelpedSelf(s, t, s.th[t]) && DescOk(s, t)
    ensures HelpedSelf(s, t, SeekStep(s, t))
  {
    var T, T' := s.th[t], SeekStep(s, t);
    assert LocalShape(s, T);
    if SelfDone(T', t) {
      if T.i > t { assert SelfDone(T, t); } else { assert T.i == t && !DescOf(s, t).pending; }
    }
  }

  lemma SeekOk(s: State, t: nat)
    requires Shape(s) && t < |s.th| && Seeks(s.th[t].pc) && ThreadOk(s, t) && DescOk(s, t)
    ensures LocalShape(s, SeekStep(s, t)) && Knows(s, t, SeekStep(s, t))
  {
    SeekLocal(s, t);
    SeekSelf(s, t);
  }

  lemma LinkLocal(s: State, t: nat)
    requires Shape(s) && t < |s.th| && InHelp(s.th[t].pc) && !Seeks(s.th[t].pc)
    ensures LocalShape(s, LinkStep(s, t))
  {
    assert LocalShape(s, s.th[t]);
  }

  lemma LinkFactsOk(s: State, t: nat)
    requires Shape(s) && t < |s.th| && InHelp(s.th[t].pc) && !Seeks(s.th[t].pc) && ThreadOk(s, t)
    ensures LinkFacts(s, LinkStep(s, t))
  {
    assert LocalShape(s, s.th[t]);
  }

  lemma LinkOk(s: State, t: nat)
    requires Shape(s) && ListOk(s) && t < |s.th| && InHelp(s.th[t].pc) && !Seeks(s.th[t].pc) && ThreadOk(s, t)
    ensures LocalShape(s, LinkStep(s, t)) && Knows(s, t, LinkStep(s, t))
  {
    LinkLocal(s, t);
    LinkFactsOk(s, t);
    assert LocalShape(s, s.th[t]);
  }

  /** Outside the stretches where its snapshots are in use, a thread claims nothing about them. */
  lemma Bare(s: State, t: nat, T: Thread)
    requires Shape(s) && t < |s.th| && (T.pc == Idle || T.pc == Help || T.pc == Pend1 || T.pc == FinTail)
    requires LocalShape(s, T) && OwnOk(s, t, T) && HelpedSelf(s, t, T)
    ensures Knows(s, t, T)
  {
  }

  /** Where a finished `help_finish_enqueue` goes on; a finished call has its node behind it. */
  lemma ReturnOk(s: State, t: nat, T: Thread)
    requires Shape(s) && t < |s.th| && InFinish(s.th[t].pc) && LocalShape(s, s.th[t]) && DescOk(s, t)
    requires OwnOk(s, t, s.th[t]) && HelpedSelf(s, t, s.th[t])
    requires T.node == s.th[t].node && T.phase == s.th[t].phase && T.i == s.th[t].i && T.ret == s.th[t].ret
    requires T.ret == ToReturn ==> Passed(s, T.node)
    ensures LocalShape(s, FinReturn(T, |s.th|)) && Knows(s, t, FinReturn(T, |s.th|))
  {
    Bare(s, t, FinReturn(T, |s.th|));
  }

  /** If the node behind the tail is the own one or does not exist, reading tells that it has been passed. */
  lemma OwnPassed(s: State, t: nat)
    requires Inv(s) && t < |s.th| && s.th[t].pc == FinNext && s.th[t].ret == ToReturn && StillLast(s, s.th[t])
    ensures Passed(s, s.th[t].node)
  {
    assert ThreadOk(s, t);
    AllPassed(s, s.th[t], s.th[t].node);
  }

  /** The own descriptor names the own node, so a mismatch means another node lies behind the tail. */
  lemma OwnMismatch(s: State, t: nat)
    requires Shape(s) && ListOk(s) && t < |s.th| && s.th[t].pc == FinNode && s.th[t].ret == ToReturn
    requires OwnOk(s, t, s.th[t]) && HelpedSelf(s, t, s.th[t]) && TailSnap(s, s.th[t]) && NextSnap(s, s.th[t]) && LastFinish(s, s.th[t]) && DescOk(s, t)
    requires LocalShape(s, s.th[t]) && DescOf(s, s.nodes[s.th[t].next.ptr].owner).node != s.th[t].next.ptr
    ensures Passed(s, s.th[t].node)
  {
    var T := s.th[t];
    var k :| 0 <= k < |s.order| && s.order[k] == T.node;
    assert T.tail == s.tail ==> k <= s.tail.aba;
  }

  lemma FinTailOk(s: State, t: nat)
    requires Shape(s) && ListOk(s) && t < |s.th| && ThreadOk(s, t) && s.th[t].pc == FinTail
    ensures LocalShape(s, FinishStep(s, t)) && Knows(s, t, FinishStep(s, t))
  {
    assert LocalShape(s, s.th[t]);
  }

  /** Inside `help_finish_enqueue`, a thread that still knows the list and the descriptor goes on. */
  lemma GoOn(s: State, t: nat, T: Thread)
    requires Shape(s) && t < |s.th| && InFinish(s.th[t].pc) && InFinish(T.pc) && T.pc != FinTail
    requires OwnOk(s, t, s.th[t]) && HelpedSelf(s, t, s.th[t]) && TailSnap(s, s.th[t]) && LastFinish(s, s.th[t])
    requires T.node == s.th[t].node && T.phase == s.th[t].phase && T.i == s.th[t].i && T.ret == s.th[t].ret && T.tail == s.th[t].tail
    requires s.th[t].pc != FinTail && LocalShape(s, T) && NextSnap(s, T) && FinishFacts(s, T)
    ensures Knows(s, t, T)
  {
  }

  lemma FinNextOk(s: State, t: nat)
    requires Inv(s) && t < |s.th| && s.th[t].pc == FinNext
    ensures LocalShape(s, FinishStep(s, t)) && Knows(s, t, FinishStep(s, t))
  {
    assert LocalShape(s, s.th[t]) && ThreadOk(s, t) && DescOk(s, t);
    var T := s.th[t];
    NextRead(s, T);
    var next := s.nodes[T.tail.ptr].next;
    if next.ptr == NULL {
      if T.ret == ToReturn { OwnPassed(s, t); }
      ReturnOk(s, t, T.(next := next));
    } else {
      GoOn(s, t, T.(next := next, pc := FinCur));
    }
  }

  lemma FinCurOk(s: State, t: nat)
    requires Shape(s) && t < |s.th| && ThreadOk(s, t) && s.th[t].pc == FinCur && LocalShape(s, s.th[t])
    ensures LocalShape(s, FinishStep(s, t)) && Knows(s, t, FinishStep(s, t))
  {
    var T := s.th[t];
    GoOn(s, t, T.(cur := s.state[s.nodes[T.next.ptr].owner], pc := FinCheck));
  }

  lemma FinPhaseOk(s: State, t: nat)
    requires Shape(s) && t < |s.th| && ThreadOk(s, t) && s.th[t].pc == FinPhase && LocalShape(s, s.th[t])
    ensures LocalShape(s, FinishStep(s, t)) && Knows(s, t, FinishStep(s, t))
  {
    var T := s.th[t];
    GoOn(s, t, T.(curPhase := DescOf(s, s.nodes[T.next.ptr].owner).phase, pc := FinState));
  }

  lemma FinStateOk(s: State, t: nat)
    requires Shape(s) && t < |s.th| && ThreadOk(s, t) && s.th[t].pc == FinState && LocalShape(s, s.th[t])
    requires s.state[s.nodes[s.th[t].next.ptr].owner] != s.th[t].cur
    ensures LocalShape(s, FinishStep(s, t)) && Knows(s, t, FinishStep(s, t))
  {
    GoOn(s, t, s.th[t].(pc := FinMove));
  }

  /** A check that failed: the call ends, and the tail has passed the own node if it was the last call. */
  lemma BackOut(s: State, t: nat)
    requires Shape(s) && ListOk(s) && t < |s.th| && ThreadOk(s, t) && DescOk(s, t) && LocalShape(s, s.th[t])
    requires var T := s.th[t];
             || (T.pc == FinCheck && T.tail != s.tail) || (T.pc == FinMove && T.tail != s.tail)
             || (T.pc == FinNode && DescOf(s, s.nodes[T.next.ptr].owner).node != T.next.ptr)
    ensures LocalShape(s, FinReturn(s.th[t], |s.th|)) && Knows(s, t, FinReturn(s.th[t], |s.th|))
  {
    var T := s.th[t];
    if T.ret == ToReturn {
      if T.pc == FinNode { OwnMismatch(s, t); } else { assert LastFinish(s, T); }
    }
    ReturnOk(s, t, T);
  }

  /** A check that succeeds: the descriptor read still names the node behind the tail. */
  lemma CheckOn(s: State, t: nat)
    requires Shape(s) && t < |s.th| && ThreadOk(s, t) && LocalShape(s, s.th[t])
    requires var T := s.th[t];
             || (T.pc == FinCheck && T.tail == s.tail)
             || (T.pc == FinNode && DescOf(s, s.nodes[T.next.ptr].owner).node == T.next.ptr)
    ensures LocalShape(s, FinishStep(s, t)) && Knows(s, t, FinishStep(s, t))
  {
    GoOn(s, t, FinishStep(s, t));
  }

  lemma FinCheckOk(s: State, t: nat)
    requires Shape(s) && ListOk(s) && t < |s.th| && ThreadOk(s, t) && DescOk(s, t)
    requires s.th[t].pc == FinCheck || s.th[t].pc == FinNode || s.th[t].pc == FinMove
    requires s.th[t].pc == FinMove ==> s.tail != s.th[t].tail
    ensures LocalShape(s, FinishStep(s, t)) && Knows(s, t, FinishStep(s, t))
  {
    assert LocalShape(s, s.th[t]);
    var T := s.th[t];
    if (T.pc == FinCheck && T.tail == s.tail) || (T.pc == FinNode && DescOf(s, s.nodes[T.next.ptr].owner).node == T.next.ptr) {
      CheckOn(s, t);
    } else {
      BackOut(s, t);
    }
  }

  lemma ReadKeeps(s: State, t: nat, item: int)
    requires Inv(s) && t < |s.th| && s.th[t].pc != Publish
    requires LocalShape(s, s.th[t])
    requires s.th[t].pc == FinState ==> s.state[s.nodes[s.th[t].next.ptr].owner] != s.th[t].cur
    requires s.th[t].pc == FinMove ==> s.tail != s.th[t].tail
    ensures Inv(Move(s, t, LocalStep(s, t, item)))
  {
    var T := s.th[t];
    assert ThreadOk(s, t) && DescOk(s, t);
    if BeforePublish(T.pc) { CallOk(s, t, item); }
    else if Seeks(T.pc) { SeekOk(s, t); }
    else if InHelp(T.pc) { LinkOk(s, t); }
    else if T.pc == FinTail { FinTailOk(s, t); }
    else if T.pc == FinNext { FinNextOk(s, t); }
    else if T.pc == FinState { FinStateOk(s, t); }
    else if T.pc == FinCur { FinCurOk(s, t); }
    else if T.pc == FinPhase { FinPhaseOk(s, t); }
    else { FinCheckOk(s, t); }
    MoveKeeps(s, t, LocalStep(s, t, item));
  }
}
