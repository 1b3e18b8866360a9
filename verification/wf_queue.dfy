/** The enqueue of wf_queue_ppopp11.h: however many threads help, each node is linked exactly once, within its own call. */
module WFQueue {
  import opened WFMachine
  import opened WFInv
  import opened WFSteps

  // ---------------------------------------------------------------- publish

  lemma PublishGlobal(s: State, t: nat)
    requires Inv(s) && t < |s.th| && s.th[t].pc == Publish
    ensures var s' := DoPublish(s, t); Shape(s') && ListOk(s') && Evolves(s, s', t)
  {
    var s' := DoPublish(s, t);
    assert ThreadOk(s, t);
    forall u | 0 <= u < |s'.th| ensures LocalShape(s', s'.th[u]) { assert LocalShape(s, s.th[u]); }
    forall k {:trigger NodeAt(s', k)} | 0 <= k < |s'.order| ensures NodeAt(s', k) { assert NodeAt(s, k); }
    forall n {:trigger NodeKept(s, s', n)} | 0 <= n < |s.nodes| ensures NodeKept(s, s', n) {}
    forall u {:trigger StateKept(s, s', t, u)} | 0 <= u < |s.th| ensures StateKept(s, s', t, u) {}
  }

  lemma PublishKeeps(s: State, t: nat)
    requires Inv(s) && t < |s.th| && s.th[t].pc == Publish
    ensures Inv(DoPublish(s, t))
  {
    var s' := DoPublish(s, t);
    PublishGlobal(s, t);
    assert ThreadOk(s, t);
    forall n {:trigger FreeOk(s', n)} | 0 <= n < |s'.nodes| ensures FreeOk(s', n) {
      if n < |s.nodes| { assert FreeOk(s, n); if Linked(s, n) { LinkedStays(s, s', t, n); } }
    }
    forall u {:trigger DescOk(s', u)} | 0 <= u < |s'.th| ensures DescOk(s', u) {
      PublishDesc(s, t, u);
    }
    forall u {:trigger ThreadOk(s', u)} | 0 <= u < |s'.th| ensures ThreadOk(s', u) {
      if u != t { OtherThread(s, s', t, u); }
    }
  }

  lemma PublishDesc(s: State, t: nat, u: nat)
    requires Inv(s) && t < |s.th| && s.th[t].pc == Publish && u < |s.th| && Shape(DoPublish(s, t))
    ensures DescOk(DoPublish(s, t), u)
  {
    var s' := DoPublish(s, t);
    assert DescOk(s, u);
    var n := DescOf(s', u).node;
    if Passed(s', n) {
      var k :| 0 <= k <= s'.tail.aba && k < |s'.order| && s'.order[k] == n;
      assert NodeAt(s, k) && s.order[k] == n;
    }
  }

  // ---------------------------------------------------------------- link

  ghost predicate Links(s: State, t: nat) {
    Inv(s) && t < |s.th| && s.th[t].pc == Link && LocalShape(s, s.th[t]) && s.nodes[s.th[t].tail.ptr].next == s.th[t].next
  }

  /** The node about to be linked is not linked yet, and its owner is waiting for it. */
  lemma LinkTarget(s: State, t: nat)
    requires Links(s, t)
    ensures var n := s.th[t].toLink;
            && 0 < n < |s.nodes| && !Linked(s, n) && s.nodes[n].next == Word(NULL, 0)
            && DescOf(s, s.nodes[n].owner).pending && DescOf(s, s.nodes[n].owner).node == n && s.nodes[n].owner == s.th[t].i
    ensures s.th[t].tail == s.tail && s.tail.aba == |s.order| - 1 && s.th[t].next == Word(NULL, 0)
  {
    var T := s.th[t];
    assert ThreadOk(s, t);
    NextRead(s, T);
    assert DescOk(s, T.i);
    if Linked(s, T.toLink) { AllPassed(s, T, T.toLink); }
    assert FreeOk(s, T.toLink);
  }

  lemma LinkShape(s: State, t: nat)
    requires Links(s, t)
    ensures Shape(DoLink(s, t))
  {
    var s' := DoLink(s, t);
    forall u | 0 <= u < |s'.th| ensures LocalShape(s', s'.th[u]) { assert LocalShape(s, s.th[u]); }
  }

  lemma LinkGlobal(s: State, t: nat)
    requires Links(s, t)
    ensures var s' := DoLink(s, t); Shape(s') && ListOk(s') && Evolves(s, s', t)
  {
    var s' := DoLink(s, t);
    LinkTarget(s, t);
    LinkShape(s, t);
    forall k {:trigger NodeAt(s', k)} | 0 <= k < |s'.order| ensures NodeAt(s', k) {
      if k < |s.order| { assert NodeAt(s, k); }
    }
    forall n {:trigger NodeKept(s, s', n)} | 0 <= n < |s.nodes| ensures NodeKept(s, s', n) {}
    forall u {:trigger StateKept(s, s', t, u)} | 0 <= u < |s.th| ensures StateKept(s, s', t, u) {}
  }

  lemma LinkKeeps(s: State, t: nat)
    requires Links(s, t)
    ensures Inv(DoLink(s, t))
  {
    var s' := DoLink(s, t);
    LinkTarget(s, t);
    LinkGlobal(s, t);
    forall n {:trigger FreeOk(s', n)} | 0 <= n < |s'.nodes| ensures FreeOk(s', n) {
      assert FreeOk(s, n);
      if Linked(s, n) { LinkedStays(s, s', t, n); }
      if n == s.th[t].tail.ptr { assert s'.order[s.tail.aba] == n; }
      if n == s.th[t].toLink { assert s'.order[|s.order|] == n; }
    }
    forall u {:trigger DescOk(s', u)} | 0 <= u < |s'.th| ensures DescOk(s', u) {
      LinkDesc(s, t, u);
    }
    LinkThread(s, t);
    forall u {:trigger ThreadOk(s', u)} | 0 <= u < |s'.th| ensures ThreadOk(s', u) {
      if u != t { OtherThread(s, s', t, u); }
    }
  }

  lemma LinkDesc(s: State, t: nat, u: nat)
    requires Links(s, t) && u < |s.th| && Evolves(s, DoLink(s, t), t)
    ensures DescOk(DoLink(s, t), u)
  {
    var s' := DoLink(s, t);
    LinkTarget(s, t);
    assert DescOk(s, u);
    var n := DescOf(s, u).node;
    if Linked(s, n) { LinkedStays(s, s', t, n); }
    if Passed(s', n) {
      var k :| 0 <= k <= s'.tail.aba && k < |s'.order| && s'.order[k] == n;
      assert s.order[k] == n;
    }
  }

  lemma LinkThread(s: State, t: nat)
    requires Links(s, t) && Evolves(s, DoLink(s, t), t)
    ensures ThreadOk(DoLink(s, t), t)
  {
    assert OwnOk(s, t, s.th[t]) by { assert ThreadOk(s, t); }
    LinkSelf(s, t);
  }

  lemma LinkSelf(s: State, t: nat)
    requires Links(s, t) && Evolves(s, DoLink(s, t), t)
    ensures HelpedSelf(DoLink(s, t), t, DoLink(s, t).th[t])
  {
    var s' := DoLink(s, t);
    LinkTarget(s, t);
    assert OwnOk(s, t, s.th[t]) && HelpedSelf(s, t, s.th[t]) by { assert ThreadOk(s, t); }
    assert s'.order[|s.order|] == s.th[t].toLink;
    if Linked(s, s.th[t].node) { LinkedStays(s, s', t, s.th[t].node); }
  }

  // ---------------------------------------------------------------- finish: descriptor, then tail

  ghost predicate Settles(s: State, t: nat) {
    && Inv(s) && t < |s.th| && s.th[t].pc == FinState && LocalShape(s, s.th[t])
    && s.state[s.nodes[s.th[t].next.ptr].owner] == s.th[t].cur
  }

  lemma SettleTarget(s: State, t: nat)
    requires Settles(s, t)
    ensures var n := s.th[t].next.ptr; Linked(s, n) && DescOf(s, s.nodes[n].owner).node == n && DescOf(s, s.nodes[n].owner).phase == s.th[t].curPhase
  {
    assert NextSnap(s, s.th[t]) && FinishFacts(s, s.th[t]) by { assert ThreadOk(s, t); }
  }

  lemma SettleShape(s: State, t: nat)
    requires Settles(s, t)
    ensures Shape(DoState(s, t))
  {
    var s' := DoState(s, t);
    forall u | 0 <= u < |s'.th| ensures LocalShape(s', s'.th[u]) { assert LocalShape(s, s.th[u]); }
  }

  lemma SettleGlobal(s: State, t: nat)
    requires Settles(s, t)
    ensures var s' := DoState(s, t); Shape(s') && ListOk(s') && Evolves(s, s', t)
    ensures var n := s.th[t].next.ptr; Linked(s, n) && DescOf(s, s.nodes[n].owner).node == n && DescOf(s, s.nodes[n].owner).phase == s.th[t].curPhase
  {
    var s' := DoState(s, t);
    SettleTarget(s, t);
    SettleShape(s, t);
    forall k {:trigger NodeAt(s', k)} | 0 <= k < |s'.order| ensures NodeAt(s', k) { assert NodeAt(s, k); }
    forall n {:trigger NodeKept(s, s', n)} | 0 <= n < |s.nodes| ensures NodeKept(s, s', n) {}
    forall u {:trigger StateKept(s, s', t, u)} | 0 <= u < |s.th| ensures StateKept(s, s', t, u) {}
  }

  /** The descriptor whose pending state ends is that of a linked node, and it keeps its phase. */
  lemma SettleKeeps(s: State, t: nat)
    requires Settles(s, t)
    ensures Inv(DoState(s, t))
    ensures var n := s.th[t].next.ptr; var u := s.nodes[n].owner;
            Linked(s, n) && DescOf(s, u).node == n && DescOf(DoState(s, t), u) == Desc(DescOf(s, u).phase, false, n)
  {
    var s' := DoState(s, t);
    SettleGlobal(s, t);
    forall n {:trigger FreeOk(s', n)} | 0 <= n < |s'.nodes| ensures FreeOk(s', n) {
      assert FreeOk(s, n);
      if Linked(s, n) { LinkedStays(s, s', t, n); }
    }
    forall u {:trigger DescOk(s', u)} | 0 <= u < |s'.th| ensures DescOk(s', u) {
      SettleDesc(s, t, u);
    }
    SettleThread(s, t);
    forall u {:trigger ThreadOk(s', u)} | 0 <= u < |s'.th| ensures ThreadOk(s', u) {
      if u != t { OtherThread(s, s', t, u); }
    }
  }

  lemma SettleDesc(s: State, t: nat, u: nat)
    requires Settles(s, t) && u < |s.th| && Evolves(s, DoState(s, t), t)
    ensures DescOk(DoState(s, t), u)
  {
    var s' := DoState(s, t);
    SettleGlobal(s, t);
    assert DescOk(s, u);
    var n := DescOf(s', u).node;
    if Linked(s, n) { LinkedStays(s, s', t, n); }
    if Passed(s', n) {
      var k :| 0 <= k <= s'.tail.aba && k < |s'.order| && s'.order[k] == n;
      assert s.order[k] == n;
    }
  }

  lemma SettleOwn(s: State, t: nat)
    requires Settles(s, t) && Evolves(s, DoState(s, t), t)
    ensures var s' := DoState(s, t); OwnOk(s', t, s'.th[t]) && HelpedSelf(s', t, s'.th[t])
  {
    SettleGlobal(s, t);
    assert ThreadOk(s, t);
    if Linked(s, s.th[t].node) { LinkedStays(s, DoState(s, t), t, s.th[t].node); }
  }

  lemma SettleFinish(s: State, t: nat)
    requires Settles(s, t) && Evolves(s, DoState(s, t), t)
    ensures var s' := DoState(s, t); LocalShape(s', s'.th[t]) && FinishFacts(s', s'.th[t])
  {
    SettleGlobal(s, t);
    assert ThreadOk(s, t) && LocalShape(DoState(s, t), DoState(s, t).th[t]);
  }

  lemma SettleSnaps(s: State, t: nat)
    requires Settles(s, t) && Evolves(s, DoState(s, t), t)
    ensures var s' := DoState(s, t); TailSnap(s', s'.th[t]) && NextSnap(s', s'.th[t]) && LinkFacts(s', s'.th[t])
  {
    assert TailSnap(s, s.th[t]) && NextSnap(s, s.th[t]) by { assert ThreadOk(s, t); }
  }

  lemma SettleLast(s: State, t: nat)
    requires Settles(s, t) && Evolves(s, DoState(s, t), t)
    ensures LastFinish(DoState(s, t), DoState(s, t).th[t])
  {
    assert LastFinish(s, s.th[t]) by { assert ThreadOk(s, t); }
    if s.th[t].tail != s.tail && s.th[t].ret == ToReturn { PassedStays(s, DoState(s, t), t, s.th[t].node); }
  }

  lemma SettleThread(s: State, t: nat)
    requires Settles(s, t) && Evolves(s, DoState(s, t), t)
    ensures ThreadOk(DoState(s, t), t)
  {
    SettleOwn(s, t);
    SettleFinish(s, t);
    SettleSnaps(s, t);
    SettleLast(s, t);
  }

  ghost predicate Swings(s: State, t: nat) {
    Inv(s) && t < |s.th| && s.th[t].pc == FinMove && LocalShape(s, s.th[t]) && s.tail == s.th[t].tail
  }

  /** The tail alone moves; the thread then returns as if its compare-and-swap had failed. */
  function Swung(s: State, t: nat): State
    requires t < |s.th|
  {
    s.(tail := Word(s.th[t].next.ptr, s.th[t].tail.aba + 1))
  }

  lemma SwingGlobal(s: State, t: nat)
    requires Swings(s, t)
    ensures var s' := Swung(s, t); Shape(s') && ListOk(s') && Evolves(s, s', t)
  {
    var s' := Swung(s, t);
    assert ThreadOk(s, t);
    forall u | 0 <= u < |s'.th| ensures LocalShape(s', s'.th[u]) { assert LocalShape(s, s.th[u]); }
    forall k {:trigger NodeAt(s', k)} | 0 <= k < |s'.order| ensures NodeAt(s', k) { assert NodeAt(s, k); }
    forall n {:trigger NodeKept(s, s', n)} | 0 <= n < |s.nodes| ensures NodeKept(s, s', n) {}
    forall u {:trigger StateKept(s, s', t, u)} | 0 <= u < |s.th| ensures StateKept(s, s', t, u) {}
  }

  lemma SwingDesc(s: State, t: nat, u: nat)
    requires Swings(s, t) && u < |s.th| && Shape(Swung(s, t))
    ensures DescOk(Swung(s, t), u)
  {
    var s' := Swung(s, t);
    assert ThreadOk(s, t) && DescOk(s, u);
    if Passed(s', DescOf(s, u).node) { SwingPassed(s, t, DescOf(s, u).node); }
  }

  lemma SwingPassed(s: State, t: nat, n: int)
    requires Swings(s, t) && Passed(Swung(s, t), n)
    ensures Passed(s, n) || n == s.th[t].next.ptr
  {
    var s' := Swung(s, t);
    assert ThreadOk(s, t);
    var k :| 0 <= k <= s'.tail.aba && k < |s'.order| && s'.order[k] == n;
    assert s.order[k] == n;
  }

  lemma SwingThread(s: State, t: nat)
    requires Swings(s, t) && Evolves(s, Swung(s, t), t)
    ensures ThreadOk(Swung(s, t), t)
  {
    var s' := Swung(s, t);
    assert ThreadOk(s, t) && LocalShape(s', s'.th[t]);
    if SelfDone(s.th[t], t) {
      LinkedStays(s, s', t, s.th[t].node);
      TailReaches(s, s', t, t);
    }
  }

  lemma SwungKeeps(s: State, t: nat)
    requires Swings(s, t)
    ensures Inv(Swung(s, t))
  {
    var s' := Swung(s, t);
    SwingGlobal(s, t);
    forall n {:trigger FreeOk(s', n)} | 0 <= n < |s'.nodes| ensures FreeOk(s', n) { assert FreeOk(s, n); }
    forall u {:trigger DescOk(s', u)} | 0 <= u < |s'.th| ensures DescOk(s', u) { SwingDesc(s, t, u); }
    SwingThread(s, t);
    forall u {:trigger ThreadOk(s', u)} | 0 <= u < |s'.th| ensures ThreadOk(s', u) {
      if u != t { OtherThread(s, s', t, u); }
    }
  }

  /** The tail moves on only to a node whose descriptor is no longer pending; then the thread goes on where it was called. */
  lemma SwingKeeps(s: State, t: nat)
    requires Swings(s, t)
    ensures Inv(Swung(s, t)) && Inv(DoTail(s, t))
    ensures var n := s.th[t].next.ptr; Linked(s, n) && !Passed(s, n) && DescOf(s, s.nodes[n].owner) != Desc(DescOf(s, s.nodes[n].owner).phase, true, n)
  {
    SwungKeeps(s, t);
    GoBack(Swung(s, t), t);
    SwingTarget(s, t);
  }

  lemma GoBack(z: State, t: nat)
    requires Inv(z) && t < |z.th| && z.th[t].pc == FinMove && z.tail != z.th[t].tail
    ensures Inv(Move(z, t, FinReturn(z.th[t], |z.th|)))
  {
    assert ThreadOk(z, t) && DescOk(z, t);
    FinCheckOk(z, t);
    MoveKeeps(z, t, FinReturn(z.th[t], |z.th|));
  }

  lemma SwingTarget(s: State, t: nat)
    requires Swings(s, t)
    ensures var n := s.th[t].next.ptr; Linked(s, n) && !Passed(s, n) && DescOf(s, s.nodes[n].owner) != Desc(DescOf(s, s.nodes[n].owner).phase, true, n)
  {
    assert ThreadOk(s, t);
    var k := s.tail.aba + 1;
    assert s.order[k] == s.th[t].next.ptr;
  }

  // ---------------------------------------------------------------- every step, every run

  lemma StepInv(s: State, t: nat, item: int)
    requires Inv(s) && t < |s.th|
    ensures Inv(Step(s, t, item)) && |Step(s, t, item).th| == |s.th|
  {
    assert LocalShape(s, s.th[t]);
    if s.th[t].pc == Publish { PublishKeeps(s, t); }
    else if Links(s, t) { LinkKeeps(s, t); }
    else if Settles(s, t) { SettleKeeps(s, t); }
    else if Swings(s, t) { SwingKeeps(s, t); }
    else { ReadKeeps(s, t, item); }
  }

  lemma InitInv(s: State)
    requires Init(s)
    ensures Inv(s)
  {
    assert NodeAt(s, 0);
    forall n {:trigger FreeOk(s, n)} | 0 <= n < |s.nodes| ensures FreeOk(s, n) { assert s.order[0] == n; }
    forall t {:trigger DescOk(s, t)} | 0 <= t < |s.th| ensures DescOk(s, t) {}
    forall t {:trigger ThreadOk(s, t)} | 0 <= t < |s.th| ensures ThreadOk(s, t) {}
  }

  datatype Sched = Sched(tid: nat, item: int)

  ghost function Exec(s: State, run: seq<Sched>): State {
    if run == [] then s
    else
      var p := Exec(s, run[..|run| - 1]);
      var x := run[|run| - 1];
      if Shape(p) && x.tid < |p.th| then Step(p, x.tid, x.item) else p
  }

  lemma {:induction false} RunInv(s: State, run: seq<Sched>)
    requires Init(s)
    ensures Inv(Exec(s, run)) && |Exec(s, run).th| == |s.th|
    decreases |run|
  {
    if run == [] {
      InitInv(s);
    } else {
      RunInv(s, run[..|run| - 1]);
      var x := run[|run| - 1];
      if x.tid < |s.th| { StepInv(Exec(s, run[..|run| - 1]), x.tid, x.item); }
    }
  }

  /**
   * In every run the linked nodes form one list without repetition whose last node or the one before is the tail;
   * a descriptor that is not pending names a linked node; and a linked node whose descriptor is still pending has not
   * been passed by the tail.
   */
  lemma LinkedOnce(s: State, run: seq<Sched>)
    requires Init(s)
    ensures var z := Exec(s, run);
            && Shape(z) && ListOk(z)
            && (forall t :: 0 <= t < |z.th| && !DescOf(z, t).pending && DescOf(z, t).node != NULL ==> Linked(z, DescOf(z, t).node))
            && (forall t :: 0 <= t < |z.th| && DescOf(z, t).pending ==> !Passed(z, DescOf(z, t).node))
  {
    RunInv(s, run);
    var z := Exec(s, run);
    forall t | 0 <= t < |z.th|
      ensures !DescOf(z, t).pending && DescOf(z, t).node != NULL ==> Linked(z, DescOf(z, t).node)
      ensures DescOf(z, t).pending ==> !Passed(z, DescOf(z, t).node)
    {
      assert DescOk(z, t);
    }
  }

  // ---------------------------------------------------------------- effects of a step, and the history of calls

  /** The thread has published the node of a call that has not returned. */
  predicate Running(s: State, n: int) {
    0 < n < |s.nodes| && s.nodes[n].owner < |s.th| && var T := s.th[s.nodes[n].owner]; !BeforePublish(T.pc) && T.node == n
  }

  /** A step leaves the queue as it was, or appends the item of a running call whose node was not in it. */
  lemma StepLinks(s: State, t: nat, item: int)
    requires Inv(s) && t < |s.th|
    ensures var s' := Step(s, t, item);
            && InBounds(s) && InBounds(s')
            && ((s'.order == s.order && Items(s') == Items(s)) ||
                exists n :: s'.order == s.order + [n] && !Linked(s, n) && Running(s, n) && Items(s') == Items(s) + [s.nodes[n].item])
  {
    var s' := Step(s, t, item);
    StepInv(s, t, item);
    forall k | 0 <= k < |s.order| ensures 0 <= s.order[k] < |s.nodes| { assert NodeAt(s, k); }
    forall k | 0 <= k < |s'.order| ensures 0 <= s'.order[k] < |s'.nodes| { assert NodeAt(s', k); }
    assert LocalShape(s, s.th[t]);
    if Links(s, t) {
      LinkTarget(s, t);
      var n := s.th[t].toLink;
      assert ThreadOk(s, s.nodes[n].owner);
      assert s'.order == s.order + [n] && Items(s') == Items(s) + [s.nodes[n].item];
    } else {
      assert Items(s') == Items(s);
    }
  }

  /** Every node was published by one call, which either has returned or is running; finished calls are linked and passed. */
  ghost predicate CallOk(s: State, n: nat) {
    0 < n < |s.nodes| ==> (n in s.finished <==> !Running(s, n)) && (n in s.finished ==> Passed(s, n))
  }

  ghost predicate Finished(s: State) {
    && (forall k :: 0 <= k < |s.finished| ==> 0 < s.finished[k] < |s.nodes|)
    && (forall j, k :: 0 <= j < k < |s.finished| ==> s.finished[j] != s.finished[k])
  }

  ghost predicate History(s: State) {
    && Finished(s)
    && (forall n: nat {:trigger CallOk(s, n)} :: CallOk(s, n))
    && (forall t {:trigger s.th[t]} :: 0 <= t < |s.th| && !BeforePublish(s.th[t].pc) ==>
          Running(s, s.th[t].node) && s.nodes[s.th[t].node].owner == t)
  }

  predicate SameCall(x: Node, y: Node) { y.owner == x.owner && y.item == x.item && y.start == x.start }

  /** What a step of thread t means for the calls. */
  ghost predicate Frame(s: State, s': State, t: nat) {
    && t < |s.th| == |s'.th| && (forall u :: 0 <= u < |s.th| && u != t ==> s'.th[u] == s.th[u])
    && s'.finished == s.finished + Returned(s.th[t], s'.th[t])
    && (if s.th[t].pc == Publish then
          !BeforePublish(s'.th[t].pc) && s'.th[t].node == |s.nodes| && |s'.nodes| == |s.nodes| + 1 && s'.nodes[|s.nodes|].owner == t
        else
          && s'.th[t].node == s.th[t].node && |s'.nodes| == |s.nodes|
          && (BeforePublish(s.th[t].pc) ==> BeforePublish(s'.th[t].pc))
          && (BeforePublish(s'.th[t].pc) && !BeforePublish(s.th[t].pc) ==> s'.th[t].pc == Idle && s'.state == s.state && s'.descs == s.descs))
    && (forall n :: 0 <= n < |s.nodes| ==> SameCall(s.nodes[n], s'.nodes[n]))
  }

  lemma ReadFrame(s: State, t: nat, T': Thread)
    requires t < |s.th| && s.th[t].pc != Publish && T'.node == s.th[t].node
    requires BeforePublish(s.th[t].pc) ==> BeforePublish(T'.pc)
    requires BeforePublish(T'.pc) && !BeforePublish(s.th[t].pc) ==> T'.pc == Idle
    ensures Frame(s, Move(s, t, T'), t)
  {
  }

  lemma LocalNode(s: State, t: nat, item: int)
    requires Shape(s) && t < |s.th|
    ensures LocalStep(s, t, item).node == s.th[t].node
    ensures BeforePublish(s.th[t].pc) ==> BeforePublish(LocalStep(s, t, item).pc)
    ensures BeforePublish(LocalStep(s, t, item).pc) && !BeforePublish(s.th[t].pc) ==> LocalStep(s, t, item).pc == Idle
  {
    assert LocalShape(s, s.th[t]);
  }

  lemma StepFrame(s: State, t: nat, item: int)
    requires Inv(s) && t < |s.th|
    ensures Frame(s, Step(s, t, item), t)
  {
    assert LocalShape(s, s.th[t]);
    if s.th[t].pc == Publish || Links(s, t) || Settles(s, t) || Swings(s, t) {
      StoreFrame(s, t, item);
    } else {
      LocalNode(s, t, item);
      ReadFrame(s, t, LocalStep(s, t, item));
    }
  }

  lemma StoreFrame(s: State, t: nat, item: int)
    requires Shape(s) && t < |s.th| && LocalShape(s, s.th[t])
    requires s.th[t].pc == Publish || Links(s, t) || Settles(s, t) || Swings(s, t)
    ensures Frame(s, Step(s, t, item), t)
  {
    if s.th[t].pc == Publish { PublishFrame(s, t); }
    else if s.th[t].pc == Link { LinkFrame(s, t); }
    else if s.th[t].pc == FinState { SettleFrame(s, t); }
    else { ReadFrame(Swung(s, t), t, FinReturn(s.th[t], |s.th|)); }
  }

  lemma PublishFrame(s: State, t: nat)
    requires t < |s.th| == |s.state| && s.th[t].pc == Publish
    ensures Frame(s, DoPublish(s, t), t)
  {
  }

  lemma LinkFrame(s: State, t: nat)
    requires t < |s.th| && 0 <= s.th[t].tail.ptr < |s.nodes| && s.th[t].pc == Link
    ensures Frame(s, DoLink(s, t), t)
  {
  }

  lemma SettleFrame(s: State, t: nat)
    requires Shape(s) && t < |s.th| && 0 < s.th[t].next.ptr < |s.nodes| && s.th[t].pc == FinState
    ensures Frame(s, DoState(s, t), t)
  {
  }

  lemma StepRunning(s: State, s': State, t: nat, n: nat)
    requires Frame(s, s', t) && 0 < n < |s.nodes|
    ensures if Returned(s.th[t], s'.th[t]) == [n] && s.nodes[n].owner == t then Running(s, n) && !Running(s', n)
            else Running(s', n) == Running(s, n)
  {
  }

  /** A call returns only after the tail has passed its node. */
  lemma ReturnPassed(s: State, t: nat, item: int)
    requires Inv(s) && t < |s.th| && Returned(s.th[t], Step(s, t, item).th[t]) != []
    ensures Passed(Step(s, t, item), s.th[t].node)
  {
    var s' := Step(s, t, item);
    StepFrame(s, t, item);
    StepInv(s, t, item);
    assert ThreadOk(s, t) && ThreadOk(s', t);
  }

  lemma StepEvolves(s: State, t: nat, item: int)
    requires Inv(s) && t < |s.th|
    ensures forall n :: Passed(s, n) ==> Passed(Step(s, t, item), n)
    ensures |s.order| <= |Step(s, t, item).order| && forall k :: 0 <= k < |s.order| ==> Step(s, t, item).order[k] == s.order[k]
  {
    var s' := Step(s, t, item);
    assert LocalShape(s, s.th[t]);
    forall n | Passed(s, n) ensures Passed(s', n) {
      var k :| 0 <= k <= s.tail.aba && k < |s.order| && s.order[k] == n;
      assert s'.order[k] == n;
    }
  }

  lemma FrameHistory(s: State, s': State, t: nat, n: nat)
    requires History(s) && Frame(s, s', t)
    requires forall m :: Passed(s, m) ==> Passed(s', m)
    requires Returned(s.th[t], s'.th[t]) != [] ==> Passed(s', s.th[t].node)
    ensures CallOk(s', n)
  {
    assert CallOk(s, n);
    if 0 < n < |s.nodes| { StepRunning(s, s', t, n); }
  }

  lemma FrameFinished(s: State, s': State, t: nat)
    requires History(s) && Frame(s, s', t) && |s.nodes| > 0
    ensures Finished(s')
    ensures forall u {:trigger s'.th[u]} :: 0 <= u < |s'.th| && !BeforePublish(s'.th[u].pc) ==>
              Running(s', s'.th[u].node) && s'.nodes[s'.th[u].node].owner == u
  {
    if Returned(s.th[t], s'.th[t]) != [] { assert CallOk(s, s.th[t].node); }
    forall u {:trigger s'.th[u]} | 0 <= u < |s'.th| && !BeforePublish(s'.th[u].pc)
      ensures Running(s', s'.th[u].node) && s'.nodes[s'.th[u].node].owner == u
    {
      if u != t || s.th[t].pc != Publish { StepRunning(s, s', t, s.th[u].node); }
    }
  }

  lemma StepHistory(s: State, t: nat, item: int)
    requires Inv(s) && History(s) && t < |s.th|
    ensures History(Step(s, t, item))
  {
    var s' := Step(s, t, item);
    StepFrame(s, t, item);
    StepEvolves(s, t, item);
    if Returned(s.th[t], s'.th[t]) != [] { ReturnPassed(s, t, item); }
    forall n: nat {:trigger CallOk(s', n)} ensures CallOk(s', n) { FrameHistory(s, s', t, n); }
    FrameFinished(s, s', t);
  }

  lemma {:induction false} RunHistory(s: State, run: seq<Sched>)
    requires Init(s)
    ensures History(Exec(s, run))
    decreases |run|
  {
    if run != [] {
      RunHistory(s, run[..|run| - 1]);
      RunInv(s, run[..|run| - 1]);
      var x := run[|run| - 1];
      if x.tid < |s.th| { StepHistory(Exec(s, run[..|run| - 1]), x.tid, x.item); }
    }
  }

  /**
   * Exactly once: an enqueue that has returned has its node in the queue, at one place only, and every node in the queue
   * belongs to one call, which has returned or is still running. No call's node is there twice, none is lost.
   */
  lemma ExactlyOnce(s: State, run: seq<Sched>)
    requires Init(s)
    ensures var z := Exec(s, run);
            && (forall k :: 0 <= k < |z.finished| ==> Linked(z, z.finished[k]))
            && (forall j, k :: 0 <= j < k < |z.finished| ==> z.finished[j] != z.finished[k])
            && (forall j, k :: 0 <= j < k < |z.order| ==> z.order[j] != z.order[k])
            && (forall k :: 0 < k < |z.order| ==> z.order[k] in z.finished || Running(z, z.order[k]))
  {
    RunInv(s, run);
    RunHistory(s, run);
    var z := Exec(s, run);
    forall k | 0 <= k < |z.finished| ensures Linked(z, z.finished[k]) { assert CallOk(z, z.finished[k]); }
    forall k | 0 < k < |z.order| ensures z.order[k] in z.finished || Running(z, z.order[k]) {
      assert NodeAt(z, k);
      assert CallOk(z, z.order[k]);
    }
  }

  lemma {:induction false} OrderGrows(s: State, run: seq<Sched>, i: nat)
    requires Init(s) && i <= |run|
    ensures var y, z := Exec(s, run[..i]), Exec(s, run);
            && |y.order| <= |z.order| && (forall k :: 0 <= k < |y.order| ==> z.order[k] == y.order[k])
            && |y.nodes| <= |z.nodes| && (forall n :: 0 <= n < |y.nodes| ==> z.nodes[n].item == y.nodes[n].item)
    decreases |run|
  {
    if i == |run| {
      assert run[..i] == run;
    } else {
      var p := run[..|run| - 1];
      OrderGrows(s, p, i);
      assert p[..i] == run[..i];
      RunInv(s, p);
      var x := run[|run| - 1];
      if x.tid < |s.th| { StepEvolves(Exec(s, p), x.tid, x.item); StepFrame(Exec(s, p), x.tid, x.item); }
    }
  }

  /** Real-time order: an enqueue that returned before another one published its node lies before it in the queue. */
  lemma RealTimeOrder(s: State, run: seq<Sched>, i: nat, n: int, j: nat, k: nat)
    requires Init(s) && i <= |run| && n in Exec(s, run[..i]).finished
    requires j < |Exec(s, run).order| && k < |Exec(s, run).order| && Exec(s, run).order[j] == n
    requires Exec(s, run).order[k] >= |Exec(s, run[..i]).nodes|
    ensures j < k
  {
    var y, z := Exec(s, run[..i]), Exec(s, run);
    OrderGrows(s, run, i);
    ExactlyOnce(s, run[..i]);
    RunInv(s, run[..i]);
    RunInv(s, run);
    var m :| 0 <= m < |y.order| && y.order[m] == n;
    assert z.order[m] == n;
    if k < |y.order| { assert NodeAt(y, k); }
  }
}
