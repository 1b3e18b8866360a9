/** Every step of the distributed queue keeps its invariant. */
module DQSteps {
  import opened DQMachine
  import opened DQInv
  import opened Ring

  // ---------------------------------------------------------------- steps that only read

  lemma ReadKeeps(s: State, t: nat, T': Thread)
    requires Inv(s) && t < |s.th| && LocalShape(s, T')
    requires Shape(Tick(s, With(s, t, T'))) ==> ThreadOk(Tick(s, With(s, t, T')), t)
    ensures Inv(Tick(s, With(s, t, T')))
  {
    var s' := Tick(s, With(s, t, T'));
    forall u | 0 <= u < |s'.th| ensures LocalShape(s', s'.th[u]) { assert LocalShape(s, s.th[u]); }
    forall b {:trigger BackKept(s, s', b)} | 0 <= b < |s.head| ensures BackKept(s, s', b) {}
    BacksSame(s, s');
    forall u {:trigger ThreadOk(s', u)} | 0 <= u < |s'.th| ensures ThreadOk(s', u) { if u != t { OtherThread(s, s', t, u); } }
  }

  lemma BacksSame(s: State, s': State)
    requires Inv(s) && Shape(s') && s'.nodes == s.nodes && s'.order == s.order && s'.head == s.head && s'.tail == s.tail
    ensures forall b {:trigger BackOk(s', b)} :: 0 <= b < |s'.head| ==> BackOk(s', b)
    ensures forall n {:trigger FreeOk(s', n)} :: 0 <= n < |s'.nodes| ==> FreeOk(s', n)
  {
    forall b {:trigger BackOk(s', b)} | 0 <= b < |s'.head| ensures BackOk(s', b) {
      assert BackOk(s, b);
      forall k {:trigger NodeAt(s', b, k)} | 0 <= k < |s'.order[b]| ensures NodeAt(s', b, k) { assert NodeAt(s, b, k); }
    }
    forall n {:trigger FreeOk(s', n)} | 0 <= n < |s'.nodes| ensures FreeOk(s', n) { assert FreeOk(s, n); }
  }

  /** A node read from the list knows its successor. */
  lemma NextRead(s: State, b: nat, w: Word)
    requires Inv(s) && b < |s.head| && w.tag < |s.order[b]| && s.order[b][w.tag] == w.ptr
    ensures 0 <= w.ptr < |s.nodes| && NextSnap(s, b, w, s.nodes[w.ptr].next)
    ensures var x := s.nodes[w.ptr].next;
            (x.ptr == NULL <==> w.tag + 1 == |s.order[b]|) && (x.ptr != NULL ==> 0 <= x.ptr < |s.nodes|)
  {
    assert BackOk(s, b) && NodeAt(s, b, w.tag);
    assert w.tag + 1 < |s.order[b]| ==> NodeAt(s, b, w.tag + 1);
  }

  lemma SnapNow(s: State, b: nat)
    requires Inv(s) && b < |s.head|
    ensures Snap(s, b, s.tail[b], s.tail[b]) && Snap(s, b, s.head[b], s.head[b]) && s.head[b].tag <= s.tail[b].tag
  {
    assert BackOk(s, b);
  }

  lemma PutReadKeeps(s: State, t: nat)
    requires Inv(s) && t < |s.th| && (s.th[t].pc == PutTail || s.th[t].pc == PutNext || s.th[t].pc == PutCheck)
    ensures Inv(Tick(s, PutStep(s, t)))
  {
    var T := s.th[t];
    assert LocalShape(s, T) && ThreadOk(s, t);
    SnapNow(s, T.b);
    if T.pc == PutTail {
      ReadKeeps(s, t, T.(tail := s.tail[T.b], pc := PutNext));
    } else if T.pc == PutNext {
      NextRead(s, T.b, T.tail);
      ReadKeeps(s, t, T.(next := s.nodes[T.tail.ptr].next, pc := PutCheck));
    } else {
      ReadKeeps(s, t, T.(pc := if T.tail != s.tail[T.b] then PutTail else if T.next.ptr == NULL then PutLink else PutHelp));
    }
  }

  lemma GetHeadKeeps(s: State, t: nat)
    requires Inv(s) && t < |s.th| && s.th[t].pc == GetHead
    ensures Inv(Tick(s, GetStep(s, t)))
  {
    var T := s.th[t];
    assert LocalShape(s, T);
    assert PassOk(s, t) by { assert ThreadOk(s, t); }
    SnapNow(s, T.b);
    ReadKeeps(s, t, T.(head := s.head[T.b], pc := GetTail));
  }

  lemma GetTailKeeps(s: State, t: nat)
    requires Inv(s) && t < |s.th| && s.th[t].pc == GetTail
    ensures Inv(Tick(s, GetStep(s, t)))
  {
    var T := s.th[t];
    assert LocalShape(s, T);
    assert GetOk(s, t) && PassOk(s, t) by { assert ThreadOk(s, t); }
    SnapNow(s, T.b);
    ReadKeeps(s, t, T.(tail := s.tail[T.b], pc := GetNext));
  }

  lemma GetNextKeeps(s: State, t: nat)
    requires Inv(s) && t < |s.th| && s.th[t].pc == GetNext
    ensures Inv(Tick(s, GetStep(s, t)))
  {
    var T := s.th[t];
    assert LocalShape(s, T);
    assert PutOk(s, t) && GetOk(s, t) && PassOk(s, t) by { assert ThreadOk(s, t); }
    NextRead(s, T.b, T.head);
    assert BackOk(s, T.b);
    ReadKeeps(s, t, T.(next := s.nodes[T.head.ptr].next, pc := GetCheck));
  }

  /** The two snapshots agree, so the head of the backend is at the collected tag or beyond it. */
  lemma SameTag(s: State, t: nat)
    requires Inv(s) && t < |s.th| && s.th[t].pc == GetCheck && s.head[s.th[t].b] == s.th[t].head && s.th[t].head.ptr == s.th[t].tail.ptr
    ensures s.th[t].head.tag == s.th[t].tail.tag <= s.head[s.th[t].b].tag
  {
    assert LocalShape(s, s.th[t]) && ThreadOk(s, t) && BackOk(s, s.th[t].b);
  }

  lemma GetCheckKeeps(s: State, t: nat)
    requires Inv(s) && t < |s.th| && s.th[t].pc == GetCheck && LocalShape(s, s.th[t])
    requires s.head[s.th[t].b] != s.th[t].head || s.th[t].head.ptr != s.th[t].tail.ptr || s.th[t].next.ptr != NULL
    ensures Inv(Tick(s, GetStep(s, t)))
  {
    var T := s.th[t];
    if s.head[T.b] != T.head {
      CheckThread(s, t, T.(pc := GetHead));
      ReadKeeps(s, t, T.(pc := GetHead));
    } else if T.head.ptr != T.tail.ptr {
      CheckThread(s, t, T.(pc := GetTake));
      ReadKeeps(s, t, T.(pc := GetTake));
    } else {
      CheckThread(s, t, T.(pc := GetHelp));
      ReadKeeps(s, t, T.(pc := GetHelp));
    }
  }

  lemma CheckThread(s: State, t: nat, T': Thread)
    requires Inv(s) && t < |s.th| && s.th[t].pc == GetCheck && LocalShape(s, s.th[t])
    requires T' == s.th[t].(pc := if s.head[s.th[t].b] != s.th[t].head then GetHead else if s.th[t].head.ptr != s.th[t].tail.ptr then GetTake else GetHelp)
    requires T'.pc == GetHelp ==> T'.next.ptr != NULL
    ensures LocalShape(s, T')
    ensures var s' := Tick(s, With(s, t, T')); Shape(s') ==> ThreadOk(s', t)
  {
    var T := s.th[t];
    assert ThreadOk(s, t) && BackOk(s, T.b);
    if T.next.ptr != NULL { assert NodeAt(s, T.b, T.head.tag + 1); }
  }

  lemma Bare(s: State, t: nat)
    requires Shape(s) && t < |s.th| && (s.th[t].pc == GetHead || s.th[t].pc == Recheck || s.th[t].pc == Return(false))
    ensures PutOk(s, t) && GetOk(s, t)
  {
  }

  lemma CollectOne(s: State, t: nat, k: nat)
    requires Inv(s) && t < |s.th| && s.th[t].pc == GetCheck && LocalShape(s, s.th[t]) && k <= s.th[t].i
    requires s.head[s.th[t].b] == s.th[t].head && s.th[t].head.ptr == s.th[t].tail.ptr
    ensures Collected(s, s.th[t].(tails := s.th[t].tails[s.th[t].b := s.th[t].tail.tag]), Index(s.th[t].start, k, |s.head|))
  {
    var T := s.th[t];
    SameTag(s, t);
    assert ThreadOk(s, t);
    if k < T.i { assert Collected(s, T, Index(T.start, k, |s.head|)); }
  }

  /** A backend found empty: its tag is collected, and the next backend or the second pass follows. */
  lemma CollectKeeps(s: State, t: nat)
    requires Inv(s) && t < |s.th| && s.th[t].pc == GetCheck && LocalShape(s, s.th[t])
    requires s.head[s.th[t].b] == s.th[t].head && s.th[t].head.ptr == s.th[t].tail.ptr && s.th[t].next.ptr == NULL
    ensures Inv(Tick(s, GetStep(s, t)))
  {
    var T := s.th[t];
    var U := T.(tails := T.tails[T.b := T.tail.tag]);
    var s' := Tick(s, With(s, t, NextGet(s, U)));
    if Shape(s') {
      Bare(s', t);
      CollectPass(s, t);
    }
    ReadKeeps(s, t, NextGet(s, U));
  }

  lemma CollectPass(s: State, t: nat)
    requires Inv(s) && t < |s.th| && s.th[t].pc == GetCheck && LocalShape(s, s.th[t])
    requires s.head[s.th[t].b] == s.th[t].head && s.th[t].head.ptr == s.th[t].tail.ptr && s.th[t].next.ptr == NULL
    ensures var s' := Tick(s, With(s, t, NextGet(s, s.th[t].(tails := s.th[t].tails[s.th[t].b := s.th[t].tail.tag]))));
            Shape(s') ==> PassOk(s', t)
  {
    var T := s.th[t];
    var n := |s.head|;
    var U := T.(tails := T.tails[T.b := T.tail.tag]);
    var s' := Tick(s, With(s, t, NextGet(s, U)));
    assert PassOk(s, t) by { assert ThreadOk(s, t); }
    forall k | 0 <= k < T.i + 1 ensures Collected(s, U, Index(T.start, k, n)) { CollectOne(s, t, k); }
    if T.i + 1 == n {
      SecondPass(s, t, U);
      forall j | 0 <= j < n ensures Collected(s', s'.th[t], j) { assert Collected(s, U, j); }
      if !AllEmpty(s) {
        var k :| Moved(s, NextGet(s, U).(i := 0), k);
        assert Moved(s', s'.th[t], k);
      }
    } else {
      forall k | 0 <= k < T.i + 1 ensures Collected(s', s'.th[t], Index(T.start, k, n)) { assert Collected(s, U, Index(T.start, k, n)); }
    }
  }

  /** At the end of the first pass either every backend is empty at this instant, or one has moved its tail for good. */
  lemma SecondPass(s: State, t: nat, U: Thread)
    requires Inv(s) && t < |s.th| && LocalShape(s, s.th[t]) && s.th[t].i + 1 == |s.head| && U.start == s.th[t].start < |s.head| && |U.tails| == |s.head|
    requires forall k :: 0 <= k < |s.head| ==> Collected(s, U, Index(U.start, k, |s.head|))
    ensures forall j :: 0 <= j < |s.head| ==> Collected(s, U, j)
    ensures AllEmpty(s) || exists k :: Moved(s, NextGet(s, U).(i := 0), k)
  {
    var n := |s.head|;
    forall j | 0 <= j < n ensures Collected(s, U, j) {
      var k := Turn(U.start, j, n);
      assert Collected(s, U, Index(U.start, k, n));
    }
    if !AllEmpty(s) {
      var b :| 0 <= b < n && s.head[b] != s.tail[b];
      assert BackOk(s, b) && Collected(s, U, b);
      var k := Turn(U.start, b, n);
      assert Moved(s, NextGet(s, U).(i := 0), k);
    }
  }

  /** The tag of this turn is unchanged, so a tail that has moved is still to come. */
  lemma RecheckMoved(s: State, t: nat, s': State)
    requires Inv(s) && t < |s.th| && s.th[t].pc == Recheck && LocalShape(s, s.th[t]) && s.tail[s.th[t].b].tag == s.th[t].tails[s.th[t].b]
    requires s'.head == s.head && s'.tail == s.tail && exists k :: Moved(s, s.th[t], k)
    ensures s.th[t].i + 1 < |s.head| && exists k :: Moved(s', RecheckStep(s, s.th[t]), k)
  {
    var T := s.th[t];
    assert PassOk(s, t) by { assert ThreadOk(s, t); }
    var k :| Moved(s, T, k);
    assert k != T.i;
    assert Moved(s', RecheckStep(s, T), k);
  }

  lemma RecheckPass(s: State, t: nat)
    requires Inv(s) && t < |s.th| && s.th[t].pc == Recheck && LocalShape(s, s.th[t])
    ensures LocalShape(s, RecheckStep(s, s.th[t]))
    ensures var s' := Tick(s, With(s, t, RecheckStep(s, s.th[t]))); Shape(s') ==> PassOk(s', t)
  {
    var T := s.th[t];
    var n := |s.head|;
    var s' := Tick(s, With(s, t, RecheckStep(s, T)));
    assert PassOk(s, t) by { assert ThreadOk(s, t); }
    if s.tail[T.b].tag == T.tails[T.b] {
      forall j | 0 <= j < n ensures Collected(s', RecheckStep(s, T), j) { assert Collected(s, T, j); }
      if exists k :: Moved(s, T, k) { RecheckMoved(s, t, s'); }
    }
  }

  lemma RecheckKeeps(s: State, t: nat)
    requires Inv(s) && t < |s.th| && s.th[t].pc == Recheck
    ensures Inv(Tick(s, GetStep(s, t)))
    ensures var T, T' := s.th[t], GetStep(s, t).th[t];
            && T.b < |s.tail| && T.b < |T.tails|
            && (s.tail[T.b].tag != T.tails[T.b] ==> T'.pc == GetHead && T'.start == T'.b == T.b && T'.i == 0)
            && (s.tail[T.b].tag == T.tails[T.b] ==> if T.i + 1 == |s.head| then T'.pc == Return(false) else T'.pc == Recheck && T'.i == T.i + 1)
  {
    assert LocalShape(s, s.th[t]);
    assert ThreadOk(s, t);
    RecheckPass(s, t);
    var s' := Tick(s, With(s, t, RecheckStep(s, s.th[t])));
    if Shape(s') { Bare(s', t); }
    ReadKeeps(s, t, RecheckStep(s, s.th[t]));
  }

  // ---------------------------------------------------------------- steps that change a backend

  lemma Assemble(s: State, s': State, t: nat)
    requires Inv(s) && Evolves(s, s', t) && ThreadOk(s', t) && s'.lastEmpty <= s'.clock
    requires forall b {:trigger BackOk(s', b)} :: 0 <= b < |s'.head| ==> BackOk(s', b)
    requires forall n {:trigger FreeOk(s', n)} :: 0 <= n < |s'.nodes| ==> FreeOk(s', n)
    ensures Inv(s')
  {
    forall u {:trigger ThreadOk(s', u)} | 0 <= u < |s'.th| ensures ThreadOk(s', u) { if u != t { OtherThread(s, s', t, u); } }
  }

  /** Nodes of a backend that keep their place keep the backend in order. */
  lemma BackSame(s: State, s': State, b: nat)
    requires Shape(s) && Shape(s') && b < |s.head| == |s'.head| && BackOk(s, b)
    requires s'.order[b] == s.order[b] && s'.head[b] == s.head[b] && s'.tail[b] == s.tail[b] && |s.nodes| <= |s'.nodes|
    requires forall n :: 0 <= n < |s.nodes| && s.nodes[n].home == b ==> s'.nodes[n].home == b && s'.nodes[n].next == s.nodes[n].next
    ensures BackOk(s', b)
  {
    forall k {:trigger NodeAt(s', b, k)} | 0 <= k < |s'.order[b]| ensures NodeAt(s', b, k) { assert NodeAt(s, b, k); }
  }

  lemma InvokePutKeeps(s: State, t: nat, op: Op)
    requires Inv(s) && t < |s.th| && s.th[t].pc == Idle && op.Put?
    ensures Inv(Tick(s, Invoke(s, t, op)))
  {
    var s' := Tick(s, Invoke(s, t, op));
    assert LocalShape(s, s.th[t]);
    forall u | 0 <= u < |s'.th| ensures LocalShape(s', s'.th[u]) { assert LocalShape(s, s.th[u]); }
    forall b {:trigger BackKept(s, s', b)} | 0 <= b < |s.head| ensures BackKept(s, s', b) {}
    forall b {:trigger BackOk(s', b)} | 0 <= b < |s'.head| ensures BackOk(s', b) { assert BackOk(s, b); BackSame(s, s', b); }
    forall n {:trigger FreeOk(s', n)} | 0 <= n < |s'.nodes| ensures FreeOk(s', n) { if n < |s.nodes| { assert FreeOk(s, n); } }
    Assemble(s, s', t);
  }

  lemma InvokeGetKeeps(s: State, t: nat, op: Op)
    requires Inv(s) && t < |s.th| && s.th[t].pc == Idle && op.Get?
    ensures Inv(Tick(s, Invoke(s, t, op)))
  {
    ReadKeeps(s, t, Invoke(s, t, op).th[t]);
  }

  // Line 99 of ms_queue.h.

  ghost predicate Links(s: State, t: nat) {
    Inv(s) && t < |s.th| && s.th[t].pc == PutLink && LocalShape(s, s.th[t]) && s.nodes[s.th[t].tail.ptr].next == s.th[t].next
  }

  lemma LinkTarget(s: State, t: nat)
    requires Links(s, t)
    ensures var T := s.th[t]; T.tail == s.tail[T.b] && T.tail.tag + 1 == |s.order[T.b]| && T.next == Word(NULL, 0)
    ensures var T := s.th[t]; 0 <= T.node < |s.nodes| && s.nodes[T.node].home == -1 && s.nodes[T.node].next == Word(NULL, 0) && s.nodes[T.node].owner == t
    ensures s.nodes[s.th[t].tail.ptr].home == s.th[t].b
  {
    var T := s.th[t];
    assert ThreadOk(s, t);
    NextRead(s, T.b, T.tail);
    assert BackOk(s, T.b) && NodeAt(s, T.b, T.tail.tag) && FreeOk(s, T.node);
  }

  lemma LinkBack(s: State, t: nat)
    requires Links(s, t) && Shape(Tick(s, PutStep(s, t)))
    ensures BackOk(Tick(s, PutStep(s, t)), s.th[t].b)
  {
    var s' := Tick(s, PutStep(s, t));
    var b := s.th[t].b;
    LinkTarget(s, t);
    assert BackOk(s, b);
    var l := s.order[b];
    forall k {:trigger NodeAt(s', b, k)} | 0 <= k < |s'.order[b]| ensures NodeAt(s', b, k) {
      if k < |l| { assert NodeAt(s, b, k); }
    }
    forall j, k | 0 <= j < k < |s'.order[b]| ensures s'.order[b][j] != s'.order[b][k] { assert NodeAt(s, b, j); }
  }

  lemma LinkKeeps(s: State, t: nat)
    requires Links(s, t)
    ensures Inv(Tick(s, PutStep(s, t)))
  {
    var s' := Tick(s, PutStep(s, t));
    LinkTarget(s, t);
    forall u | 0 <= u < |s'.th| ensures LocalShape(s', s'.th[u]) { assert LocalShape(s, s.th[u]); }
    forall b {:trigger BackKept(s, s', b)} | 0 <= b < |s.head| ensures BackKept(s, s', b) {}
    forall b {:trigger BackOk(s', b)} | 0 <= b < |s'.head| ensures BackOk(s', b) {
      assert BackOk(s, b);
      if b == s.th[t].b { LinkBack(s, t); } else { BackSame(s, s', b); }
    }
    forall n {:trigger FreeOk(s', n)} | 0 <= n < |s'.nodes| ensures FreeOk(s', n) { assert FreeOk(s, n); }
    LinkThread(s, t);
    Assemble(s, s', t);
  }

  lemma LinkThread(s: State, t: nat)
    requires Links(s, t) && Shape(Tick(s, PutStep(s, t)))
    ensures ThreadOk(Tick(s, PutStep(s, t)), t)
  {
    LinkTarget(s, t);
    assert ThreadOk(s, t);
  }

  lemma LinkFails(s: State, t: nat)
    requires Inv(s) && t < |s.th| && s.th[t].pc == PutLink && LocalShape(s, s.th[t]) && s.nodes[s.th[t].tail.ptr].next != s.th[t].next
    ensures Inv(Tick(s, PutStep(s, t)))
  {
    assert ThreadOk(s, t);
    ReadKeeps(s, t, s.th[t].(pc := PutTail));
  }

  // The three swaps of the tail: lines 101, 105 and 223.

  predicate Swings(p: PC) { p == PutSwing || p == PutHelp || p == GetHelp }

  function SwingTo(T: Thread): int { if T.pc == PutSwing then T.node else T.next.ptr }

  lemma SwingTarget(s: State, t: nat)
    requires Inv(s) && t < |s.th| && Swings(s.th[t].pc) && LocalShape(s, s.th[t]) && s.tail[s.th[t].b] == s.th[t].tail
    ensures var T := s.th[t]; T.tail.tag + 1 < |s.order[T.b]| && SwingTo(T) == s.order[T.b][T.tail.tag + 1] && 0 <= SwingTo(T) < |s.nodes|
  {
    var T := s.th[t];
    assert ThreadOk(s, t) && BackOk(s, T.b);
    assert NodeAt(s, T.b, T.tail.tag + 1);
  }

  /** The tail of the backend at work moves one node on; the thread goes on as if it had not. */
  lemma SwingKeeps(s: State, t: nat, T': Thread)
    requires Inv(s) && t < |s.th| && Swings(s.th[t].pc) && LocalShape(s, s.th[t]) && LocalShape(s, T')
    requires var s' := Tick(s, With(SwingTail(s, s.th[t], SwingTo(s.th[t])), t, T')); Shape(s') ==> ThreadOk(s', t)
    ensures Inv(Tick(s, With(SwingTail(s, s.th[t], SwingTo(s.th[t])), t, T')))
  {
    var T := s.th[t];
    var s' := Tick(s, With(SwingTail(s, T, SwingTo(T)), t, T'));
    if s.tail[T.b] == T.tail { SwingTarget(s, t); }
    forall u | 0 <= u < |s'.th| ensures LocalShape(s', s'.th[u]) { assert LocalShape(s, s.th[u]); }
    forall b {:trigger BackKept(s, s', b)} | 0 <= b < |s.head| ensures BackKept(s, s', b) {}
    forall b {:trigger BackOk(s', b)} | 0 <= b < |s'.head| ensures BackOk(s', b) { SwingBack(s, s', t, b); }
    forall n {:trigger FreeOk(s', n)} | 0 <= n < |s'.nodes| ensures FreeOk(s', n) { assert FreeOk(s, n); }
    Assemble(s, s', t);
  }

  lemma SwingBack(s: State, s': State, t: nat, b: nat)
    requires Inv(s) && t < |s.th| && Swings(s.th[t].pc) && LocalShape(s, s.th[t]) && b < |s.head| && Shape(s')
    requires s'.nodes == s.nodes && s'.head == s.head && s'.order == s.order && s'.tail == SwingTail(s, s.th[t], SwingTo(s.th[t])).tail
    ensures BackOk(s', b)
  {
    assert BackOk(s, b);
    if s.tail[s.th[t].b] == s.th[t].tail { SwingTarget(s, t); }
    forall k {:trigger NodeAt(s', b, k)} | 0 <= k < |s'.order[b]| ensures NodeAt(s', b, k) { assert NodeAt(s, b, k); }
  }

  lemma SwingThread(s: State, t: nat, T': Thread)
    requires Inv(s) && t < |s.th| && Swings(s.th[t].pc) && LocalShape(s, s.th[t])
    requires T' == s.th[t].(pc := if s.th[t].pc == PutSwing then Return(true) else if s.th[t].pc == PutHelp then PutTail else GetHead)
    ensures LocalShape(s, T')
    ensures var s' := Tick(s, With(SwingTail(s, s.th[t], SwingTo(s.th[t])), t, T')); Shape(s') ==> ThreadOk(s', t)
  {
    var T := s.th[t];
    assert ThreadOk(s, t);
    var s' := Tick(s, With(SwingTail(s, T, SwingTo(T)), t, T'));
    if T.pc == GetHelp {
      forall k | 0 <= k < T.i ensures Collected(s', T', Index(T.start, k, |s.head|)) { assert Collected(s, T, Index(T.start, k, |s.head|)); }
    }
  }

  // Line 226: the head moves on, and the dequeue takes the value behind it.

  ghost predicate Takes(s: State, t: nat) {
    Inv(s) && t < |s.th| && s.th[t].pc == GetTake && LocalShape(s, s.th[t]) && s.head[s.th[t].b] == s.th[t].head
  }

  lemma TakeTarget(s: State, t: nat)
    requires Takes(s, t)
    ensures var T := s.th[t]; T.head.tag < s.tail[T.b].tag < |s.order[T.b]| && T.next.ptr == s.order[T.b][T.head.tag + 1] && 0 <= T.next.ptr < |s.nodes|
  {
    var T := s.th[t];
    assert ThreadOk(s, t) && BackOk(s, T.b);
  }

  lemma TakeEvolves(s: State, t: nat)
    requires Takes(s, t)
    ensures Evolves(s, Tick(s, GetStep(s, t)), t)
  {
    var s' := Tick(s, GetStep(s, t));
    TakeTarget(s, t);
    forall u | 0 <= u < |s'.th| ensures LocalShape(s', s'.th[u]) { assert LocalShape(s, s.th[u]); }
    forall b {:trigger BackKept(s, s', b)} | 0 <= b < |s.head| ensures BackKept(s, s', b) {}
  }

  lemma TakeKeeps(s: State, t: nat)
    requires Takes(s, t)
    ensures Inv(Tick(s, GetStep(s, t)))
  {
    TakeEvolves(s, t);
    TakeThread(s, t);
    TakeGlobal(s, t);
    Assemble(s, Tick(s, GetStep(s, t)), t);
  }

  lemma TakeBack(s: State, s': State, t: nat, b: nat)
    requires Takes(s, t) && b < |s.head| && Shape(s') && s'.nodes == s.nodes && s'.order == s.order && s'.tail == s.tail
    requires s'.head == s.head[s.th[t].b := Word(s.th[t].next.ptr, s.th[t].head.tag + 1)]
    ensures BackOk(s', b)
  {
    TakeTarget(s, t);
    assert BackOk(s, b);
    forall k {:trigger NodeAt(s', b, k)} | 0 <= k < |s'.order[b]| ensures NodeAt(s', b, k) { assert NodeAt(s, b, k); }
  }

  lemma TakeGlobal(s: State, t: nat)
    requires Takes(s, t) && Shape(Tick(s, GetStep(s, t)))
    ensures var s' := Tick(s, GetStep(s, t));
            && (forall b {:trigger BackOk(s', b)} :: 0 <= b < |s'.head| ==> BackOk(s', b))
            && (forall n {:trigger FreeOk(s', n)} :: 0 <= n < |s'.nodes| ==> FreeOk(s', n))
  {
    var s' := Tick(s, GetStep(s, t));
    forall b {:trigger BackOk(s', b)} | 0 <= b < |s'.head| ensures BackOk(s', b) { TakeBack(s, s', t, b); }
    forall n {:trigger FreeOk(s', n)} | 0 <= n < |s'.nodes| ensures FreeOk(s', n) { assert FreeOk(s, n); }
  }

  lemma TakeThread(s: State, t: nat)
    requires Takes(s, t)
    ensures var s' := Tick(s, GetStep(s, t)); Shape(s') ==> ThreadOk(s', t)
  {
    assert ThreadOk(s, t);
  }

  lemma TakeFails(s: State, t: nat)
    requires Inv(s) && t < |s.th| && s.th[t].pc == GetTake && LocalShape(s, s.th[t]) && s.head[s.th[t].b] != s.th[t].head
    ensures Inv(Tick(s, GetStep(s, t)))
  {
    assert ThreadOk(s, t);
    ReadKeeps(s, t, s.th[t].(item := s.nodes[s.th[t].next.ptr].item, pc := GetHead));
  }

  // ---------------------------------------------------------------- every step

  lemma PutInv(s: State, t: nat)
    requires Inv(s) && t < |s.th| && !s.th[t].pc.Idle? && !s.th[t].pc.Return? && !InGet(s.th[t].pc)
    ensures Inv(Tick(s, PutStep(s, t)))
  {
    var T := s.th[t];
    assert LocalShape(s, T);
    match T.pc
    case PutLink => if Links(s, t) { LinkKeeps(s, t); } else { LinkFails(s, t); }
    case PutSwing =>
      SwingThread(s, t, T.(pc := Return(true)));
      SwingKeeps(s, t, T.(pc := Return(true)));
    case PutHelp =>
      SwingThread(s, t, T.(pc := PutTail));
      SwingKeeps(s, t, T.(pc := PutTail));
    case _ => PutReadKeeps(s, t);
  }

  lemma GetInv(s: State, t: nat)
    requires Inv(s) && t < |s.th| && InGet(s.th[t].pc)
    ensures Inv(Tick(s, GetStep(s, t)))
  {
    var T := s.th[t];
    assert LocalShape(s, T);
    match T.pc
    case GetHelp =>
      SwingThread(s, t, T.(pc := GetHead));
      SwingKeeps(s, t, T.(pc := GetHead));
    case GetCheck =>
      if s.head[T.b] != T.head || T.head.ptr != T.tail.ptr || T.next.ptr != NULL { GetCheckKeeps(s, t); } else { CollectKeeps(s, t); }
    case GetTake => if Takes(s, t) { TakeKeeps(s, t); } else { TakeFails(s, t); }
    case Recheck => RecheckKeeps(s, t);
    case GetHead => GetHeadKeeps(s, t);
    case GetTail => GetTailKeeps(s, t);
    case GetNext => GetNextKeeps(s, t);
  }

  lemma ReturnKeeps(s: State, t: nat)
    requires Inv(s) && t < |s.th| && s.th[t].pc.Return?
    ensures Inv(Tick(s, With(s, t, s.th[t].(pc := Idle))))
  {
    assert LocalShape(s, s.th[t]) && ThreadOk(s, t);
    ReadKeeps(s, t, s.th[t].(pc := Idle));
  }

  lemma StepInv(s: State, t: nat, op: Op)
    requires Inv(s) && t < |s.th|
    ensures Inv(Step(s, t, op)) && |Step(s, t, op).th| == |s.th|
  {
    if s.th[t].pc.Idle? {
      if op.Put? { InvokePutKeeps(s, t, op); } else { InvokeGetKeeps(s, t, op); }
    } else if s.th[t].pc.Return? { ReturnKeeps(s, t); }
    else if InGet(s.th[t].pc) { GetInv(s, t); }
    else { PutInv(s, t); }
  }
}
