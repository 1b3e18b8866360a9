/** No helper tries for long: each further pass of `help_enqueue` is paid for by a link or a move of the tail, and those are few. */
module WFWaits {
  import opened Counting
  import opened WFMachine
  import opened WFInv
  import opened WFSteps
  import opened WFQueue
  import opened WFHelps

  /** Every link and every move of the tail is progress. */
  function Progress(s: State): nat { |s.order| + s.tail.aba }

  lemma StepProgress(s: State, t: nat, item: int)
    requires Inv(s) && t < |s.th|
    ensures var s' := Step(s, t, item);
            && |s'.order| >= |s.order| && s'.tail.aba >= s.tail.aba
            && (Progress(s') == Progress(s) ==> s'.order == s.order && s'.tail == s.tail)
  {
    assert LocalShape(s, s.th[t]);
  }

  // ---------------------------------------------------------------- how many nodes there can be before and behind one

  lemma {:induction false} Range(n: nat) returns (r: set<int>)
    ensures |r| == n && forall m :: m in r <==> 0 <= m < n
  {
    if n == 0 {
      r := {};
    } else {
      var q := Range(n - 1);
      r := q + {n - 1};
    }
  }

  lemma {:induction false} Distinct(l: seq<int>)
    requires forall i, j :: 0 <= i < j < |l| ==> l[i] != l[j]
    ensures |set m | m in l| == |l|
  {
    if l == [] {
      assert (set m | m in l) == {};
    } else {
      var r, x := l[..|l| - 1], l[|l| - 1];
      Distinct(r);
      assert (set m | m in l) == (set m | m in r) + {x};
    }
  }

  /** All but one node of each thread are linked among those published before n. */
  lemma Lower(s: State, n: nat)
    requires Inv(s) && History(s) && 0 < n < |s.nodes|
    ensures n <= |s.order| + |s.th|
  {
    var all := Range(n);
    var linked := set m | m in all && m in s.order;
    var rest := all - linked;
    FewerThan(s.order, linked);
    assert s.order[0] == 0;
    forall m | m in rest ensures 0 < m < |s.nodes| && s.nodes[m].owner < |s.th| && s.th[s.nodes[m].owner].node == m { Known(s, m); }
    OnePerOwner(s.nodes, rest, |s.th|);
    assert all == linked + rest;
  }

  /** Until the tail has passed n, few nodes are linked. */
  lemma Upper(s: State, n: nat)
    requires Inv(s) && 0 < n < |s.nodes| && !Passed(s, n) && forall k: nat {:trigger Bounded(s, n, k)} :: Bounded(s, n, k)
    ensures |s.order| <= n + 2 * |s.th| + 1
  {
    var k := if Linked(s, n) then |s.order| - 1 else |s.order|;
    forall j | 0 <= j < k ensures s.order[j] != n { assert s.order[j] == n ==> j > s.tail.aba; }
    assert Bounded(s, n, k);
    Places(s, n, k);
  }

  /** The first k places hold nodes published before n, and later ones. */
  lemma Places(s: State, n: nat, k: nat)
    requires Inv(s) && k <= |s.order| && n !in s.order[..k]
    ensures k <= n + |Later(s, k, n)|
  {
    var l := s.order[..k];
    Distinct(l);
    forall m | m in l ensures 0 <= m {
      var j :| 0 <= j < k && l[j] == m;
      assert NodeAt(s, j);
    }
    Halves(l, n);
  }

  lemma Halves(l: seq<int>, n: nat)
    requires n !in l && forall m :: m in l ==> 0 <= m
    ensures |set m | m in l| <= n + |Above(l, n)|
  {
    var all := Range(n);
    var here := set m | m in l;
    var before := set m | m in l && m < n;
    assert here == before + Above(l, n);
    assert all == before + (all - before);
  }

  // ---------------------------------------------------------------- watching one thread

  /**
   * The node that a thread is helping to link, the progress when it first tried and when it last tried, the number of tries,
   * and the tail it last saw lag behind.
   */
  datatype Watch = Watch(target: int, base: nat, mark: nat, passes: nat, lag: nat)

  /** The watch after a step of the thread. */
  ghost function Watched(s: State, t: nat, w: Watch): Watch
    requires Shape(s) && t < |s.th|
  {
    var T := s.th[t];
    assert LocalShape(s, T);
    if T.pc == Help then w.(target := NULL)
    else if T.pc == Pend1 && DescOf(s, T.i).pending then
      if w.target == DescOf(s, T.i).node then w.(mark := Progress(s), passes := w.passes + 1)
      else Watch(DescOf(s, T.i).node, Progress(s), Progress(s), 1, 0)
    else if T.pc == CheckTail then w.(lag := s.tail.aba)
    else w
  }

  /** A pass of the loop of `help_enqueue`, the call of `help_finish_enqueue` in it included. */
  predicate InPass(T: Thread) { (InHelp(T.pc) && T.pc != Help && T.pc != Pend1) || (InFinish(T.pc) && T.ret == ToLoop) }

  /** There were at most as many tries as there was progress, and the target bounds that. */
  ghost predicate Counts(s: State, w: Watch) {
    && 0 < w.target < |s.nodes| && w.base <= w.mark <= Progress(s) && w.base + w.passes <= w.mark + 1
    && 2 * w.target <= w.base + 2 * |s.th| + 2 && w.mark <= 2 * w.target + 4 * |s.th| + 1
  }

  /** As long as there is no progress in a pass, the target has not been passed by the tail, and what the pass has read is current. */
  ghost predicate Fresh(s: State, T: Thread, w: Watch)
    requires Shape(s)
  {
    && 0 < w.target < |s.nodes| && s.nodes[w.target].owner == T.i < |s.th|
    && (Progress(s) == w.mark ==> !Passed(s, w.target))
    && (Progress(s) == w.mark && InHelp(T.pc) && !Seeks(T.pc) ==> DescOf(s, T.i).phase <= T.phase)
    && (InHelp(T.pc) && HasTail(T.pc) ==> w.mark <= |s.order| + T.tail.aba)
    && (InHelp(T.pc) && HasTail(T.pc) && T.pc != ReadNext ==>
          if T.next.ptr == NULL then T.next == Word(NULL, 0) && (Progress(s) == w.mark ==> T.tail.aba + 1 == |s.order|)
          else T.tail.aba + 1 < |s.order|)
    && (InFinish(T.pc) ==> w.mark <= |s.order| + w.lag && w.lag + 2 <= |s.order| && w.lag <= s.tail.aba && (T.pc != FinTail ==> w.lag <= T.tail.aba))
  }

  ghost predicate WatchOk(s: State, T: Thread, w: Watch)
    requires Shape(s)
  {
    && (T.pc == Pend1 && w.target != NULL ==> Counts(s, w) && w.base + w.passes <= Progress(s))
    && (InPass(T) ==> Counts(s, w) && Fresh(s, T, w))
  }

  /** A target that has not been passed is what its owner's descriptor names. */
  lemma TargetNamed(s: State, T: Thread, w: Watch)
    requires Inv(s) && History(s) && Fresh(s, T, w) && Progress(s) == w.mark
    ensures DescOf(s, T.i).node == w.target && Running(s, w.target)
  {
    Known(s, w.target);
    assert WFQueue.CallOk(s, w.target);
  }

  lemma OtherWatch(s: State, t: nat, item: int, T: Thread, w: Watch)
    requires Inv(s) && History(s) && t < |s.th| && WatchOk(s, T, w)
    ensures Shape(Step(s, t, item)) && WatchOk(Step(s, t, item), T, w)
  {
    var s' := Step(s, t, item);
    StepProgress(s, t, item);
    StepFrame(s, t, item);
    StepInv(s, t, item);
    if InPass(T) {
      assert SameCall(s.nodes[w.target], s'.nodes[w.target]);
      DescStep(s, t, item, T.i);
      if Progress(s') == w.mark { TargetNamed(s, T, w); }
    }
  }

  // ---------------------------------------------------------------- the steps of the thread itself

  /** The watch kept by the step of the thread itself. */
  ghost predicate Watches(s: State, t: nat, item: int, w: Watch)
    requires Shape(s) && t < |s.th|
  {
    var s' := Step(s, t, item); Shape(s') && t < |s'.th| && WatchOk(s', s'.th[t], Watched(s, t, w))
  }

  /** A pass begins: the enqueue is pending, so the tail has not passed its node. */
  lemma PassBegins(s: State, t: nat, item: int, w: Watch)
    requires Inv(s) && History(s) && t < |s.th| && WatchOk(s, s.th[t], w) && s.th[t].pc == Pend1 && s.th[t].i < |s.th| && DescOf(s, s.th[t].i).pending
    requires forall n: nat, k: nat {:trigger Bounded(s, n, k)} :: Bounded(s, n, k)
    ensures Watches(s, t, item, w)
  {
    var n := DescOf(s, s.th[t].i).node;
    StepInv(s, t, item);
    assert DescOk(s, s.th[t].i);
    assert s.tail.aba + 2 >= |s.order| > s.tail.aba;
    Lower(s, n);
    Upper(s, n);
    assert LocalShape(s, s.th[t]);
    assert Step(s, t, item) == Move(s, t, s.th[t].(pc := Phase1));
    MovePassed(s, t, s.th[t].(pc := Phase1), n);
  }

  lemma PassSkipped(s: State, t: nat, item: int, w: Watch)
    requires Inv(s) && t < |s.th| && WatchOk(s, s.th[t], w)
    requires s.th[t].pc == Help || (s.th[t].pc == Pend1 && s.th[t].i < |s.th| && !DescOf(s, s.th[t].i).pending)
    ensures Watches(s, t, item, w)
  {
    StepInv(s, t, item);
    assert LocalShape(s, s.th[t]);
  }

  /** A pass goes on, or begins anew after progress. */
  ghost predicate NextPass(s: State, T': Thread, w: Watch)
    requires Shape(s)
  {
    if T'.pc == Pend1 then Progress(s) > w.mark && Counts(s, w) else WatchOk(s, T', w)
  }

  // The reads of a pass, on the state that they leave unchanged.

  lemma SeekPass(s: State, t: nat, w: Watch)
    requires Inv(s) && t < |s.th| && s.th[t].pc == Phase1 && WatchOk(s, s.th[t], w)
    ensures NextPass(s, SeekStep(s, t), w)
  {
    assert LocalShape(s, s.th[t]);
  }

  lemma ReadPass(s: State, t: nat, w: Watch)
    requires Inv(s) && t < |s.th| && (s.th[t].pc == ReadTail || s.th[t].pc == ReadNext) && WatchOk(s, s.th[t], w)
    ensures NextPass(s, LinkStep(s, t), w)
  {
    assert LocalShape(s, s.th[t]) && TailSnap(s, s.th[t]) by { assert ThreadOk(s, t); }
    if s.th[t].pc == ReadNext { NextRead(s, s.th[t]); }
  }

  lemma CheckPass(s: State, t: nat, w: Watch)
    requires Inv(s) && t < |s.th| && s.th[t].pc == CheckTail && WatchOk(s, s.th[t], w)
    ensures NextPass(s, LinkStep(s, t), w.(lag := s.tail.aba))
  {
    assert LocalShape(s, s.th[t]) && TailSnap(s, s.th[t]) by { assert ThreadOk(s, t); }
  }

  /** Without progress, the last node that was read still is the last one, so the target is not linked and still pending. */
  lemma StillPending(s: State, t: nat, w: Watch)
    requires Inv(s) && History(s) && t < |s.th| && (s.th[t].pc == Pend2 || s.th[t].pc == Phase2 || s.th[t].pc == Link)
    requires Fresh(s, s.th[t], w) && Progress(s) == w.mark
    ensures DescOf(s, s.th[t].i).pending && DescOf(s, s.th[t].i).phase <= s.th[t].phase
    ensures s.nodes[s.th[t].tail.ptr].next == s.th[t].next
  {
    var T := s.th[t];
    assert LocalShape(s, T) && TailSnap(s, T) && LinkFacts(s, T) by { assert ThreadOk(s, t); }
    TargetNamed(s, T, w);
    NextRead(s, T);
    assert DescOk(s, T.i);
    if Linked(s, w.target) { AllPassed(s, T, w.target); }
  }

  lemma TryPass(s: State, t: nat, w: Watch)
    requires Inv(s) && History(s) && t < |s.th| && (s.th[t].pc == Pend2 || s.th[t].pc == Phase2 || s.th[t].pc == ReadNode) && WatchOk(s, s.th[t], w)
    ensures NextPass(s, LinkStep(s, t), w)
  {
    assert LocalShape(s, s.th[t]);
    if Progress(s) == w.mark && s.th[t].pc != ReadNode { StillPending(s, t, w); }
  }

  lemma MissPass(s: State, t: nat, w: Watch)
    requires Inv(s) && History(s) && t < |s.th| && s.th[t].pc == Link && LocalShape(s, s.th[t]) && WatchOk(s, s.th[t], w)
    requires s.nodes[s.th[t].tail.ptr].next != s.th[t].next
    ensures NextPass(s, LinkStep(s, t), w)
  {
    if Progress(s) == w.mark { StillPending(s, t, w); }
  }

  /** The part of a pass that helps to move the tail: at its end the tail has moved away from where it was seen to lag. */
  lemma LagPass(s: State, t: nat, w: Watch)
    requires Inv(s) && History(s) && t < |s.th| && InFinish(s.th[t].pc) && s.th[t].ret == ToLoop && WatchOk(s, s.th[t], w) && LocalShape(s, s.th[t])
    requires s.th[t].pc == FinState ==> s.state[s.nodes[s.th[t].next.ptr].owner] != s.th[t].cur
    requires s.th[t].pc == FinMove ==> s.tail != s.th[t].tail
    ensures NextPass(s, FinishStep(s, t), w)
  {
    var T := s.th[t];
    assert TailSnap(s, T) && NextSnap(s, T) by { assert ThreadOk(s, t); }
    if T.pc == FinNext { NextRead(s, T); }
    if T.pc == FinNode && DescOf(s, s.nodes[T.next.ptr].owner).node != T.next.ptr { PassedBehind(s, T); }
    LagMoves(s, T, w);
    LagGoesOn(s, t);
  }

  /** Where a call of `help_finish_enqueue` in a pass leads. */
  lemma LagGoesOn(s: State, t: nat)
    requires Shape(s) && t < |s.th| && InFinish(s.th[t].pc) && s.th[t].ret == ToLoop && LocalShape(s, s.th[t])
    ensures var T, T' := s.th[t], FinishStep(s, t);
            && T'.ret == ToLoop && T'.i == T.i && T'.phase == T.phase
            && (T'.pc == Pend1 ==> Leaves(s, T))
            && (T'.pc != Pend1 ==> InFinish(T'.pc) && T'.pc != FinTail && T'.tail == if T.pc == FinTail then s.tail else T.tail)
  {
  }

  /** The branches in which `help_finish_enqueue` comes to its end. */
  ghost predicate Leaves(s: State, T: Thread)
    requires Shape(s) && LocalShape(s, T)
  {
    || (T.pc == FinNext && s.nodes[T.tail.ptr].next.ptr == NULL) || (T.pc == FinCheck && T.tail != s.tail) || T.pc == FinMove
    || (T.pc == FinNode && DescOf(s, s.nodes[T.next.ptr].owner).node != T.next.ptr)
  }

  lemma LagMoves(s: State, T: Thread, w: Watch)
    requires Shape(s) && LocalShape(s, T) && InFinish(T.pc) && T.ret == ToLoop && Fresh(s, T, w) && TailSnap(s, T) && ListOk(s)
    requires T.pc == FinMove ==> s.tail != T.tail
    requires T.pc == FinNext && s.nodes[T.tail.ptr].next.ptr == NULL ==> T.tail == s.tail && T.tail.aba + 1 == |s.order|
    requires T.pc == FinNode && DescOf(s, s.nodes[T.next.ptr].owner).node != T.next.ptr ==> s.tail.aba > T.tail.aba
    ensures Leaves(s, T) ==> Progress(s) > w.mark
  {
  }

  /** A node whose owner has published another one has been passed by the tail. */
  lemma PassedBehind(s: State, T: Thread)
    requires Inv(s) && History(s) && T.pc == FinNode && TailSnap(s, T) && NextSnap(s, T) && LocalShape(s, T)
    requires DescOf(s, s.nodes[T.next.ptr].owner).node != T.next.ptr
    ensures s.tail.aba > T.tail.aba
  {
    Known(s, T.next.ptr);
    assert WFQueue.CallOk(s, T.next.ptr);
    var k :| 0 <= k <= s.tail.aba && k < |s.order| && s.order[k] == T.next.ptr;
    assert s.order[T.tail.aba + 1] == T.next.ptr;
  }

  /** What a step that changes no shared word does to the pass. */
  lemma LocalPass(s: State, t: nat, item: int, w: Watch)
    requires Inv(s) && History(s) && t < |s.th| && InPass(s.th[t]) && WatchOk(s, s.th[t], w) && LocalShape(s, s.th[t])
    requires !Links(s, t) && !Settles(s, t) && !Swings(s, t)
    ensures NextPass(s, LocalStep(s, t, item), Watched(s, t, w))
  {
    var p := s.th[t].pc;
    assert Watched(s, t, w) == if p == CheckTail then w.(lag := s.tail.aba) else w;
    if p == Phase1 {
      SeekPass(s, t, w);
      assert LocalStep(s, t, item) == SeekStep(s, t);
    } else if InHelp(p) {
      HelpPass(s, t, w);
      assert LocalStep(s, t, item) == LinkStep(s, t);
    } else {
      LagPass(s, t, w);
      assert LocalStep(s, t, item) == FinishStep(s, t);
    }
  }

  lemma HelpPass(s: State, t: nat, w: Watch)
    requires Inv(s) && History(s) && t < |s.th| && InHelp(s.th[t].pc) && !Seeks(s.th[t].pc) && WatchOk(s, s.th[t], w) && LocalShape(s, s.th[t])
    requires s.th[t].pc == Link ==> s.nodes[s.th[t].tail.ptr].next != s.th[t].next
    ensures NextPass(s, LinkStep(s, t), if s.th[t].pc == CheckTail then w.(lag := s.tail.aba) else w)
  {
    match s.th[t].pc
    case ReadTail | ReadNext => ReadPass(s, t, w);
    case CheckTail => CheckPass(s, t, w);
    case Pend2 | Phase2 | ReadNode => TryPass(s, t, w);
    case Link => MissPass(s, t, w);
  }

  /** After progress the next pass may begin. */
  lemma NextWatch(s: State, t: nat, T': Thread, w: Watch)
    requires Shape(s) && t < |s.th| && Shape(Move(s, t, T')) && NextPass(s, T', w)
    ensures WatchOk(Move(s, t, T'), T', w)
  {
    if InPass(T') { MovePassed(s, t, T', w.target); }
  }

  lemma LinkWatch(s: State, t: nat, item: int, w: Watch)
    requires Links(s, t) && WatchOk(s, s.th[t], w)
    ensures Watches(s, t, item, w)
  {
    StepInv(s, t, item);
    assert Step(s, t, item) == DoLink(s, t);
  }

  lemma SettleWatch(s: State, t: nat, item: int, w: Watch)
    requires Settles(s, t) && History(s) && WatchOk(s, s.th[t], w)
    ensures Watches(s, t, item, w)
  {
    StepInv(s, t, item);
    assert Step(s, t, item) == DoState(s, t);
    if s.th[t].ret == ToLoop { SettledWatch(s, DoState(s, t), s.th[t], w); }
  }

  lemma SettledWatch(s: State, z: State, T: Thread, w: Watch)
    requires Shape(s) && Shape(z) && z.nodes == s.nodes && z.order == s.order && z.tail == s.tail && |z.th| == |s.th|
    requires T.pc == FinState && T.ret == ToLoop && WatchOk(s, T, w)
    ensures WatchOk(z, T.(pc := FinMove), w)
  {
    assert Passed(z, w.target) <==> Passed(s, w.target);
  }

  lemma SwingWatch(s: State, t: nat, item: int, w: Watch)
    requires Swings(s, t) && History(s) && WatchOk(s, s.th[t], w)
    ensures Watches(s, t, item, w)
  {
    StepInv(s, t, item);
    assert Step(s, t, item) == DoTail(s, t);
    if s.th[t].ret == ToLoop { assert DoTail(s, t).th[t].pc == Pend1 && Progress(DoTail(s, t)) == Progress(s) + 1; } else { ReturnOutside(s.th[t], |s.th|); }
  }

  lemma PassWatch(s: State, t: nat, item: int, w: Watch)
    requires Inv(s) && History(s) && t < |s.th| && InPass(s.th[t]) && WatchOk(s, s.th[t], w)
    ensures Watches(s, t, item, w)
  {
    assert LocalShape(s, s.th[t]);
    if Links(s, t) { LinkWatch(s, t, item, w); }
    else if Settles(s, t) { SettleWatch(s, t, item, w); }
    else if Swings(s, t) { SwingWatch(s, t, item, w); }
    else {
      StepInv(s, t, item);
      LocalPass(s, t, item, w);
      NextWatch(s, t, LocalStep(s, t, item), Watched(s, t, w));
    }
  }

  /** Outside the loop nothing is watched, and a loop is entered through `Help`. */
  lemma OutsideWatch(s: State, t: nat, item: int, w: Watch)
    requires Inv(s) && t < |s.th| && !InPass(s.th[t]) && !Seeks(s.th[t].pc)
    ensures Watches(s, t, item, w)
  {
    StepInv(s, t, item);
    if BeforePublish(s.th[t].pc) { OutsideEarly(s, t, item); } else { OutsideLate(s, t, item); }
  }

  lemma OutsideEarly(s: State, t: nat, item: int)
    requires Shape(s) && t < |s.th| && BeforePublish(s.th[t].pc)
    ensures var T' := Step(s, t, item).th[t]; T'.pc != Pend1 && !InPass(T')
  {
    if s.th[t].pc != Publish {
      CallLocals(s, t, item);
      assert Step(s, t, item) == Move(s, t, CallStep(s, t, item));
    }
  }

  lemma OutsideLate(s: State, t: nat, item: int)
    requires Shape(s) && t < |s.th| && InFinish(s.th[t].pc) && s.th[t].ret != ToLoop
    ensures var T' := Step(s, t, item).th[t]; T'.pc != Pend1 && !InPass(T')
  {
    var T := s.th[t];
    assert LocalShape(s, T);
    ReturnOutside(T, |s.th|);
    FinishOutside(s, t);
    FinishThread(s, t, item);
  }

  /** What a step of `help_finish_enqueue` leaves of the thread. */
  lemma FinishThread(s: State, t: nat, item: int)
    requires Shape(s) && t < |s.th| && InFinish(s.th[t].pc) && LocalShape(s, s.th[t])
    ensures var T, T' := s.th[t], Step(s, t, item).th[t];
            (T.pc == FinState && T' == T.(pc := FinMove)) || (T.pc == FinMove && T' == FinReturn(T, |s.th|)) || T' == FinishStep(s, t)
  {
    assert LocalStep(s, t, item) == FinishStep(s, t);
  }

  lemma ReturnOutside(T: Thread, n: nat)
    requires T.ret != ToLoop
    ensures FinReturn(T, n).pc != Pend1 && !InPass(FinReturn(T, n))
  {
  }

  lemma FinishOutside(s: State, t: nat)
    requires Shape(s) && t < |s.th| && InFinish(s.th[t].pc) && s.th[t].ret != ToLoop
    ensures FinishStep(s, t).pc != Pend1 && !InPass(FinishStep(s, t))
  {
    var T := s.th[t];
    assert LocalShape(s, T);
    ReturnOutside(T, |s.th|);
    if T.pc == FinNext { ReturnOutside(T.(next := s.nodes[T.tail.ptr].next), |s.th|); }
  }

  lemma OwnWatch(s: State, t: nat, item: int, w: Watch)
    requires Inv(s) && History(s) && t < |s.th| && WatchOk(s, s.th[t], w)
    requires forall n: nat, k: nat {:trigger Bounded(s, n, k)} :: Bounded(s, n, k)
    ensures Watches(s, t, item, w)
  {
    var T := s.th[t];
    assert LocalShape(s, T);
    if InPass(T) { PassWatch(s, t, item, w); }
    else if T.pc == Pend1 && DescOf(s, T.i).pending { PassBegins(s, t, item, w); }
    else if T.pc == Help || T.pc == Pend1 { PassSkipped(s, t, item, w); }
    else { OutsideWatch(s, t, item, w); }
  }

  // ---------------------------------------------------------------- every run

  /** Watching thread t through a run. */
  ghost function WatchOf(s: State, run: seq<Sched>, t: nat): Watch {
    if run == [] then Watch(NULL, 0, 0, 0, 0)
    else
      var p, x, w := Exec(s, run[..|run| - 1]), run[|run| - 1], WatchOf(s, run[..|run| - 1], t);
      if x.tid == t && Shape(p) && t < |p.th| then Watched(p, t, w) else w
  }

  lemma {:induction false} RunWatch(s: State, run: seq<Sched>, t: nat)
    requires Init(s) && t < |s.th|
    ensures var z := Exec(s, run); Inv(z) && |z.th| == |s.th| && WatchOk(z, z.th[t], WatchOf(s, run, t))
    decreases |run|
  {
    RunCalls(s, run);
    if run != [] {
      var p, x := run[..|run| - 1], run[|run| - 1];
      RunWatch(s, p, t);
      RunCalls(s, p);
      if x.tid < |s.th| {
        var y, w := Exec(s, p), WatchOf(s, p, t);
        if x.tid == t { OwnWatch(y, t, x.item, w); } else { OtherKept(y, x.tid, x.item, t, w); }
      }
    }
  }

  lemma OtherKept(s: State, t: nat, item: int, u: nat, w: Watch)
    requires Inv(s) && History(s) && t < |s.th| && u < |s.th| && u != t && WatchOk(s, s.th[u], w)
    ensures var s' := Step(s, t, item); Shape(s') && u < |s'.th| && WatchOk(s', s'.th[u], w)
  {
    OtherWatch(s, t, item, s.th[u], w);
    StepFrame(s, t, item);
  }

  /**
   * Bounded helping, in every run: a thread tries for one and the same enqueue at most 6 * threads + 4 times, however the
   * others run, before that enqueue is done.
   */
  lemma BoundedPasses(s: State, run: seq<Sched>, t: nat)
    requires Init(s) && t < |s.th|
    ensures var z, w := Exec(s, run), WatchOf(s, run, t);
            t < |z.th| && (InPass(z.th[t]) ==> w.passes <= 6 * |s.th| + 4)
  {
    RunWatch(s, run, t);
  }
}
