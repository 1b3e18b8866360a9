/** What every run of MMDeque.hpp promises over longer stretches: honest empty answers, and reservations that last. */
module MMRuns {
  import opened DequeSpec
  import opened MMMachine
  import opened MMInv
  import opened MMSteps
  import opened MMOwn
  import opened MMDeque

  // ---------------------------------------------------------------- empty answers

  ghost predicate Popping(s: State, t: nat) { t < |s.th| && s.th[t].pc != Idle && s.th[t].op.Pop? }

  /** Thread t has been in one call, a pop, at all instants from `from` on. */
  ghost predicate InCall(s: State, run: seq<Sched>, t: nat, from: nat) {
    from <= |run| && forall k {:trigger run[..k]} :: from <= k <= |run| ==> Popping(Exec(s, run[..k]), t)
  }

  lemma PopReturns(s: State, T: Thread, t: nat, a: Act)
    requires PopStep(s, T, t, a).T.pc == Return(None) && T.pc in {ReadPop, CasLast, PopReserve0, PopReserve1, PopCheck, PopPrev, CasPop, TakeData}
    ensures T.pc == ReadPop && End(s.anchor, T.op.side) == NULL
  {
  }

  lemma StabReturns(s: State, T: Thread, t: nat, a: Act)
    requires T.pc.Stab? && StabStep(s, T, t, a).T.pc == Return(None)
    ensures T.pc.back == ToReturn(None) && StabStep(s, T, t, a).T.op == T.op
  {
  }

  lemma ScanReturns(s: State, T: Thread, t: nat)
    ensures T.pc.Scan? ==> !ScanStep(s, T, t).T.pc.Return?
    ensures T.pc.Retire? ==> !RetireStep(s, T, t).T.pc.Return?
  {
  }

  lemma PushReturns(s: State, T: Thread, t: nat, a: Act)
    ensures PushStep(s, T, t, a).T.op == T.op
  {
  }

  lemma EmptyStep(s: State, t: nat, a: Act)
    requires Inv(s) && CanStep(s, t, a) && Step(s, t, a).th[t].pc == Return(None) && Step(s, t, a).th[t].op.Pop?
    ensures s.th[t].pc == ReadPop && Abs(s) == []
  {
    var T := s.th[t];
    assert ThreadAt(s, t);
    match T.pc
    case Alloc | ReadPush | CasFirst | InitLink | CasPush => PushReturns(s, T, t, a);
    case ReadPop | CasLast | PopReserve0 | PopReserve1 | PopCheck | PopPrev | CasPop | TakeData => PopReturns(s, T, t, a);
    case Retire | Scan(_, _) => ScanReturns(s, T, t);
    case Clear(_, _) =>
    case Idle | Return(_) =>
    case Stab(_, _) => StabReturns(s, T, t, a);
  }

  lemma InCallNow(s: State, run: seq<Sched>, t: nat)
    requires Popping(Exec(s, run), t)
    ensures InCall(s, run, t, |run|)
  {
    forall k {:trigger run[..k]} | |run| <= k <= |run| ensures Popping(Exec(s, run[..k]), t) { assert run[..k] == run; }
  }

  lemma InCallMore(s: State, run: seq<Sched>, t: nat, from: nat)
    requires run != [] && InCall(s, run[..|run| - 1], t, from)
    requires Popping(Exec(s, run), t)
    ensures InCall(s, run, t, from)
  {
    var r := run[..|run| - 1];
    forall k {:trigger run[..k]} | from <= k <= |run| ensures Popping(Exec(s, run[..k]), t) {
      if k == |run| { assert run[..k] == run; } else { assert run[..k] == r[..k]; }
    }
  }

  lemma EmptyNow(s: State, run: seq<Sched>, t: nat)
    requires Init(s) && Run(s, run) && run != [] && run[|run| - 1].tid == t < |Exec(s, run).th|
    requires Exec(s, run).th[t].op.Pop? && Exec(s, run).th[t].pc == Return(None)
    ensures InCall(s, run[..|run| - 1], t, |run| - 1) && Abs(Exec(s, run[..|run| - 1])) == []
  {
    var r := run[..|run| - 1];
    RunInv(s, r);
    EmptyStep(Exec(s, r), t, run[|run| - 1].act);
    InCallNow(s, r, t);
  }

  /** Honest empty: a pop answers empty only if the deque was empty at an instant of the run since which the thread has been in that call. */
  lemma {:induction false} HonestEmpty(s: State, run: seq<Sched>, t: nat) returns (k: nat)
    requires Init(s) && Run(s, run) && t < |Exec(s, run).th|
    requires Exec(s, run).th[t].op.Pop? && Exec(s, run).th[t].pc == Return(None)
    ensures InCall(s, run, t, k) && Abs(Exec(s, run[..k])) == []
    decreases |run|
  {
    var r, x := run[..|run| - 1], run[|run| - 1];
    RunInv(s, r);
    var z := Exec(s, r);
    if x.tid == t {
      EmptyNow(s, run, t);
      k := |r|;
    } else {
      StepOthers(z, x.tid, x.act);
      k := HonestEmpty(s, r, t);
      assert run[..k] == r[..k];
    }
    InCallMore(s, run, t, k);
  }

  lemma StepOthers(s: State, t: nat, a: Act)
    requires t < |s.th|
    ensures |Step(s, t, a).th| == |s.th| && forall u :: 0 <= u < |s.th| && u != t ==> Step(s, t, a).th[u] == s.th[u]
  {
    StepFrame(s, t, a);
  }

  // ---------------------------------------------------------------- reservations

  /** Its own steps, too, as long as they leave the slot. */
  lemma OwnReserved(s: State, t: nat, a: Act, j: nat, n: int)
    requires Inv(s) && CanStep(s, t, a) && Held(s, t, j, n) && Slot(Step(s, t, a), SLOTS * t + j) == n
    ensures Held(Step(s, t, a), t, j, n)
  {
    var s' := Step(s, t, a);
    assert ThreadAt(s, t);
    StepGood(s, t, a);
    OwnInUse(s, t, a, j, n);
    forall u: nat | Scanning(s', u, n) ensures s'.th[u].pc.k <= SLOTS * t + j {
      if u == t { OwnScan(s, t, a, j, n); } else { OtherScan(s, t, a, u, n); }
    }
  }

  /** No retired list but the own one changes, and no node goes back to the pool. */
  ghost predicate Keeps(s: State, s': State, t: nat) {
    && |s'.retired| == |s.retired| && (forall u :: 0 <= u < |s.retired| && u != t ==> s'.retired[u] == s.retired[u])
    && forall n {:trigger OwnerOf(s', n)} :: OwnerOf(s', n) == Free ==> OwnerOf(s, n) == Free
  }

  lemma PushKeeps(s: State, T: Thread, t: nat, a: Act)
    ensures Keeps(s, PushStep(s, T, t, a).s, t)
  {
  }

  lemma PopsKeeps(s: State, T: Thread, t: nat, b: Anchor)
    ensures Keeps(s, Pops(s, T, t, b), t)
  {
  }

  lemma SetSlotKeeps(s: State, i: int, n: int, t: nat)
    ensures Keeps(s, SetSlot(s, i, n), t)
  {
  }

  lemma PopKeeps(s: State, T: Thread, t: nat, a: Act)
    ensures Keeps(s, PopStep(s, T, t, a).s, t)
  {
    match T.pc
    case CasLast => PopsKeeps(s, T, t, Anchor(NULL, NULL, T.a.status));
    case CasPop => PopsKeeps(s, T, t, SetEnd(T.a, T.op.side, T.prev, T.a.status));
    case PopReserve0 => SetSlotKeeps(s, SLOTS * t, T.a.left, t);
    case PopReserve1 => SetSlotKeeps(s, SLOTS * t + 1, T.a.right, t);
    case _ =>
  }

  lemma StabKeeps(s: State, T: Thread, t: nat, a: Act)
    ensures Keeps(s, StabStep(s, T, t, a).s, t)
  {
    if T.pc.Stab? { StabCases(s, T, t, a); }
    SetSlotKeeps(s, SLOTS * t, T.a.left, t);
    SetSlotKeeps(s, SLOTS * t + 1, T.a.right, t);
    SetSlotKeeps(s, SLOTS * t + 2, T.prev, t);
  }

  lemma RetireKeeps(s: State, T: Thread, t: nat)
    ensures Keeps(s, RetireStep(s, T, t).s, t)
  {
  }

  /** Only the end of a scan frees a retired node. */
  lemma ScanFrees(s: State, T: Thread, t: nat, n: int)
    ensures var s' := ScanStep(s, T, t).s;
            && |s'.retired| == |s.retired| && (forall u :: 0 <= u < |s.retired| && u != t ==> s'.retired[u] == s.retired[u])
            && (OwnerOf(s', n) == Free && OwnerOf(s, n) != Free ==>
                  T.pc.Scan? && t < |s.retired| && T.pc.i < |s.retired[t]| && s.retired[t][T.pc.i] == n && T.pc.k >= |s.hz|)
  {
  }

  /** What a step may do to the retired lists and to node n. */
  ghost predicate Frees(s: State, s': State, t: nat, n: int) {
    && t < |s.th| && |s'.retired| == |s.retired| && (forall u :: 0 <= u < |s.retired| && u != t ==> s'.retired[u] == s.retired[u])
    && (OwnerOf(s', n) == Free && OwnerOf(s, n) != Free ==>
          s.th[t].pc.Scan? && t < |s.retired| && s.th[t].pc.i < |s.retired[t]| && s.retired[t][s.th[t].pc.i] == n && s.th[t].pc.k >= |s.hz|)
  }

  lemma FreedPush(s: State, t: nat, a: Act, n: int)
    requires t < |s.th| && s.th[t].pc in {Alloc, ReadPush, CasFirst, InitLink, CasPush}
    ensures Frees(s, Step(s, t, a), t, n)
  {
    PushKeeps(s, s.th[t], t, a);
    assert Micro(s, t, a) == PushStep(s, s.th[t], t, a);
  }

  lemma FreedPop(s: State, t: nat, a: Act, n: int)
    requires t < |s.th| && s.th[t].pc in {ReadPop, CasLast, PopReserve0, PopReserve1, PopCheck, PopPrev, CasPop, TakeData}
    ensures Frees(s, Step(s, t, a), t, n)
  {
    PopKeeps(s, s.th[t], t, a);
    assert Micro(s, t, a) == PopStep(s, s.th[t], t, a);
  }

  lemma FreedStab(s: State, t: nat, a: Act, n: int)
    requires t < |s.th| && s.th[t].pc.Stab?
    ensures Frees(s, Step(s, t, a), t, n)
  {
    StabKeeps(s, s.th[t], t, a);
    assert Micro(s, t, a) == StabStep(s, s.th[t], t, a);
  }

  lemma FreedRetire(s: State, t: nat, a: Act, n: int)
    requires t < |s.th| && s.th[t].pc.Retire?
    ensures Frees(s, Step(s, t, a), t, n)
  {
    RetireKeeps(s, s.th[t], t);
    assert Micro(s, t, a) == RetireStep(s, s.th[t], t);
  }

  lemma FreedScan(s: State, t: nat, a: Act, n: int)
    requires t < |s.th| && s.th[t].pc.Scan?
    ensures Frees(s, Step(s, t, a), t, n)
  {
    ScanFrees(s, s.th[t], t, n);
    assert Micro(s, t, a) == ScanStep(s, s.th[t], t);
  }

  lemma FreedRest(s: State, t: nat, a: Act, n: int)
    requires t < |s.th| && (s.th[t].pc.Clear? || s.th[t].pc.Idle? || s.th[t].pc.Return?)
    ensures Frees(s, Step(s, t, a), t, n)
  {
    assert Step(s, t, a) == s.(hz := Step(s, t, a).hz, calls := Step(s, t, a).calls, th := Step(s, t, a).th);
  }

  lemma Freed(s: State, t: nat, a: Act, n: int)
    requires t < |s.th|
    ensures Frees(s, Step(s, t, a), t, n)
  {
    match s.th[t].pc
    case Alloc | ReadPush | CasFirst | InitLink | CasPush => FreedPush(s, t, a, n);
    case ReadPop | CasLast | PopReserve0 | PopReserve1 | PopCheck | PopPrev | CasPop | TakeData => FreedPop(s, t, a, n);
    case Retire => FreedRetire(s, t, a, n);
    case Scan(_, _) => FreedScan(s, t, a, n);
    case Clear(_, _) | Idle | Return(_) => FreedRest(s, t, a, n);
    case Stab(_, _) => FreedStab(s, t, a, n);
  }

  lemma OtherScan(s: State, t: nat, a: Act, u: nat, n: int)
    requires Ready(s, t, a) && Good(s, t, a) && u != t && Scanning(Step(s, t, a), u, n)
    ensures Scanning(s, u, n) && Step(s, t, a).th[u] == s.th[u]
  {
    Freed(s, t, a, n);
  }

  /** Only `retire` begins a scan, with the first reservation. */
  lemma ScanBegins(s: State, t: nat, a: Act)
    requires t < |s.th| && !s.th[t].pc.Scan? && Step(s, t, a).th[t].pc.Scan?
    ensures Step(s, t, a).th[t].pc.k == 0
  {
  }

  /** A scan that has come to the slot finds the node in it and passes on. */
  lemma OwnScan(s: State, t: nat, a: Act, j: nat, n: int)
    requires Ready(s, t, a) && Held(s, t, j, n) && Scanning(Step(s, t, a), t, n)
    ensures Step(s, t, a).th[t].pc.k <= SLOTS * t + j
  {
    if !s.th[t].pc.Scan? {
      ScanBegins(s, t, a);
    } else if Step(s, t, a).th[t].pc.k != 0 {
      assert Micro(s, t, a) == ScanStep(s, s.th[t], t);
      assert Scanning(s, t, n);
    }
  }

  lemma OwnInUse(s: State, t: nat, a: Act, j: nat, n: int)
    requires Ready(s, t, a) && Good(s, t, a) && Held(s, t, j, n)
    ensures InUse(OwnerOf(Step(s, t, a), n))
  {
    assert OwnerEvolves(s, Step(s, t, a), t, n);
    Freed(s, t, a, n);
    assert OwnerOf(Step(s, t, a), n) == Free ==> Scanning(s, t, n);
  }

  /** Thread u is about to find that the anchor is still the one it read, and so to validate its reservation j of node n. */
  ghost predicate Validates(s: State, u: nat, j: nat, n: int) {
    u < |s.th| && s.anchor == s.th[u].a && var T := s.th[u];
    || ((T.pc == PopCheck || T.pc.AtStab(2)) && ((j == 0 && n == T.a.left) || (j == 1 && n == T.a.right)))
    || (T.pc.AtStab(5) && j == 2 && n == T.prev)
  }

  lemma Validated(s: State, u: nat, a: Act, j: nat, n: int)
    requires Inv(s) && CanStep(s, u, a) && Validates(s, u, j, n)
    ensures Lasts(Step(s, u, a), u, j, n)
  {
    StepInv(s, u, a);
    assert ThreadAt(Step(s, u, a), u);
  }

  /** The reservation holds its node, which is not in the pool. */
  ghost predicate Lasts(s: State, u: nat, j: nat, n: int) { Inv(s) && Held(s, u, j, n) && OwnerOf(s, n) != Free }

  lemma StillReserved(s: State, t: nat, a: Act, u: nat, j: nat, n: int)
    requires Lasts(s, u, j, n) && CanStep(s, t, a) && Slot(Step(s, t, a), SLOTS * u + j) == n
    ensures Lasts(Step(s, t, a), u, j, n)
  {
    StepInv(s, t, a);
    if t == u { OwnReserved(s, u, a, j, n); } else { ReservedNotFreed(s, t, a, u, j, n); }
  }

  /**
   * Hazard safety: from the step that validates a reservation until the slot is overwritten or cleared, its node is never
   * back in the pool, whatever all threads do.
   */
  lemma {:induction false} ReservedUntilCleared(s: State, rest: seq<Sched>, u: nat, j: nat, n: int)
    requires Inv(s) && Run(s, rest) && rest != [] && rest[0].tid == u && Validates(s, u, j, n)
    requires forall k :: 1 <= k <= |rest| ==> Slot(Exec(s, rest[..k]), SLOTS * u + j) == n
    ensures Lasts(Exec(s, rest), u, j, n)
    decreases |rest|
  {
    var r, x := rest[..|rest| - 1], rest[|rest| - 1];
    assert rest[..|rest|] == rest;
    if r == [] {
      Validated(s, u, x.act, j, n);
    } else {
      forall k | 1 <= k <= |r| ensures Slot(Exec(s, r[..k]), SLOTS * u + j) == n { assert r[..k] == rest[..k]; }
      ReservedUntilCleared(s, r, u, j, n);
      StillReserved(Exec(s, r), x.tid, x.act, u, j, n);
    }
  }

  // ---------------------------------------------------------------- slots are cleared

  ghost predicate Cleared(s: State, t: nat, n: nat) {
    && (n > 0 ==> Slot(s, SLOTS * t) == NULL)
    && (n > 1 ==> Slot(s, SLOTS * t + 1) == NULL)
    && (n > 2 ==> Slot(s, SLOTS * t + 2) == NULL)
  }

  /** The slots are cleared one by one, and before a pop answers with a value; only a push stabilises before it returns. */
  ghost predicate ClearOk(s: State, t: nat) {
    t < |s.th| ==>
      match s.th[t].pc
      case Clear(j, _) => Cleared(s, t, j)
      case Return(v) => v.Some? ==> Cleared(s, t, SLOTS)
      case Stab(_, r) => r.ToReturn? ==> r.result == None
      case _ => true
  }

  lemma PushClear(s: State, T: Thread, t: nat, a: Act)
    requires T.pc in {Alloc, ReadPush, CasFirst, InitLink, CasPush}
    ensures var p := PushStep(s, T, t, a).T.pc; !p.Clear? && (p.Return? ==> p.result == None) && (p.Stab? && p.back.ToReturn? ==> p.back.result == None)
  {
  }

  lemma PopClear(s: State, T: Thread, t: nat, a: Act)
    requires T.pc in {ReadPop, CasLast, PopReserve0, PopReserve1, PopCheck, PopPrev, CasPop, TakeData}
    ensures var p := PopStep(s, T, t, a).T.pc; !p.Clear? && (p.Return? ==> p.result == None) && (p.Stab? ==> !p.back.ToReturn?)
  {
  }

  lemma ScanClear(s: State, T: Thread, t: nat)
    ensures T.pc == Retire ==> var p := RetireStep(s, T, t).T.pc; !p.Return? && !p.Stab? && (p.Clear? ==> p.j == 0)
    ensures T.pc.Scan? ==> var p := ScanStep(s, T, t).T.pc; !p.Return? && !p.Stab? && (p.Clear? ==> p.j == 0)
  {
  }

  lemma StabClear(s: State, T: Thread, t: nat, a: Act)
    requires T.pc.Stab? && (T.pc.back.ToReturn? ==> T.pc.back.result == None)
    ensures var p := StabStep(s, T, t, a).T.pc; (p.Clear? ==> p.j == 0) && (p.Return? ==> p.result == None) && (p.Stab? ==> p.back == T.pc.back)
  {
  }

  lemma ClearingStep(s: State, t: nat, a: Act)
    requires t < |s.th| && s.th[t].pc.Clear? && ClearOk(s, t) && SLOTS * t + SLOTS <= |s.hz|
    ensures ClearOk(Step(s, t, a), t)
  {
  }

  lemma OwnCleared(s: State, t: nat, a: Act)
    requires Inv(s) && CanStep(s, t, a) && ClearOk(s, t)
    ensures ClearOk(Step(s, t, a), t)
  {
    var T := s.th[t];
    match T.pc
    case Alloc | ReadPush | CasFirst | InitLink | CasPush => PushClear(s, T, t, a);
    case ReadPop | CasLast | PopReserve0 | PopReserve1 | PopCheck | PopPrev | CasPop | TakeData => PopClear(s, T, t, a);
    case Retire | Scan(_, _) => ScanClear(s, T, t);
    case Clear(_, _) => ClearingStep(s, t, a);
    case Idle | Return(_) =>
    case Stab(_, _) => StabClear(s, T, t, a);
  }

  lemma OtherCleared(s: State, t: nat, a: Act, u: nat)
    requires Inv(s) && CanStep(s, t, a) && u < |s.th| && u != t && ClearOk(s, u)
    ensures ClearOk(Step(s, t, a), u)
  {
    assert ThreadAt(s, t);
    StepGood(s, t, a);
    var s' := Step(s, t, a);
    assert Slot(s', SLOTS * u) == Slot(s, SLOTS * u) && Slot(s', SLOTS * u + 1) == Slot(s, SLOTS * u + 1) && Slot(s', SLOTS * u + 2) == Slot(s, SLOTS * u + 2);
  }

  lemma {:induction false} RunCleared(s: State, run: seq<Sched>, t: nat)
    requires Init(s) && Run(s, run)
    ensures ClearOk(Exec(s, run), t)
    decreases |run|
  {
    if run != [] {
      var r, x := run[..|run| - 1], run[|run| - 1];
      RunCleared(s, r, t);
      RunInv(s, r);
      if x.tid == t { OwnCleared(Exec(s, r), t, x.act); } else if t < |Exec(s, r).th| { OtherCleared(Exec(s, r), x.tid, x.act, t); }
    }
  }

  lemma ClearedAt(z: State, t: nat, j: nat)
    requires t < |z.th| && j < SLOTS && ClearOk(z, t) && z.th[t].pc.Return? && z.th[t].pc.result.Some?
    ensures Slot(z, SLOTS * t + j) == NULL
  {
    assert j == 0 || j == 1 || j == 2;
  }

  /** In every run: when a pop answers with a value, its thread has no reservation left. */
  lemma SlotsCleared(s: State, run: seq<Sched>, t: nat, j: nat)
    requires Init(s) && Run(s, run) && t < |Exec(s, run).th| && j < SLOTS
    requires var p := Exec(s, run).th[t].pc; p.Return? && p.result.Some?
    ensures Slot(Exec(s, run), SLOTS * t + j) == NULL
  {
    RunCleared(s, run, t);
    ClearedAt(Exec(s, run), t, j);
  }
}
