/** Obstruction-freedom of MMDeque.hpp: a thread that runs alone, with no spurious failure, ends its call within a bounded number of steps. */
module MMAlone {
  import opened DequeSpec
  import opened MMMachine
  import opened MMInv
  import opened MMSteps
  import opened MMDeque
  import Tracker = HazardTracker

  // ---------------------------------------------------------------- how far it is to the end of a call

  function Times(n: nat, w: nat): nat { if n == 0 then 0 else Times(n - 1, w) + w }

  /** The steps of `empty` from position i, of a list of l blocks and h reservations, to the return. */
  function ScanCost(l: nat, h: nat, i: nat, k: nat): nat {
    if i >= l then 6 else Times(l - i - 1, h + 2) + (if k <= h then h - k else 0) + 8
  }

  /** The steps from `TakeData` to the return. */
  function PopDone(l: nat, h: nat): nat { Times(l + 1, h + 2) + 8 }

  predicate Settled(a: Anchor, S: Side) { a.status == Stable || End(a, S) == NULL || a.left == a.right }

  /** From `ReadPush` or `ReadPop`: an anchor that is not settled takes one call of `stabilize` more. */
  function PushCost(a: Anchor, S: Side): nat { if a.status == Stable || End(a, S) == NULL then 18 else 33 }
  function PopCost(a: Anchor, S: Side, done: nat): nat { if Settled(a, S) then done + 6 else done + 21 }

  /** The snapshots of the stabiliser are current, so that it will settle the anchor. */
  ghost predicate Current(s: State, T: Thread, k: nat) {
    s.anchor == T.a && (k == 7 || k == 8 ==> Link(s, T.prev, StabSide(T)) == T.seen)
  }

  /** The steps from where `stabilize` or the clearing of the slots returns to. */
  function Resumption(r: Resume, a: Anchor, S: Side, done: nat): nat {
    match r
    case ToPush => PushCost(a, S)
    case ToPop => PopCost(a, S, done)
    case ToReturn(_) => 1
  }

  function Left(k: nat): nat { if k < 10 then 10 - k else 1 }

  function ClearLeft(j: nat): nat { if j < SLOTS then SLOTS - j + 1 else 1 }

  ghost function Rank(s: State, t: nat): nat
    requires t < |s.th| && t < |s.retired|
  {
    var T := s.th[t];
    var S := T.op.side;
    var cur := s.anchor == T.a;
    var done := PopDone(|s.retired[t]|, |s.hz|);
    match T.pc
    case Idle => 0
    case Alloc => 34
    case ReadPush => PushCost(s.anchor, S)
    case CasFirst => if cur then 2 else 34
    case InitLink => if cur then 17 else 35
    case CasPush => if cur then 16 else 34
    case ReadPop => PopCost(s.anchor, S, done)
    case CasLast => if cur then done + 1 else done + 22
    case PopReserve0 => done + (if cur then 5 else 26)
    case PopReserve1 => done + (if cur then 4 else 25)
    case PopCheck => done + (if cur then 3 else 24)
    case PopPrev => done + (if cur then 2 else 23)
    case CasPop => done + (if cur then 1 else 22)
    case TakeData => done
    case Retire => done - 1
    case Scan(i, k) => ScanCost(|s.retired[t]|, |s.hz|, i, k)
    case Clear(j, r) => ClearLeft(j) + Resumption(r, s.anchor, S, done)
    case Stab(k, r) =>
      if Current(s, T, k) then Left(k) + 4 + Resumption(r, T.a.(status := Stable), S, done)
      else Left(k) + 4 + (if r.ToPush? then 33 else if r.ToPop? then done + 21 else 1)
    case Return(_) => 1
  }

  // ---------------------------------------------------------------- every step

  lemma PushFalls(s: State, t: nat, a: Act)
    requires t < |s.th| && t < |s.retired| && a != Go(true)
    requires s.th[t].pc in {Alloc, ReadPush, CasFirst, InitLink, CasPush} && Enabled(s, t, a)
    ensures var o := PushStep(s, s.th[t], t, a); t < |o.s.retired| && o.s.th == s.th && Rank(o.s.(th := s.th[t := o.T]), t) < Rank(s, t)
  {
  }

  lemma PopFalls(s: State, t: nat, a: Act)
    requires t < |s.th| && t < |s.retired| && a != Go(true)
    requires s.th[t].pc in {ReadPop, CasLast, PopReserve0, PopReserve1, PopCheck, PopPrev, CasPop, TakeData} && Enabled(s, t, a)
    ensures var o := PopStep(s, s.th[t], t, a); t < |o.s.retired| && o.s.th == s.th && Rank(o.s.(th := s.th[t := o.T]), t) < Rank(s, t)
  {
    if s.th[t].pc == ReadPop { ReadPopFalls(s, t, a); }
    else if s.th[t].pc == CasLast || s.th[t].pc == CasPop { CasFalls(s, t, a); }
  }

  lemma ReadPopFalls(s: State, t: nat, a: Act)
    requires t < |s.th| && t < |s.retired| && s.th[t].pc == ReadPop
    ensures var o := PopStep(s, s.th[t], t, a); o.s == s && Rank(s.(th := s.th[t := o.T]), t) < Rank(s, t)
  {
  }

  lemma CasFalls(s: State, t: nat, a: Act)
    requires t < |s.th| && t < |s.retired| && a == Go(false) && (s.th[t].pc == CasLast || s.th[t].pc == CasPop)
    ensures var o := PopStep(s, s.th[t], t, a); t < |o.s.retired| && o.s.th == s.th && Rank(o.s.(th := s.th[t := o.T]), t) < Rank(s, t)
  {
  }

  lemma RetireFalls(s: State, t: nat)
    requires t < |s.th| && t < |s.retired| && t < |s.count| && s.th[t].pc == Retire
    ensures var o := RetireStep(s, s.th[t], t); t < |o.s.retired| && o.s.th == s.th && Rank(o.s.(th := s.th[t := o.T]), t) < Rank(s, t)
  {
  }

  lemma ScanFalls(s: State, t: nat)
    requires t < |s.th| && t < |s.retired| && t < |s.count| && s.th[t].pc.Scan?
    ensures var o := ScanStep(s, s.th[t], t); t < |o.s.retired| && o.s.th == s.th && Rank(o.s.(th := s.th[t := o.T]), t) < Rank(s, t)
  {
    if s.th[t].pc.i < |s.retired[t]| { CostFalls(|s.retired[t]|, |s.hz|, s.th[t].pc.i, s.th[t].pc.k); }
  }

  lemma CostFalls(l: nat, h: nat, i: nat, k: nat)
    requires i < l
    ensures k < h ==> ScanCost(l, h, i, k + 1) < ScanCost(l, h, i, k)
    ensures ScanCost(l, h, i + 1, 0) < ScanCost(l, h, i, k) && ScanCost(l - 1, h, i + 1, 0) < ScanCost(l, h, i, k)
  {
    if i + 1 < l {
      assert Times(l - i - 1, h + 2) == Times(l - i - 2, h + 2) + h + 2;
      if i + 2 < l { assert Times(l - i - 2, h + 2) == Times(l - i - 3, h + 2) + h + 2; }
    }
  }

  // The stages of `stabilize`, one step at a time.

  ghost predicate Falls(s: State, t: nat, o: Out) {
    t < |s.th| && t < |s.retired| && t < |o.s.retired| && o.s.th == s.th && Rank(o.s.(th := s.th[t := o.T]), t) < Rank(s, t)
  }

  lemma StabOn(s: State, t: nat, s': State, T': Thread)
    requires t < |s.th| && t < |s.retired| && s.th[t].pc.Stab? && s.th[t].pc.stage < 9
    requires s'.anchor == s.anchor && s'.retired == s.retired && |s'.hz| == |s.hz| && s'.th == s.th
    requires var T := s.th[t]; T'.op == T.op && T'.a == T.a && T'.pc.Stab? && T'.pc.back == T.pc.back && T.pc.stage < T'.pc.stage < 10
    requires Current(s, s.th[t], s.th[t].pc.stage) ==> Current(s', T', T'.pc.stage)
    ensures Falls(s, t, Out(s', T'))
  {
  }

  lemma StabOff(s: State, t: nat)
    requires t < |s.th| && t < |s.retired| && s.th[t].pc.Stab? && !Current(s, s.th[t], s.th[t].pc.stage)
    ensures var T := s.th[t]; Falls(s, t, Out(s, T.(pc := Resumed(T.pc.back))))
  {
  }

  lemma StabSlots(s: State, t: nat, a: Act)
    requires t < |s.th| && t < |s.retired| && s.th[t].pc.Stab? && s.th[t].pc.stage in {0, 1, 3, 4}
    ensures Falls(s, t, StabStep(s, s.th[t], t, a))
  {
    var o := StabStep(s, s.th[t], t, a);
    StabOn(s, t, o.s, o.T);
  }

  lemma StabChecks(s: State, t: nat, a: Act)
    requires t < |s.th| && t < |s.retired| && s.th[t].pc.Stab? && s.th[t].pc.stage in {2, 5, 6, 7}
    ensures Falls(s, t, StabStep(s, s.th[t], t, a))
  {
    var o := StabStep(s, s.th[t], t, a);
    if o.T.pc.Stab? { StabOn(s, t, o.s, o.T); } else { StabOff(s, t); }
  }

  lemma StabMends(s: State, t: nat, a: Act)
    requires t < |s.th| && t < |s.retired| && s.th[t].pc.Stab? && s.th[t].pc.stage == 8
    ensures Falls(s, t, StabStep(s, s.th[t], t, a))
  {
    var o := StabStep(s, s.th[t], t, a);
    if o.T.pc.Stab? { StabOn(s, t, o.s, o.T); } else { StabOff(s, t); }
  }

  lemma StabSettles(s: State, t: nat)
    requires t < |s.th| && t < |s.retired| && s.th[t].pc.Stab? && s.th[t].pc.stage > 8
    ensures Falls(s, t, StabStep(s, s.th[t], t, Go(false)))
  {
  }

  lemma StabFalls(s: State, t: nat, a: Act)
    requires t < |s.th| && t < |s.retired| && a == Go(false) && s.th[t].pc.Stab?
    ensures Falls(s, t, StabStep(s, s.th[t], t, a))
  {
    var k := s.th[t].pc.stage;
    if k > 8 { StabSettles(s, t); }
    else if k == 8 { StabMends(s, t, a); }
    else if k in {2, 5, 6, 7} { StabChecks(s, t, a); }
    else { StabSlots(s, t, a); }
  }

  /** Every step of a running call that nobody disturbs brings its end nearer. */
  lemma RankFalls(s: State, t: nat, a: Act)
    requires t < |s.th| && t < |s.retired| && t < |s.count| && Enabled(s, t, a) && a != Go(true) && s.th[t].pc != Idle
    ensures var s' := Step(s, t, a); t < |s'.th| && t < |s'.retired| && Rank(s', t) < Rank(s, t)
  {
    match s.th[t].pc
    case Alloc | ReadPush | CasFirst | InitLink | CasPush => PushFalls(s, t, a);
    case ReadPop | CasLast | PopReserve0 | PopReserve1 | PopCheck | PopPrev | CasPop | TakeData => PopFalls(s, t, a);
    case Retire => RetireFalls(s, t);
    case Scan(_, _) => ScanFalls(s, t);
    case Clear(_, _) | Return(_) =>
    case Stab(_, _) => StabFalls(s, t, a);
  }

  // ---------------------------------------------------------------- every run

  /** From run[..from] on only thread t has moved, always in one call, and no swap has failed for no reason. */
  ghost predicate Alone(s: State, run: seq<Sched>, t: nat, from: nat) {
    && from <= |run|
    && (|run| == from ||
          var p, x := Exec(s, run[..|run| - 1]), run[|run| - 1];
          Alone(s, run[..|run| - 1], t, from) && x.tid == t && t < |p.th| && p.th[t].pc != Idle && x.act != Go(true))
  }

  lemma {:induction false} AloneFalls(s: State, run: seq<Sched>, t: nat, from: nat)
    requires Init(s) && from <= |run| && Run(s, run) && Run(s, run[..from]) && Alone(s, run, t, from) && t < |Exec(s, run[..from]).th|
    ensures var y, z := Exec(s, run[..from]), Exec(s, run);
            t < |z.th| && t < |z.retired| && t < |y.retired| && t < |y.th| && |run| - from + Rank(z, t) <= Rank(y, t)
    decreases |run|
  {
    if |run| == from {
      assert run[..from] == run;
      RunInv(s, run);
    } else {
      var r, x := run[..|run| - 1], run[|run| - 1];
      assert r[..from] == run[..from];
      AloneFalls(s, r, t, from);
      RunInv(s, r);
      RankFalls(Exec(s, r), t, x.act);
    }
  }

  lemma {:induction false} TimesIs(n: nat, w: nat)
    ensures Times(n, w) == n * w
  {
    if n > 0 {
      TimesIs(n - 1, w);
      assert n * w == (n - 1) * w + w;
    }
  }

  lemma {:induction false} TimesGrows(m: nat, n: nat, w: nat)
    requires m <= n
    ensures Times(m, w) <= Times(n, w)
    decreases n
  {
    if m < n { TimesGrows(m, n - 1, w); }
  }

  lemma ScanBound(l: nat, h: nat, i: nat, k: nat)
    ensures ScanCost(l, h, i, k) <= Times(l + 1, h + 2) + 6
  {
    if i < l { TimesGrows(l - i - 1, l, h + 2); }
  }

  /** The most steps to the end of a call, with r blocks on the retired list and h slots. */
  function Most(r: nat, h: nat): nat { Times(r + 1, h + 2) + 45 }

  lemma MostIs(r: nat, h: nat)
    ensures Most(r, h) == (r + 1) * (h + 2) + 45
  {
    TimesIs(r + 1, h + 2);
  }

  lemma RankBound(s: State, t: nat)
    requires t < |s.th| && t < |s.retired|
    ensures Rank(s, t) <= Most(|s.retired[t]|, |s.hz|)
  {
    var l, h := |s.retired[t]|, |s.hz|;
    assert Times(l + 1, h + 2) >= 2;
    if s.th[t].pc.Scan? { ScanBound(l, h, s.th[t].pc.i, s.th[t].pc.k); }
  }

  /**
   * Obstruction-freedom, from every reachable state: a thread in a call that runs alone from then on, with no spurious failure,
   * makes at most `Most(r, h)` steps, (r + 1) * (h + 2) + 45, before its call returns, with r blocks on its retired list and h slots.
   */
  lemma ObstructionFree(s: State, run: seq<Sched>, t: nat, from: nat)
    requires Init(s) && from <= |run| && Run(s, run) && Run(s, run[..from]) && Alone(s, run, t, from) && t < |Exec(s, run[..from]).th|
    ensures var y := Exec(s, run[..from]); t < |y.retired| && |run| - from <= Most(|y.retired[t]|, |y.hz|)
  {
    AloneFalls(s, run, t, from);
    var y := Exec(s, run[..from]);
    RankBound(y, t);
    assert |run| - from <= Rank(y, t);
  }

  // ---------------------------------------------------------------- what a call leaves behind

  /** The step ends a push, but for the clearing of its slots. */
  ghost predicate EndsPush(T: Thread, T': Thread) {
    T.op.Push? && T.pc != Idle && !T.pc.Clear? && (T'.pc == Return(None) || T'.pc == Clear(0, ToReturn(None)))
  }

  /** Another thread has mended the link that this one was about to mend. */
  ghost predicate Forestalled(s: State, T: Thread) { T.pc.AtStab(8) && Link(s, T.prev, StabSide(T)) != T.seen }

  /**
   * A push does not end with the anchor still as it saw it and unstable, unless a swap has failed for no reason, or another thread
   * has mended the link and is left to settle the anchor.
   */
  lemma PushSettles(s: State, t: nat, a: Act)
    requires Inv(s) && CanStep(s, t, a) && a != Go(true) && EndsPush(s.th[t], Step(s, t, a).th[t]) && !Forestalled(s, s.th[t])
    ensures var s' := Step(s, t, a); s'.anchor == s'.th[t].a ==> s'.anchor.status == Stable
  {
    assert ThreadAt(s, t);
    match s.th[t].pc
    case Alloc | ReadPush | CasFirst | InitLink | CasPush => FirstSettles(s, t, a);
    case Stab(_, _) => StabEnds(s, t, a);
    case _ =>
  }

  lemma FirstSettles(s: State, t: nat, a: Act)
    requires Inv(s) && t < |s.th| && s.th[t].pc in {Alloc, ReadPush, CasFirst, InitLink, CasPush} && EndsPush(s.th[t], PushStep(s, s.th[t], t, a).T)
    ensures var o := PushStep(s, s.th[t], t, a); o.s.anchor != o.T.a
  {
    assert ThreadAt(s, t);
  }

  lemma StabEnds(s: State, t: nat, a: Act)
    requires t < |s.th| && a == Go(false) && s.th[t].pc.Stab? && EndsPush(s.th[t], StabStep(s, s.th[t], t, a).T) && s.th[t].pc.stage <= 9
    requires !Forestalled(s, s.th[t])
    ensures var o := StabStep(s, s.th[t], t, a); o.s.anchor == o.T.a ==> o.s.anchor.status == Stable
  {
  }

  // ---------------------------------------------------------------- `retire` is that of the hazard tracker

  /** n steps of thread t, alone. */
  function Solo(s: State, t: nat, n: nat): State
    decreases n
  {
    if n == 0 || t >= |s.th| then s else Solo(Step(s, t, Go(false)), t, n - 1)
  }

  /** Block i is being compared with the slots, and is in none of the first k. */
  ghost predicate Scans(s: State, t: nat) {
    && t < |s.th| && t < |s.retired| && t < |s.count|
    && s.th[t].pc.Scan? && s.th[t].pc.k <= |s.hz|
    && (s.th[t].pc.i < |s.retired[t]| ==> s.retired[t][s.th[t].pc.i] !in s.hz[..s.th[t].pc.k])
  }

  /** What the tracker's scan will keep and free from here on. */
  function Rest(s: State, t: nat): (seq<int>, seq<int>)
    requires t < |s.th| && t < |s.retired| && s.th[t].pc.Scan?
  {
    Tracker.Scan(s.retired[t], s.hz, s.th[t].pc.i)
  }

  /** Exactly these blocks have been freed. */
  ghost predicate Freed(s: State, z: State, l: seq<int>) { forall x :: OwnerOf(z, x) == if x in l then Free else OwnerOf(s, x) }

  lemma ScanOver(s: State, t: nat)
    requires Scans(s, t) && s.th[t].pc.i >= |s.retired[t]|
    ensures var z := Step(s, t, Go(false));
            && z.hz == s.hz && |z.th| == |s.th| && z.th[t].pc.Clear? && z.retired == s.retired && z.owner == s.owner
            && t < |z.count| && z.count[t] == s.count[t] + 1 && Rest(s, t) == (s.retired[t], [])
  {
  }

  lemma ScanNext(s: State, t: nat)
    requires Scans(s, t) && s.th[t].pc.i < |s.retired[t]| && s.th[t].pc.k < |s.hz|
    ensures var z := Step(s, t, Go(false));
            && z.hz == s.hz && |z.th| == |s.th| && z.count == s.count && z.owner == s.owner && Scans(z, t) && Rest(z, t) == Rest(s, t)
  {
    var i, k := s.th[t].pc.i, s.th[t].pc.k;
    assert s.hz[..k + 1] == s.hz[..k] + [s.hz[k]];
    if s.hz[k] == s.retired[t][i] { assert s.retired[t][i] in s.hz; }
  }

  lemma ScanErases(s: State, t: nat)
    requires Scans(s, t) && s.th[t].pc.i < |s.retired[t]| && s.th[t].pc.k >= |s.hz|
    ensures var z, x := Step(s, t, Go(false)), s.retired[t][s.th[t].pc.i];
            && z.hz == s.hz && |z.th| == |s.th| && z.count == s.count && Scans(z, t)
            && Rest(s, t) == (Rest(z, t).0, [x] + Rest(z, t).1) && Freed(s, z, [x])
  {
    assert s.hz[..s.th[t].pc.k] == s.hz;
  }

  lemma FreedOn(s: State, y: State, z: State, x: int, l: seq<int>)
    requires Freed(s, y, [x]) && Freed(y, z, l)
    ensures Freed(s, z, [x] + l)
  {
  }

  lemma {:induction false} ScanAlone(s: State, t: nat) returns (n: nat)
    requires Scans(s, t)
    ensures var z := Solo(s, t, n);
            && t < |z.th| && t < |z.retired| && t < |z.count| && z.th[t].pc.Clear? && z.hz == s.hz
            && z.retired[t] == Rest(s, t).0 && z.count[t] == s.count[t] + 1 && Freed(s, z, Rest(s, t).1)
    decreases Rank(s, t)
  {
    var y := Step(s, t, Go(false));
    if s.th[t].pc.i >= |s.retired[t]| {
      ScanOver(s, t);
      n := 1;
      assert Solo(y, t, 0) == y;
    } else {
      RankFalls(s, t, Go(false));
      if s.th[t].pc.k < |s.hz| { ScanNext(s, t); } else { ScanErases(s, t); }
      var m := ScanAlone(y, t);
      n := m + 1;
      if s.th[t].pc.k >= |s.hz| { FreedOn(s, y, Solo(y, t, m), s.retired[t][s.th[t].pc.i], Rest(y, t).1); }
    }
  }

  lemma RetireOne(s: State, t: nat)
    requires t < |s.th| && t < |s.retired| && t < |s.count| && s.th[t].pc == Retire
    ensures var y, node := Step(s, t, Go(false)), End(s.th[t].a, s.th[t].op.side);
            && y.hz == s.hz && |y.th| == |s.th| && |y.retired| == |s.retired| && |y.count| == |s.count|
            && y.retired[t] == s.retired[t] + [node] && y.owner == s.owner[node := Retired(t)]
            && (if s.count[t] == FREQ then y.count[t] == 0 && Scans(y, t) && y.th[t].pc.i == 0 else y.count[t] == s.count[t] + 1 && y.th[t].pc.Clear?)
  {
  }

  lemma TrackerRetires(l: seq<int>, count: nat, node: int, hz: seq<int>)
    requires node != NULL
    ensures Tracker.Retired(Tracker.Trash(l, count, []), node, hz, 3, true)
            == if count == 3 then Tracker.Trash(Tracker.Scan(l + [node], hz, 0).0, 1, Tracker.Scan(l + [node], hz, 0).1)
               else Tracker.Trash(l + [node], count + 1, [])
  {
    assert [] + Tracker.Scan(l + [node], hz, 0).1 == Tracker.Scan(l + [node], hz, 0).1;
  }

  /** From `Retire` to z the list and the counter have become those of the tracker, and exactly these blocks were freed. */
  ghost predicate AsTracker(s: State, z: State, t: nat, freed: seq<int>)
    requires t < |s.th|
  {
    var node := End(s.th[t].a, s.th[t].op.side);
    && t < |s.retired| && t < |s.count| && t < |z.th| && t < |z.retired| && t < |z.count| && z.th[t].pc.Clear?
    && Tracker.Trash(z.retired[t], z.count[t], freed) == Tracker.Retired(Tracker.Trash(s.retired[t], s.count[t], []), node, s.hz, 3, true)
    && (forall x :: OwnerOf(z, x) == if x in freed then Free else if x == node then Retired(t) else OwnerOf(s, x))
  }

  lemma RetireQuiet(s: State, t: nat)
    requires t < |s.th| && t < |s.retired| && t < |s.count| && s.th[t].pc == Retire && s.count[t] != FREQ && End(s.th[t].a, s.th[t].op.side) != NULL
    ensures AsTracker(s, Step(s, t, Go(false)), t, [])
  {
    RetireOne(s, t);
    TrackerRetires(s.retired[t], s.count[t], End(s.th[t].a, s.th[t].op.side), s.hz);
  }

  lemma RetireScans(s: State, t: nat, z: State)
    requires t < |s.th| && t < |s.retired| && t < |s.count| && s.th[t].pc == Retire && s.count[t] == FREQ && End(s.th[t].a, s.th[t].op.side) != NULL
    requires var y := Step(s, t, Go(false));
             && t < |y.th| && t < |y.retired| && t < |y.count| && y.th[t].pc.Scan?
             && t < |z.th| && t < |z.retired| && t < |z.count| && z.th[t].pc.Clear?
             && z.retired[t] == Rest(y, t).0 && z.count[t] == y.count[t] + 1 && Freed(y, z, Rest(y, t).1)
    ensures AsTracker(s, z, t, Rest(Step(s, t, Go(false)), t).1)
  {
    RetireOne(s, t);
    TrackerRetires(s.retired[t], s.count[t], End(s.th[t].a, s.th[t].op.side), s.hz);
  }

  /**
   * Alone, the machine's `retire` does to the thread's list and counter what the hazard tracker's does at frequency 3, and frees the
   * same blocks, `freed`.
   */
  lemma RetireIsTracker(s: State, t: nat) returns (n: nat, freed: seq<int>)
    requires Inv(s) && t < |s.th| && s.th[t].pc == Retire
    ensures AsTracker(s, Solo(s, t, n), t, freed)
  {
    assert ThreadAt(s, t);
    var y := Step(s, t, Go(false));
    RetireOne(s, t);
    if s.count[t] == FREQ {
      var m := ScanAlone(y, t);
      n, freed := m + 1, Rest(y, t).1;
      RetireScans(s, t, Solo(y, t, m));
    } else {
      n, freed := 1, [];
      assert Solo(y, t, 0) == y;
      RetireQuiet(s, t);
    }
  }
}
