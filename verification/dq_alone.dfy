/** Obstruction-freedom of the distributed queue: a thread that runs alone ends its put or get within a bounded number of steps. */
module DQAlone {
  import opened Ring
  import opened DQMachine
  import opened DQInv
  import opened DQSteps
  import opened DQQueue

  // ---------------------------------------------------------------- puts

  /** The tail of the backend is one node behind. */
  ghost predicate Lags(s: State, b: nat) { b < |s.order| && b < |s.tail| && s.tail[b].tag + 1 < |s.order[b]| }

  /** The snapshot of the tail, and of the word behind it, is current. */
  ghost predicate TailCurrent(s: State, T: Thread) { T.b < |s.tail| && T.tail == s.tail[T.b] }

  ghost predicate NextCurrent(s: State, T: Thread) { 0 <= T.tail.ptr < |s.nodes| && s.nodes[T.tail.ptr].next == T.next }

  ghost function PutRank(s: State, T: Thread): nat {
    match T.pc
    case PutTail => if Lags(s, T.b) then 10 else 6
    case PutNext => if !TailCurrent(s, T) then 14 else if Lags(s, T.b) then 9 else 5
    case PutCheck =>
      if !TailCurrent(s, T) then 11
      else if T.next.ptr != NULL then 8
      else if NextCurrent(s, T) then 4 else 13
    case PutHelp => if TailCurrent(s, T) then 7 else 11
    case PutLink => if NextCurrent(s, T) then 3 else 11
    case PutSwing => 2
    case Return(_) => 1
    case _ => 0
  }

  lemma PutReads(s: State, t: nat)
    requires Inv(s) && t < |s.th| && (s.th[t].pc == PutTail || s.th[t].pc == PutNext || s.th[t].pc == PutCheck)
    ensures var s' := PutStep(s, t); |s'.th| == |s.th| && PutRank(s', s'.th[t]) < PutRank(s, s.th[t])
  {
    var T := s.th[t];
    assert LocalShape(s, T) && ThreadOk(s, t);
    if T.pc == PutNext && TailCurrent(s, T) { NextRead(s, T.b, T.tail); }
  }

  lemma PutHelps(s: State, t: nat)
    requires Inv(s) && t < |s.th| && s.th[t].pc == PutHelp
    ensures var s' := PutStep(s, t); |s'.th| == |s.th| && PutRank(s', s'.th[t]) < PutRank(s, s.th[t])
  {
    var T := s.th[t];
    assert LocalShape(s, T) && ThreadOk(s, t) && BackOk(s, T.b);
  }

  lemma PutWrites(s: State, t: nat)
    requires Inv(s) && t < |s.th| && (s.th[t].pc == PutLink || s.th[t].pc == PutSwing)
    ensures var s' := PutStep(s, t); |s'.th| == |s.th| && PutRank(s', s'.th[t]) < PutRank(s, s.th[t])
  {
    assert LocalShape(s, s.th[t]);
  }

  lemma PutFalls(s: State, t: nat)
    requires Inv(s) && t < |s.th| && s.th[t].pc != Idle && !InGet(s.th[t].pc) && !s.th[t].pc.Return?
    ensures var s' := PutStep(s, t); |s'.th| == |s.th| && !InGet(s'.th[t].pc) && PutRank(s', s'.th[t]) < PutRank(s, s.th[t])
  {
    assert LocalShape(s, s.th[t]);
    match s.th[t].pc
    case PutTail | PutNext | PutCheck => PutReads(s, t);
    case PutHelp => PutHelps(s, t);
    case PutLink | PutSwing => PutWrites(s, t);
  }

  // ---------------------------------------------------------------- gets

  ghost predicate HeadCurrent(s: State, T: Thread) { T.b < |s.head| && T.head == s.head[T.b] }

  /** What the thread has read of the backend it looks at is current. */
  ghost predicate LookCurrent(s: State, T: Thread) {
    match T.pc
    case GetTail => HeadCurrent(s, T)
    case GetNext => HeadCurrent(s, T) && TailCurrent(s, T)
    case GetCheck => HeadCurrent(s, T) && TailCurrent(s, T) && 0 <= T.head.ptr < |s.nodes| && T.next == s.nodes[T.head.ptr].next
    case GetHelp => HeadCurrent(s, T) && TailCurrent(s, T)
    case GetTake => HeadCurrent(s, T)
    case _ => true
  }

  /** The tags collected in this pass, or still to be compared in the second one, are current. */
  ghost predicate TagsCurrent(s: State, T: Thread)
    requires |s.tail| == |s.head| == |T.tails| > T.start
  {
    var n := |s.head|;
    if T.pc == Recheck then forall k :: T.i <= k < n ==> T.tails[Index(T.start, k, n)] == s.tail[Index(T.start, k, n)].tag
    else forall k :: 0 <= k < T.i && k < n ==> T.tails[Index(T.start, k, n)] == s.tail[Index(T.start, k, n)].tag
  }

  /** The backend is not empty. */
  ghost predicate Holds(s: State, b: nat) { b < |s.head| && b < |s.tail| && s.head[b].ptr != s.tail[b].ptr }

  ghost function Look(s: State, T: Thread): nat {
    var g := if Holds(s, T.b) then 6 else 11;
    match T.pc
    case GetHead => g
    case GetTail => if LookCurrent(s, T) then g - 1 else 15
    case GetNext => if LookCurrent(s, T) then g - 2 else 14
    case GetCheck => if LookCurrent(s, T) then g - 3 else 13
    case GetHelp => if LookCurrent(s, T) then 7 else 12
    case GetTake => if LookCurrent(s, T) then 2 else 12
    case _ => 0
  }

  function Times(n: nat, w: nat): nat { if n == 0 then 0 else Times(n - 1, w) + w }

  /** A whole pass over n backends, and the second one. */
  function Pass(n: nat): nat { Times(n, 15) + n + 3 }

  ghost function GetRank(s: State, T: Thread): nat
    requires |s.tail| == |s.head| == |T.tails| > T.start && T.i < |s.head|
  {
    var n := |s.head|;
    (if T.pc == Recheck then n - T.i + 1 else Look(s, T) + Times(n - 1 - T.i, 15) + n + 2)
    + (if LookCurrent(s, T) && TagsCurrent(s, T) then 0 else Pass(n))
  }

  /** The locals T' lead on from T, in the get or out of it. */
  ghost predicate Onward(s: State, T: Thread, T': Thread)
    requires |s.tail| == |s.head| == |T.tails| > T.start && T.i < |s.head|
  {
    || T'.pc.Return?
    || (InGet(T'.pc) && |s.tail| == |s.head| == |T'.tails| > T'.start && T'.i < |s.head| && GetRank(s, T') < GetRank(s, T))
  }

  /** The step leads on, in the get or out of it. */
  ghost predicate GetFalling(s: State, t: nat, s': State)
    requires Shape(s) && t < |s.th| && InGet(s.th[t].pc)
  {
    assert LocalShape(s, s.th[t]);
    var T := s.th[t];
    && |s'.th| == |s.th|
    && var T' := s'.th[t];
       || T'.pc.Return?
       || (InGet(T'.pc) && |s'.tail| == |s'.head| == |T'.tails| > T'.start && T'.i < |s'.head| && GetRank(s', T') < GetRank(s, T))
  }

  /** A step that only reads. */
  lemma OnlyReads(s: State, t: nat, T': Thread)
    requires Shape(s) && t < |s.th| && InGet(s.th[t].pc) && LocalShape(s, s.th[t]) && Onward(s, s.th[t], T')
    ensures GetFalling(s, t, With(s, t, T'))
  {
    if !T'.pc.Return? { SameRank(s, With(s, t, T'), T'); }
  }

  lemma SameRank(s: State, s': State, T: Thread)
    requires |s.tail| == |s.head| == |T.tails| > T.start && T.i < |s.head|
    requires s'.tail == s.tail && s'.head == s.head && s'.nodes == s.nodes
    ensures GetRank(s', T) == GetRank(s, T)
  {
    assert TagsCurrent(s', T) == TagsCurrent(s, T);
  }

  lemma GetReads(s: State, t: nat)
    requires Inv(s) && t < |s.th| && (s.th[t].pc == GetHead || s.th[t].pc == GetTail || s.th[t].pc == GetNext)
    ensures GetFalling(s, t, GetStep(s, t))
  {
    var T, T' := s.th[t], GetStep(s, t).th[t];
    assert LocalShape(s, T);
    ReadRank(s, t);
    OnlyReads(s, t, T');
  }

  /** One more word is read, and is current if those before it are. */
  lemma LookRank(s: State, T: Thread, T': Thread)
    requires |s.tail| == |s.head| == |T.tails| > T.start && T.i < |s.head| && InGet(T.pc) && InGet(T'.pc) && T.pc != Recheck && T'.pc != Recheck
    requires T'.tails == T.tails && T'.start == T.start && T'.i == T.i && Look(s, T') < Look(s, T) && (LookCurrent(s, T) ==> LookCurrent(s, T'))
    ensures Onward(s, T, T')
  {
    assert TagsCurrent(s, T') == TagsCurrent(s, T);
  }

  lemma ReadRank(s: State, t: nat)
    requires Shape(s) && t < |s.th| && (s.th[t].pc == GetHead || s.th[t].pc == GetTail || s.th[t].pc == GetNext) && LocalShape(s, s.th[t])
    ensures var T' := GetStep(s, t).th[t]; GetStep(s, t) == With(s, t, T') && Onward(s, s.th[t], T')
  {
    LookRank(s, s.th[t], GetStep(s, t).th[t]);
  }

  lemma GetTakes(s: State, t: nat)
    requires Inv(s) && t < |s.th| && s.th[t].pc == GetTake
    ensures GetFalling(s, t, GetStep(s, t))
  {
    assert LocalShape(s, s.th[t]);
  }

  lemma HelpTags(s: State, s': State, T: Thread, T': Thread)
    requires |s.tail| == |s.head| == |T.tails| > T.start && T.i < |s.head| && T.b == Index(T.start, T.i, |s.head|) && T.pc == GetHelp
    requires |s'.tail| == |s'.head| == |s.head| && T' == T.(pc := GetHead) && forall b :: 0 <= b < |s.tail| && b != T.b ==> s'.tail[b] == s.tail[b]
    requires TagsCurrent(s, T)
    ensures TagsCurrent(s', T')
  {
    var n := |s.head|;
    forall k | 0 <= k < T.i && k < n ensures T.tails[Index(T.start, k, n)] == s'.tail[Index(T.start, k, n)].tag { Apart(T.start, T.i, k, n); }
  }

  lemma GetHelps(s: State, t: nat)
    requires Inv(s) && t < |s.th| && s.th[t].pc == GetHelp
    ensures GetFalling(s, t, GetStep(s, t))
  {
    var T, s' := s.th[t], GetStep(s, t);
    assert LocalShape(s, T) && ThreadOk(s, t);
    HelpLook(s, t);
    if TagsCurrent(s, T) { HelpTags(s, s', T, s'.th[t]); }
    HelpRank(s, s', T);
  }

  lemma HelpRank(s: State, s': State, T: Thread)
    requires |s.tail| == |s.head| == |T.tails| > T.start && T.i < |s.head| && T.pc == GetHelp && |s'.tail| == |s'.head| == |s.head|
    requires var T' := T.(pc := GetHead); Look(s', T') < Look(s, T) && (TagsCurrent(s, T) ==> TagsCurrent(s', T'))
    ensures GetRank(s', T.(pc := GetHead)) < GetRank(s, T)
  {
  }

  /** A help with current snapshots leaves the backend with a node to take. */
  lemma HelpLook(s: State, t: nat)
    requires Inv(s) && t < |s.th| && s.th[t].pc == GetHelp && LocalShape(s, s.th[t])
    ensures var s' := GetStep(s, t);
            && s'.head == s.head && |s'.tail| == |s.tail| && s'.th == s.th[t := s.th[t].(pc := GetHead)]
            && (forall b :: 0 <= b < |s.tail| && b != s.th[t].b ==> s'.tail[b] == s.tail[b])
            && Look(s', s'.th[t]) < Look(s, s.th[t])
  {
    var T := s.th[t];
    assert ThreadOk(s, t) && BackOk(s, T.b);
  }

  lemma Apart(start: nat, i: nat, k: nat, n: nat)
    requires start < n && i < n && k < n && i != k
    ensures Index(start, i, n) != Index(start, k, n)
  {
  }

  /** The tag of a backend found empty is collected, and the look goes on to the next one. */
  lemma CollectRank(s: State, T: Thread)
    requires |s.tail| == |s.head| == |T.tails| > T.start && T.i < |s.head| && T.pc == GetCheck && T.b == Index(T.start, T.i, |s.head|)
    requires T.head.ptr == T.tail.ptr
    ensures Onward(s, T, NextGet(s, T.(tails := T.tails[T.b := T.tail.tag])))
  {
    var n := |s.head|;
    var T' := NextGet(s, T.(tails := T.tails[T.b := T.tail.tag]));
    if LookCurrent(s, T) && TagsCurrent(s, T) {
      forall k | 0 <= k <= T.i ensures T'.tails[Index(T.start, k, n)] == s.tail[Index(T.start, k, n)].tag {
        if k < T.i { Apart(T.start, T.i, k, n); }
      }
      assert TagsCurrent(s, T');
    }
    if T.i + 1 < n { assert Times(n - 1 - T.i, 15) == Times(n - 2 - T.i, 15) + 15; }
  }

  /** A look that goes on at the same backend. */
  lemma StayRank(s: State, T: Thread, p: PC)
    requires |s.tail| == |s.head| == |T.tails| > T.start && T.i < |s.head| && T.pc == GetCheck
    requires if LookCurrent(s, T) then (p == GetTake && Holds(s, T.b)) || (p == GetHelp && !Holds(s, T.b)) else p == GetTake || p == GetHelp || p == GetHead
    ensures Onward(s, T, T.(pc := p))
  {
    assert TagsCurrent(s, T.(pc := p)) == TagsCurrent(s, T);
  }

  lemma GetChecks(s: State, t: nat)
    requires Inv(s) && t < |s.th| && s.th[t].pc == GetCheck
    ensures GetFalling(s, t, GetStep(s, t))
  {
    var T := s.th[t];
    assert LocalShape(s, T) && ThreadOk(s, t);
    if s.head[T.b] == T.head && T.head.ptr == T.tail.ptr && T.next.ptr == NULL {
      CollectRank(s, T);
      OnlyReads(s, t, NextGet(s, T.(tails := T.tails[T.b := T.tail.tag])));
    } else {
      var p := if s.head[T.b] != T.head then GetHead else if T.head.ptr != T.tail.ptr then GetTake else GetHelp;
      StayRank(s, T, p);
      OnlyReads(s, t, T.(pc := p));
    }
  }

  lemma RecheckRank(s: State, T: Thread)
    requires |s.tail| == |s.head| == |T.tails| > T.start && T.i < |s.head| && T.pc == Recheck && T.b == Index(T.start, T.i, |s.head|)
    ensures Onward(s, T, RecheckStep(s, T))
  {
    var n, T' := |s.head|, RecheckStep(s, T);
    if s.tail[T.b].tag != T.tails[T.b] {
      assert !TagsCurrent(s, T);
      RestartRank(s, T, T');
    } else if T'.pc == Recheck {
      assert T'.tails == T.tails && T'.start == T.start;
    }
  }

  /** A second pass that fails begins a first one, with nothing collected yet. */
  lemma RestartRank(s: State, T: Thread, T': Thread)
    requires |s.tail| == |s.head| == |T.tails| > T.start && T.i < |s.head| && T.pc == Recheck && !TagsCurrent(s, T)
    requires T' == T.(start := T.b, i := 0, b := T'.b, pc := GetHead) && T.b < |s.head|
    ensures Onward(s, T, T')
  {
    var n := |s.head|;
    assert TagsCurrent(s, T');
    assert Times(n, 15) == Times(n - 1, 15) + 15;
  }

  lemma GetRechecks(s: State, t: nat)
    requires Inv(s) && t < |s.th| && s.th[t].pc == Recheck
    ensures GetFalling(s, t, GetStep(s, t))
  {
    var T := s.th[t];
    assert LocalShape(s, T) && ThreadOk(s, t);
    RecheckRank(s, T);
    OnlyReads(s, t, RecheckStep(s, T));
  }

  // ---------------------------------------------------------------- every run

  /** The steps to the end of a call that nobody disturbs. */
  ghost function Rank(s: State, t: nat): nat
    requires Shape(s) && t < |s.th|
  {
    var T := s.th[t];
    assert LocalShape(s, T);
    if InGet(T.pc) then GetRank(s, T) else PutRank(s, T)
  }

  lemma GetEnds(s: State, T: Thread)
    requires |s.tail| == |s.head| == |T.tails| > T.start && T.i < |s.head| && InGet(T.pc)
    ensures GetRank(s, T) >= 2
  {
  }

  lemma TickRank(s: State, m: State, t: nat)
    requires Shape(s) && Shape(m) && Shape(Tick(s, m)) && t < |m.th|
    ensures Rank(Tick(s, m), t) == Rank(m, t)
  {
    var z, T := Tick(s, m), m.th[t];
    assert LocalShape(m, T);
    if InGet(T.pc) { SameRank(m, z, T); }
  }

  lemma MicroFalls(s: State, t: nat)
    requires Inv(s) && t < |s.th| && InGet(s.th[t].pc)
    ensures GetFalling(s, t, GetStep(s, t))
  {
    match s.th[t].pc
    case GetHead | GetTail | GetNext => GetReads(s, t);
    case GetCheck => GetChecks(s, t);
    case GetHelp => GetHelps(s, t);
    case GetTake => GetTakes(s, t);
    case Recheck => GetRechecks(s, t);
  }

  lemma GetRankFalls(s: State, t: nat, m: State)
    requires Inv(s) && t < |s.th| && InGet(s.th[t].pc) && m == GetStep(s, t) && Shape(m)
    ensures t < |m.th| && Rank(m, t) < Rank(s, t)
  {
    assert LocalShape(s, s.th[t]);
    MicroFalls(s, t);
    GetEnds(s, s.th[t]);
    assert LocalShape(m, m.th[t]);
  }

  lemma PutRankFalls(s: State, t: nat, m: State)
    requires Inv(s) && t < |s.th| && s.th[t].pc != Idle && !InGet(s.th[t].pc) && Shape(m)
    requires m == if s.th[t].pc.Return? then With(s, t, s.th[t].(pc := Idle)) else PutStep(s, t)
    ensures t < |m.th| && Rank(m, t) < Rank(s, t)
  {
    assert LocalShape(s, s.th[t]);
    if !s.th[t].pc.Return? { PutFalls(s, t); }
  }

  /** Every step of a running call that nobody disturbs brings its end nearer. */
  lemma RankFalls(s: State, t: nat, op: Op)
    requires Inv(s) && t < |s.th| && s.th[t].pc != Idle
    ensures var s' := Step(s, t, op); Shape(s') && t < |s'.th| && Rank(s', t) < Rank(s, t)
  {
    var m := Micro(s, t, op);
    StepInv(s, t, op);
    TickShape(s, m);
    if InGet(s.th[t].pc) { GetRankFalls(s, t, m); } else { PutRankFalls(s, t, m); }
    TickRank(s, m, t);
  }

  lemma TickShape(s: State, m: State)
    requires Shape(Tick(s, m))
    ensures Shape(m)
  {
    forall t | 0 <= t < |m.th| ensures LocalShape(m, m.th[t]) { assert LocalShape(Tick(s, m), m.th[t]); }
  }

  /** From run[..from] on only thread t has moved, always in one call. */
  ghost predicate Alone(s: State, run: seq<Sched>, t: nat, from: nat) {
    && from <= |run|
    && (|run| == from ||
          var p, x := Exec(s, run[..|run| - 1]), run[|run| - 1];
          Alone(s, run[..|run| - 1], t, from) && x.tid == t && t < |p.th| && p.th[t].pc != Idle)
  }

  lemma {:induction false} AloneFalls(s: State, run: seq<Sched>, t: nat, from: nat)
    requires Init(s) && Run(s, run) && from <= |run| && Alone(s, run, t, from) && t < |s.th|
    ensures var y, z := Exec(s, run[..from]), Exec(s, run);
            && Inv(y) && Inv(z) && t < |y.th| && t < |z.th| && |run| - from + Rank(z, t) <= Rank(y, t)
    decreases |run|
  {
    RunInv(s, run);
    if |run| == from {
      assert run[..from] == run;
    } else {
      var r, x := run[..|run| - 1], run[|run| - 1];
      assert r[..from] == run[..from];
      AloneFalls(s, r, t, from);
      RankFalls(Exec(s, r), t, x.op);
    }
  }

  lemma {:induction false} TimesIs(n: nat, w: nat)
    ensures Times(n, w) == n * w
  {
    if n > 0 { TimesIs(n - 1, w); }
  }

  lemma GetBound(s: State, T: Thread)
    requires |s.tail| == |s.head| == |T.tails| > T.start && T.i < |s.head|
    ensures GetRank(s, T) <= 32 * |s.head| + 5
  {
    TimesIs(|s.head| - 1 - T.i, 15);
    TimesIs(|s.head|, 15);
  }

  lemma RankBound(s: State, t: nat)
    requires Inv(s) && t < |s.th|
    ensures Rank(s, t) <= 32 * |s.head| + 5
  {
    assert LocalShape(s, s.th[t]);
    if InGet(s.th[t].pc) { GetBound(s, s.th[t]); }
  }

  /**
   * Obstruction-freedom, from every reachable state: a thread in a put or get that runs alone from then on makes at most
   * 32n + 5 steps before its call returns, with n backends.
   */
  lemma ObstructionFree(s: State, run: seq<Sched>, t: nat, from: nat)
    requires Init(s) && Run(s, run) && from <= |run| && Alone(s, run, t, from) && t < |s.th|
    ensures |run| - from <= 32 * |Exec(s, run[..from]).head| + 5
  {
    AloneFalls(s, run, t, from);
    RankBound(Exec(s, run[..from]), t);
  }
}
