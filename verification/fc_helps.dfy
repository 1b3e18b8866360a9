/** Progress in FCDeque.hpp: a round serves everyone who was waiting, a combiner unlocks soon, and no thread waits for nobody. */
module FCHelps {
  import opened DequeSpec
  import opened FCMachine
  import opened FCDeque

  // ---------------------------------------------------------------- a round serves everyone who was waiting

  /** The call of u is published and nobody has applied it. */
  ghost predicate Waits(s: State, u: nat)
    requires Shape(s)
  {
    u < |s.th| && s.req[u].status != COMPLETE && s.answer[u] == None
  }

  ghost predicate OnList(T: Thread, u: nat, fromLeft: nat, fromRight: nat) {
    (exists j :: fromLeft <= j < |T.left| && T.left[j] == u) || (exists j :: fromRight <= j < |T.right| && T.right[j] == u)
  }

  /** The round of combiner c still has u before it. */
  ghost predicate Ahead(T: Thread, u: nat) {
    match T.pc
    case Scan(i) => u >= i || OnList(T, u, 0, 0)
    case Apply(_, i) => u >= i || OnList(T, u, 0, 0)
    case Complete(i) => u > i || OnList(T, u, 0, 0)
    case Serve(S, k) => OnList(T, u, FromLeft(T, S, k), FromRight(S, k))
    case Store(S, k, _) => OnList(T, u, FromLeft(T, S, k + 1), FromRight(S, k + 1))
    case Done(S, k) => OnList(T, u, FromLeft(T, S, k + 1), FromRight(S, k + 1))
    case _ => false
  }

  /** Thread u has been served beyond its first m calls, or its turn in the round of c is still to come. */
  ghost predicate Due(s: State, c: nat, u: nat, m: nat)
    requires Shape(s)
  {
    c < |s.th| && (|Of(s.log, u)| > m || (Waits(s, u) && Ahead(s.th[c], u)))
  }

  lemma LogGrows(log: seq<Call>, c: Call, u: nat)
    ensures |Of(log + [c], u)| == |Of(log, u)| + (if c.tid == u then 1 else 0)
  {
    OfAdd(log, c, u);
  }

  lemma OtherDue(s: State, t: nat, op: Op, c: nat, u: nat, m: nat)
    requires Inv(s) && t < |s.th| && c < |s.th| && t != c && Combining(s.th[c].pc) && Due(s, c, u, m)
    ensures Due(Step(s, t, op), c, u, m)
  {
    assert !Combining(s.th[t].pc);
    assert ReqOk(s, t);
    QuietStep(s, t, op);
    OutsideOwnOnly(s, t, op);
  }

  lemma OutsideOwnOnly(s: State, t: nat, op: Op)
    requires Inv(s) && t < |s.th| && !Combining(s.th[t].pc)
    ensures OwnOnly(s, Step(s, t, op), t)
  {
    assert ReqOk(s, t);
  }

  lemma Appended(us: seq<nat>, i: nat, u: nat)
    ensures (us + [i])[|us|] == i && forall j :: 0 <= j < |us| ==> (us + [i])[j] == us[j]
  {
  }

  /** One of the others: served already, or with an unchanged request and its turn still to come. */
  lemma DueStays(s: State, s': State, c: nat, u: nat, m: nat)
    requires Shape(s) && Shape(s') && c < |s.th| == |s'.th| && Due(s, c, u, m) && |Of(s.log, u)| <= |Of(s'.log, u)|
    requires |Of(s.log, u)| <= m ==> s'.req[u] == s.req[u] && s'.answer[u] == s.answer[u] && Ahead(s'.th[c], u)
    ensures Due(s', c, u, m)
  {
  }

  lemma ScanDue(s: State, c: nat, i: nat, u: nat, m: nat)
    requires Inv(s) && c < |s.th| && s.th[c].pc == Scan(i) && i < |s.th| && Due(s, c, u, m)
    ensures Due(ScanStep(s, c, i), c, u, m)
  {
    ScanFrame(s, c, i);
    if |Of(s.log, u)| <= m {
      if u < i { ScanKeepsPlace(s, c, i, u); } else if u == i { ScanTakes(s, c, i); } else { ScanComes(s, c, i, u); }
    }
    DueStays(s, ScanStep(s, c, i), c, u, m);
  }

  lemma ScanKeepsPlace(s: State, c: nat, i: nat, u: nat)
    requires Shape(s) && c < |s.th| && s.th[c].pc == Scan(i) && i < |s.th| && OnList(s.th[c], u, 0, 0)
    ensures Ahead(ScanStep(s, c, i).th[c], u)
  {
    var T, T' := s.th[c], ScanStep(s, c, i).th[c];
    if j :| 0 <= j < |T.left| && T.left[j] == u { assert T'.left[j] == u; } else {
      var j :| 0 <= j < |T.right| && T.right[j] == u;
      assert T'.right[j] == u;
    }
  }

  lemma ScanTakes(s: State, c: nat, i: nat)
    requires Shape(s) && c < |s.th| && s.th[c].pc == Scan(i) && i < |s.th| && s.req[i].status != COMPLETE
    ensures Ahead(ScanStep(s, c, i).th[c], i)
  {
    var T, T' := s.th[c], ScanStep(s, c, i).th[c];
    if s.req[i].status == LEFT_POP { assert T'.left[|T.left|] == i; }
    if s.req[i].status == RIGHT_POP { assert T'.right[|T.right|] == i; }
  }

  lemma ScanComes(s: State, c: nat, i: nat, u: nat)
    requires Shape(s) && c < |s.th| && s.th[c].pc == Scan(i) && i < u < |s.th|
    ensures Ahead(ScanStep(s, c, i).th[c], u)
  {
  }

  lemma ApplyFacts(s: State, c: nat, op: Op, S: Side, i: nat)
    requires Shape(s) && c < |s.th| && s.th[c].pc == Apply(S, i) && i < |s.th|
    ensures var s' := Step(s, c, op);
            && s'.req == s.req && s'.th[c] == s.th[c].(pc := Complete(i)) && (forall u :: 0 <= u < |s.th| && u != i ==> s'.answer[u] == s.answer[u])
            && |s'.log| == |s.log| + 1 && s'.log == s.log + [s'.log[|s.log|]] && s'.log[|s.log|].tid == i
  {
  }

  lemma ApplyDue(s: State, c: nat, op: Op, S: Side, i: nat, u: nat, m: nat)
    requires Inv(s) && c < |s.th| && s.th[c].pc == Apply(S, i) && i < |s.th| && Due(s, c, u, m) && m <= |Of(s.log, u)|
    ensures Due(Step(s, c, op), c, u, m)
  {
    var s' := Step(s, c, op);
    ApplyFacts(s, c, op, S, i);
    LogGrows(s.log, s'.log[|s.log|], u);
    if u != i {
      if |Of(s.log, u)| <= m && u < i { StaysOn(s.th[c], s'.th[c], u); }
      DueStays(s, s', c, u, m);
    }
  }

  lemma CompleteFacts(s: State, c: nat, op: Op, i: nat)
    requires Shape(s) && c < |s.th| && s.th[c].pc == Complete(i) && i < |s.th|
    ensures var s' := Step(s, c, op);
            && s'.answer == s.answer && s'.log == s.log && (forall u :: 0 <= u < |s.th| && u != i ==> s'.req[u] == s.req[u])
            && s'.th[c] == NextScan(s.th[c], i, |s.th|)
  {
  }

  lemma CompleteDue(s: State, c: nat, op: Op, i: nat, u: nat, m: nat)
    requires Inv(s) && c < |s.th| && s.th[c].pc == Complete(i) && Due(s, c, u, m)
    ensures Due(Step(s, c, op), c, u, m)
  {
    var s' := Step(s, c, op);
    assert CombOk(s, c);
    CompleteFacts(s, c, op, i);
    if |Of(s.log, u)| <= m && u <= i { StaysOn(s.th[c], s'.th[c], u); }
    DueStays(s, s', c, u, m);
  }

  lemma StaysOn(T: Thread, T': Thread, u: nat)
    requires OnList(T, u, 0, 0) && T'.left == T.left && T'.right == T.right
    ensures OnList(T', u, 0, 0)
  {
  }

  /** The popper whose turn it is is served; the others on the list keep their places. */
  lemma ServeDue(s: State, c: nat, S: Side, k: nat, u: nat, m: nat)
    requires Inv(s) && c < |s.th| && s.th[c].pc == Serve(S, k) && k < |Poppers(s.th[c], S)| && Due(s, c, u, m) && m <= |Of(s.log, u)|
    ensures Due(ServeStep(s, c, S, k), c, u, m)
  {
    PopperAt(s, c, S, k);
    var v := Poppers(s.th[c], S)[k];
    LogGrows(s.log, Call(v, Pop(S), Served(s.deque, Pop(S)).1), u);
    if |Of(s.log, u)| <= m && u != v { NextOn(s.th[c], S, k, u); }
  }

  lemma NextOn(T: Thread, S: Side, k: nat, u: nat)
    requires k < |Poppers(T, S)| && Poppers(T, S)[k] != u && OnList(T, u, FromLeft(T, S, k), FromRight(S, k))
    ensures OnList(T, u, FromLeft(T, S, k + 1), FromRight(S, k + 1))
  {
  }

  /** At the end of a list nobody on it is left. */
  lemma StageDue(s: State, c: nat, S: Side, k: nat, u: nat, m: nat)
    requires Inv(s) && c < |s.th| && s.th[c].pc == Serve(S, k) && k >= |Poppers(s.th[c], S)| && Due(s, c, u, m)
    ensures Due(ServeStep(s, c, S, k), c, u, m)
  {
    assert CombOk(s, c);
  }

  lemma HalfFacts(s: State, c: nat, op: Op)
    requires Shape(s) && c < |s.th| && (s.th[c].pc.Store? || s.th[c].pc.Done?)
    requires s.th[c].pc.k < |Poppers(s.th[c], s.th[c].pc.S)| && Poppers(s.th[c], s.th[c].pc.S)[s.th[c].pc.k] < |s.th|
    ensures var s', T, x := Step(s, c, op), s.th[c], Poppers(s.th[c], s.th[c].pc.S)[s.th[c].pc.k];
            && s'.answer == s.answer && s'.log == s.log && (forall u :: 0 <= u < |s.th| && u != x ==> s'.req[u] == s.req[u])
            && s'.th[c] == (if T.pc.Store? then T.(pc := Done(T.pc.S, T.pc.k)) else T.(pc := Serve(T.pc.S, T.pc.k + 1)))
  {
  }

  lemma HalfDue(s: State, c: nat, op: Op, u: nat, m: nat)
    requires Inv(s) && c < |s.th| && (s.th[c].pc.Store? || s.th[c].pc.Done?) && Due(s, c, u, m)
    ensures Due(Step(s, c, op), c, u, m)
  {
    var T := s.th[c];
    assert HalfServed(s, c, T.pc.S, T.pc.k) && s.answer[Poppers(T, T.pc.S)[T.pc.k]] != None by { assert CombOk(s, c); }
    HalfFacts(s, c, op);
    SamePlace(T, Step(s, c, op).th[c], u);
    DueStays(s, Step(s, c, op), c, u, m);
  }

  lemma SamePlace(T: Thread, T': Thread, u: nat)
    requires T.pc.Store? || T.pc.Done?
    requires T' == if T.pc.Store? then T.(pc := Done(T.pc.S, T.pc.k)) else T.(pc := Serve(T.pc.S, T.pc.k + 1))
    ensures Ahead(T', u) == Ahead(T, u)
  {
  }

  lemma OwnDue(s: State, c: nat, op: Op, u: nat, m: nat)
    requires Inv(s) && c < |s.th| && Combining(s.th[c].pc) && s.th[c].pc != Unlock && Due(s, c, u, m) && m <= |Of(s.log, u)|
    ensures Due(Step(s, c, op), c, u, m)
  {
    assert CombOk(s, c);
    match s.th[c].pc
    case Scan(i) => ScanDue(s, c, i, u, m);
    case Apply(_, i) => ApplyDue(s, c, op, s.th[c].pc.S, i, u, m);
    case Complete(i) => CompleteDue(s, c, op, i, u, m);
    case Serve(S, k) => if k < |Poppers(s.th[c], S)| { ServeDue(s, c, S, k, u, m); } else { StageDue(s, c, S, k, u, m); }
    case Store(_, _, _) => HalfDue(s, c, op, u, m);
    case Done(_, _) => HalfDue(s, c, op, u, m);
  }

  /** Thread c has been in one and the same round at all instants from `from` on, when it had just taken the lock. */
  ghost predicate InRound(s: State, run: seq<Sched>, c: nat, from: nat)
    requires Shape(s)
  {
    && from <= |run| && c < |Exec(s, run).th| && Combining(Exec(s, run).th[c].pc)
    && (if |run| == from then Exec(s, run).th[c].pc == Scan(0)
        else InRound(s, run[..|run| - 1], c, from) && (run[|run| - 1].tid == c ==> Exec(s, run[..|run| - 1]).th[c].pc != Unlock))
  }

  lemma StepDue(s: State, t: nat, op: Op, c: nat, u: nat, m: nat)
    requires Inv(s) && t < |s.th| && c < |s.th| && Combining(s.th[c].pc) && (t == c ==> s.th[c].pc != Unlock)
    requires Due(s, c, u, m) && m <= |Of(s.log, u)|
    ensures Due(Step(s, t, op), c, u, m)
  {
    if t == c { OwnDue(s, c, op, u, m); } else { OtherDue(s, t, op, c, u, m); }
  }

  lemma LogOnly(s: State, t: nat, op: Op, u: nat)
    requires Inv(s) && t < |s.th|
    ensures |Of(s.log, u)| <= |Of(Step(s, t, op).log, u)|
  {
    StepServes(s, t, op);
    var s' := Step(s, t, op);
    if s'.log != s.log {
      assert s'.log == s.log + [s'.log[|s.log|]];
      LogGrows(s.log, s'.log[|s.log|], u);
    }
  }

  lemma {:induction false} RoundDue(s: State, run: seq<Sched>, c: nat, from: nat, u: nat)
    requires Init(s) && from <= |run| && InRound(s, run, c, from) && Waits(Exec(s, run[..from]), u)
    ensures var m := |Of(Exec(s, run[..from]).log, u)|; Inv(Exec(s, run)) && Due(Exec(s, run), c, u, m) && m <= |Of(Exec(s, run).log, u)|
    decreases |run|
  {
    RunInv(s, run);
    if |run| == from {
      assert run[..from] == run;
    } else {
      var r, x := run[..|run| - 1], run[|run| - 1];
      assert r[..from] == run[..from];
      RoundDue(s, r, c, from, u);
      var y := Exec(s, r);
      if x.tid < |y.th| {
        StepDue(y, x.tid, x.op, c, u, |Of(Exec(s, run[..from]).log, u)|);
        LogOnly(y, x.tid, x.op, u);
      }
    }
  }

  /**
   * Helping, in every run: when a combiner comes to unlock, every call that was published and not yet applied when it took the
   * lock has been applied.
   */
  lemma RoundServesAll(s: State, run: seq<Sched>, c: nat, from: nat, u: nat)
    requires Init(s) && from <= |run| && InRound(s, run, c, from) && Exec(s, run).th[c].pc == Unlock && Waits(Exec(s, run[..from]), u)
    ensures |Of(Exec(s, run).log, u)| > |Of(Exec(s, run[..from]).log, u)|
  {
    RoundDue(s, run, c, from, u);
  }

  // ---------------------------------------------------------------- how far it is to the end of a round, and of a call

  function Length(T: Thread): nat { |T.left| + |T.right| }

  function FromLock(n: nat): nat { 4 * n + 5 }

  /** The steps of thread t to the end of its call, if it combines or the lock is free and stays so. */
  function Rank(s: State, t: nat): int
    requires Shape(s) && t < |s.th|
  {
    var n, T := |s.th|, s.th[t];
    match T.pc
    case Idle => 0
    case SetValue => FromLock(n) + 5
    case SetStatus => FromLock(n) + 4
    case Wait => if s.req[t].status == COMPLETE then 2 else FromLock(n) + 3
    case CheckLock => FromLock(n) + 2
    case TryLock => FromLock(n) + 1
    case Answer => 1
    case Scan(i) => 4 * (n - i) + 3 * Length(T) + 5
    case Apply(_, i) => 4 * (n - i) + 3 * Length(T) + 4
    case Complete(i) => 4 * (n - i) + 3 * Length(T) + 3
    case Serve(S, k) => ServeRank(T, S, k)
    case Store(S, k, _) => ServeRank(T, S, k) - 1
    case Done(S, k) => ServeRank(T, S, k) - 2
    case Unlock => 3
  }

  function ServeRank(T: Thread, S: Side, k: nat): int {
    if S == LeftSide then 3 * (|T.left| - k) + 3 * |T.right| + 5 else 3 * (|T.right| - k) + 4
  }

  /** Nobody else holds the lock. */
  ghost predicate Free(s: State, t: nat) { t < |s.th| && (s.lock == 0 || Combining(s.th[t].pc)) }

  lemma RankIsNat(s: State, t: nat)
    requires Inv(s) && t < |s.th|
    ensures Rank(s, t) >= 0 && (s.th[t].pc != Idle ==> Rank(s, t) > 0)
  {
    assert CombOk(s, t);
  }

  lemma WaitFalls(s: State, t: nat, op: Op)
    requires Inv(s) && Free(s, t) && !Combining(s.th[t].pc) && s.th[t].pc != Idle
    ensures var s' := Step(s, t, op); Free(s', t) && Rank(s', t) < Rank(s, t)
  {
  }

  lemma ScanFalls(s: State, t: nat, i: nat)
    requires Shape(s) && t < |s.th| && s.th[t].pc == Scan(i) && i < |s.th|
    ensures var s' := ScanStep(s, t, i); Shape(s') && |s'.th| == |s.th| && Combining(s'.th[t].pc) && Rank(s', t) < Rank(s, t)
  {
  }

  lemma ServeFalls(s: State, t: nat, S: Side, k: nat)
    requires Inv(s) && t < |s.th| && s.th[t].pc == Serve(S, k)
    ensures var s' := ServeStep(s, t, S, k); Shape(s') && |s'.th| == |s.th| && Combining(s'.th[t].pc) && Rank(s', t) < Rank(s, t)
  {
    assert CombOk(s, t);
  }

  lemma CombFalls(s: State, t: nat, op: Op)
    requires Inv(s) && t < |s.th| && Combining(s.th[t].pc)
    ensures var s' := Step(s, t, op); Free(s', t) && Rank(s', t) < Rank(s, t)
  {
    assert CombOk(s, t);
    match s.th[t].pc
    case Scan(i) => ScanFalls(s, t, i);
    case Serve(S, k) => ServeFalls(s, t, S, k);
    case Apply(_, _) | Complete(_) => PushFalls(s, t, op);
    case Store(_, _, _) | Done(_, _) => HalfFalls(s, t, op);
    case Unlock =>
  }

  lemma PushFalls(s: State, t: nat, op: Op)
    requires Inv(s) && t < |s.th| && (s.th[t].pc.Apply? || s.th[t].pc.Complete?)
    ensures var s' := Step(s, t, op); Free(s', t) && Rank(s', t) < Rank(s, t)
  {
    assert CombOk(s, t);
  }

  lemma HalfFalls(s: State, t: nat, op: Op)
    requires Inv(s) && t < |s.th| && (s.th[t].pc.Store? || s.th[t].pc.Done?)
    ensures var s' := Step(s, t, op); Free(s', t) && Rank(s', t) < Rank(s, t)
  {
    assert CombOk(s, t);
  }

  /** While the lock is free or its own, every step of a call brings its end nearer. */
  lemma RankFalls(s: State, t: nat, op: Op)
    requires Inv(s) && Free(s, t) && s.th[t].pc != Idle
    ensures var s' := Step(s, t, op); Free(s', t) && Rank(s', t) < Rank(s, t)
  {
    if Combining(s.th[t].pc) { CombFalls(s, t, op); } else { WaitFalls(s, t, op); }
  }

  /** What others do does not hold a combiner up. */
  lemma OtherRank(s: State, t: nat, op: Op, c: nat)
    requires Inv(s) && t < |s.th| && c < |s.th| && t != c && Combining(s.th[c].pc)
    ensures Rank(Step(s, t, op), c) == Rank(s, c)
  {
    assert !Combining(s.th[t].pc);
    OutsideOwnOnly(s, t, op);
  }

  /** How many of these steps are those of thread t. */
  function StepsBy(run: seq<Sched>, t: nat): nat {
    if run == [] then 0 else StepsBy(run[..|run| - 1], t) + (if run[|run| - 1].tid == t then 1 else 0)
  }

  lemma {:induction false} RoundFalls(s: State, run: seq<Sched>, c: nat, from: nat)
    requires Init(s) && from <= |run| && InRound(s, run, c, from)
    ensures Inv(Exec(s, run)) && Rank(Exec(s, run), c) + StepsBy(run[from..], c) <= FromLock(|s.th|)
    decreases |run|
  {
    RunInv(s, run);
    if |run| == from {
      assert run[from..] == [];
      StartRank(Exec(s, run), c);
    } else {
      var r, x := run[..|run| - 1], run[|run| - 1];
      RoundFalls(s, r, c, from);
      assert run[from..][..|run[from..]| - 1] == r[from..];
      var y := Exec(s, r);
      if x.tid < |y.th| {
        if x.tid == c { CombFalls(y, c, x.op); } else { OtherRank(y, x.tid, x.op, c); }
      }
    }
  }

  lemma {:induction false} FewBelow(us: seq<nat>, below: nat)
    requires Rising(us, below)
    ensures |us| <= below
  {
    if us != [] { FewBelow(us[..|us| - 1], us[|us| - 1]); }
  }

  lemma StartRank(z: State, c: nat)
    requires Inv(z) && c < |z.th| && z.th[c].pc == Scan(0)
    ensures Rank(z, c) <= FromLock(|z.th|)
  {
    assert CombOk(z, c);
    FewBelow(z.th[c].left, 0);
    FewBelow(z.th[c].right, 0);
  }

  /** A round is short: from taking the lock on, a combiner makes at most 4n + 2 steps before it unlocks, whatever the others do. */
  lemma RoundEnds(s: State, run: seq<Sched>, c: nat, from: nat)
    requires Init(s) && from <= |run| && InRound(s, run, c, from)
    ensures StepsBy(run[from..], c) <= 4 * |s.th| + 2
  {
    RoundFalls(s, run, c, from);
    CombRank(Exec(s, run), c);
  }

  lemma CombRank(s: State, c: nat)
    requires Inv(s) && c < |s.th| && Combining(s.th[c].pc)
    ensures Rank(s, c) >= 3
  {
    assert CombOk(s, c);
  }

  /** From run[..from] on only thread t has moved, always in one call. */
  ghost predicate Alone(s: State, run: seq<Sched>, t: nat, from: nat)
    requires Shape(s)
  {
    && from <= |run|
    && (|run| == from ||
          var p, x := Exec(s, run[..|run| - 1]), run[|run| - 1];
          Alone(s, run[..|run| - 1], t, from) && x.tid == t && t < |p.th| && p.th[t].pc != Idle)
  }

  lemma {:induction false} AloneFalls(s: State, run: seq<Sched>, t: nat, from: nat)
    requires Init(s) && from <= |run| && Alone(s, run, t, from) && Free(Exec(s, run[..from]), t)
    ensures var y, z := Exec(s, run[..from]), Exec(s, run); Free(z, t) && |run| - from + Rank(z, t) <= Rank(y, t)
    decreases |run|
  {
    if |run| == from {
      assert run[..from] == run;
    } else {
      var r, x := run[..|run| - 1], run[|run| - 1];
      assert r[..from] == run[..from];
      AloneFalls(s, r, t, from);
      RunInv(s, r);
      RankFalls(Exec(s, r), t, x.op);
    }
  }

  lemma RankBound(s: State, t: nat)
    requires Inv(s) && t < |s.th| && !Combining(s.th[t].pc)
    ensures Rank(s, t) <= 4 * |s.th| + 10
  {
  }

  /**
   * No thread waits for nobody: one that runs alone while the lock is free makes at most 4n + 10 steps before its call returns.
   */
  lemma ReturnsAlone(s: State, run: seq<Sched>, t: nat, from: nat)
    requires Init(s) && from <= |run| && Alone(s, run, t, from)
    requires var y := Exec(s, run[..from]); t < |y.th| && y.lock == 0
    ensures |run| - from <= 4 * |s.th| + 10
  {
    RunInv(s, run[..from]);
    RunInv(s, run);
    AloneFalls(s, run, t, from);
    RankBound(Exec(s, run[..from]), t);
    RankIsNat(Exec(s, run), t);
  }
}
