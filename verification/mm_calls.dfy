/** The calls of MMDeque.hpp's machine are those that were invoked, in order and with their own operations. */
module MMCalls {
  import opened DequeSpec
  import opened MMMachine
  import opened MMDeque

  /** The operations that thread t has invoked: those given to its steps from Idle. */
  function Invoked(s: State, run: seq<Sched>, t: nat): seq<Op> {
    if run == [] then []
    else
      var p, x := Exec(s, run[..|run| - 1]), run[|run| - 1];
      Invoked(s, run[..|run| - 1], t)
      + (if x.tid == t && t < |p.th| && p.th[t].pc == Idle && x.act.Invoke? then [x.act.op] else [])
  }

  /** The operation of a call that has not returned. */
  function Now(T: Thread): seq<Op> { if T.pc == Idle then [] else [T.op] }

  lemma PushOp(s: State, T: Thread, t: nat, a: Act)
    ensures PushStep(s, T, t, a).T.op == T.op && (T.pc != Idle ==> PushStep(s, T, t, a).T.pc != Idle) && PushStep(s, T, t, a).s.th == s.th
  {
  }

  lemma PopOp(s: State, T: Thread, t: nat, a: Act)
    ensures PopStep(s, T, t, a).T.op == T.op && (T.pc != Idle ==> PopStep(s, T, t, a).T.pc != Idle) && PopStep(s, T, t, a).s.th == s.th
  {
  }

  lemma StabOp(s: State, T: Thread, t: nat, a: Act)
    ensures StabStep(s, T, t, a).T.op == T.op && (T.pc != Idle ==> StabStep(s, T, t, a).T.pc != Idle) && StabStep(s, T, t, a).s.th == s.th
  {
    if T.pc.Stab? { StabCases(s, T, t, a); }
  }

  lemma ScanOp(s: State, T: Thread, t: nat)
    ensures RetireStep(s, T, t).T.op == T.op && (T.pc != Idle ==> RetireStep(s, T, t).T.pc != Idle) && RetireStep(s, T, t).s.th == s.th
    ensures ScanStep(s, T, t).T.op == T.op && (T.pc != Idle ==> ScanStep(s, T, t).T.pc != Idle) && ScanStep(s, T, t).s.th == s.th
  {
  }

  /** A running call keeps its operation; only the step from `Return` ends it. */
  lemma MicroOp(s: State, t: nat, a: Act)
    requires t < |s.th|
    ensures var T, o := s.th[t], Micro(s, t, a);
            o.s.th == s.th && (T.pc != Idle ==> o.T.op == T.op && (o.T.pc == Idle <==> T.pc.Return?))
  {
    var T := s.th[t];
    match T.pc
    case Alloc | ReadPush | CasFirst | InitLink | CasPush => PushOp(s, T, t, a);
    case ReadPop | CasLast | PopReserve0 | PopReserve1 | PopCheck | PopPrev | CasPop | TakeData => PopOp(s, T, t, a);
    case Retire | Scan(_, _) => ScanOp(s, T, t);
    case Clear(_, _) | Idle | Return(_) =>
    case Stab(_, _) => StabOp(s, T, t, a);
  }

  lemma StepCall(s: State, t: nat, a: Act)
    requires CanStep(s, t, a)
    ensures Step(s, t, a).th == s.th[t := Step(s, t, a).th[t]]
    ensures var T, T', new' := s.th[t], Step(s, t, a).th[t], Finished(s.th[t], t);
            (if new' == [] then [] else [new'[0].op]) + Now(T') == Now(T) + (if T.pc == Idle then [a.op] else [])
  {
    MicroOp(s, t, a);
  }

  /**
   * The calls are those that were invoked: in every run, the operations of the finished calls of a thread, with that of its
   * running call, are in order those it invoked.
   */
  lemma {:induction false} CallsAsInvoked(s: State, run: seq<Sched>, t: nat)
    requires Init(s) && Run(s, run) && t < |s.th|
    ensures var z := Exec(s, run); t < |z.th| && Invoked(s, run, t) == OpsOf(z.calls, t) + Now(z.th[t])
    decreases |run|
  {
    if run != [] {
      var r, x := run[..|run| - 1], run[|run| - 1];
      CallsAsInvoked(s, r, t);
      var y := Exec(s, r);
      StepCall(y, x.tid, x.act);
      StepCalls(y, x.tid, x.act);
      StepInvoked(Invoked(s, r, t), y.calls, Finished(y.th[x.tid], x.tid), x.tid, t, Now(y.th[t]), Now(Exec(s, run).th[t]),
                  if x.tid == t && y.th[t].pc == Idle then [x.act.op] else []);
    }
  }

  /**
   * Refinement of what was invoked: in every run the effects in order replay on a plain deque and end in its contents; the effects
   * of each thread are those of its finished calls, with the answers they returned, and of its running call once it has had its
   * effect; and the operations of these calls are, in order, those that the thread invoked.
   */
  lemma RefinesInvoked(s: State, run: seq<Sched>, t: nat)
    requires Init(s) && Run(s, run) && t < |s.th|
    ensures var z := Exec(s, run);
            && Replay(z.events) == Some(Abs(z))
            && t < |z.th| && Accounted(z.events, z.calls, t, z.th[t].lin) && OpsOf(z.calls, t) + Now(z.th[t]) == Invoked(s, run, t)
  {
    CallsAsInvoked(s, run, t);
    DequeRefined(s, run);
  }
}
