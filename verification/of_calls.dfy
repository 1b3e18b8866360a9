/** The calls of OFDeque.hpp's machine are those that were invoked, in order and with their own operations. */
module OFCalls {
  import opened DequeSpec
  import opened OFHeap
  import opened OFMachine
  import opened OFDeque

  /** The operations that thread t has invoked: those given to its steps from Idle. */
  function Invoked(s: State, run: seq<Sched>, t: nat): seq<Op> {
    if run == [] then []
    else
      var p, x := Exec(s, run[..|run| - 1]), run[|run| - 1];
      Invoked(s, run[..|run| - 1], t)
      + (if x.tid == t && t < |p.th| && p.th[t].pc == Idle && x.act.Invoke? then [x.act.op] else [])
  }

  /** The operation of a call that has not returned. */
  function Now(T: Thread): seq<Op> { if T.pc == Idle then [] else [T.op] }

  lemma StepCall(s: State, t: nat, a: Act)
    requires CanStep(s, t, a)
    ensures var T, T', new' := s.th[t], Step(s, t, a).th[t], Finished(s.th[t], t);
            (if new' == [] then [] else [new'[0].op]) + Now(T') == Now(T) + (if T.pc == Idle then [a.op] else [])
  {
    if s.th[t].pc.Target? { HitCall(s.h, s.th[t], t, s.th[t].pc.kind, a); }
  }

  lemma HitCall(h: Heap, T: Thread, t: nat, k: Kind, a: Act)
    ensures Hit(h, T, t, k, a).T.op == T.op && Hit(h, T, t, k, a).T.pc != Idle
  {
  }

  /**
   * The calls are those that were invoked: in every run, the operations of the finished calls of a thread, with that of its
   * running call, are in order those it invoked.
   */
  lemma {:induction false} CallsAsInvoked(s: State, run: seq<Sched>, t: nat)
    requires Init(s) && Run(s, run) && t < |s.th|
    ensures var z := Exec(s, run); t < |z.th| && Invoked(s, run, t) == OpsOf(z.calls, t) + Now(z.th[t])
    decreases |run|
  {
    if run != [] {
      var r, x := run[..|run| - 1], run[|run| - 1];
      CallsAsInvoked(s, r, t);
      var y := Exec(s, r);
      StepCall(y, x.tid, x.act);
      StepInvoked(Invoked(s, r, t), y.calls, Finished(y.th[x.tid], x.tid), x.tid, t, Now(y.th[t]), Now(Exec(s, run).th[t]),
                  if x.tid == t && y.th[t].pc == Idle then [x.act.op] else []);
    }
  }

  /**
   * Refinement of what was invoked: in every run the effects in order replay on a plain deque and end in its contents; the effects
   * of each thread are those of its finished calls, with the answers they returned, and of its running call once it has had its
   * effect; and the operations of these calls are, in order, those that the thread invoked.
   */
  lemma RefinesInvoked(s: State, run: seq<Sched>, t: nat)
    requires Init(s) && Run(s, run) && t < |s.th|
    ensures var z := Exec(s, run);
            && Replay(z.events) == Some(Abs(z.h))
            && t < |z.th| && Accounted(z.events, z.calls, t, z.th[t].lin) && OpsOf(z.calls, t) + Now(z.th[t]) == Invoked(s, run, t)
  {
    CallsAsInvoked(s, run, t);
    DequeRefined(s, run);
  }
}
