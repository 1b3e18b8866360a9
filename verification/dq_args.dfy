/** Each backend holds the items put into it: those of each thread in the order of its calls. */
module DQArgs {
  import opened DQMachine
  import opened DQInv
  import opened DQSteps
  import opened DQQueue
  import opened DQPuts

  // ---------------------------------------------------------------- what was invoked

  /** The items that thread t has put with an index that the n backends share out to backend b, in order. */
  ghost function Arguments(s: State, run: seq<Sched>, t: nat, b: nat): seq<int> {
    if run == [] then []
    else
      var p, x := Exec(s, run[..|run| - 1]), run[|run| - 1];
      Arguments(s, run[..|run| - 1], t, b) + Argument(p, x.tid, x.op, t, b)
  }

  /** The item that a step of thread `tid` adds to them. */
  ghost function Argument(p: State, tid: nat, op: Op, t: nat, b: nat): seq<int> {
    if tid == t && t < |p.th| && p.th[t].pc == Idle && op.Put? && |p.head| > 0 && op.index % |p.head| == b then [op.item] else []
  }

  /** The latest operation that thread t has invoked, if any. */
  ghost function Latest(s: State, run: seq<Sched>, t: nat): seq<Op> {
    if run == [] then []
    else
      var p, x := Exec(s, run[..|run| - 1]), run[|run| - 1];
      if x.tid == t && t < |p.th| && p.th[t].pc == Idle then [x.op] else Latest(s, run[..|run| - 1], t)
  }

  // ---------------------------------------------------------------- where the items are

  /** The items of the nodes of thread t among the first k places of backend b, in their order. */
  ghost function Stored(s: State, t: nat, b: nat, k: nat): seq<int>
    requires b < |s.order| && k <= |s.order[b]|
  {
    if k <= 1 then []
    else
      var n := s.order[b][k - 1];
      Stored(s, t, b, k - 1) + (if 0 <= n < |s.nodes| && s.nodes[n].owner == t then [s.nodes[n].item] else [])
  }

  /** The item of a running put whose node is not in the backend yet. */
  ghost function Outside(s: State, t: nat, b: nat): seq<int>
    requires t < |s.th|
  {
    if Unlinked(s.th[t].pc) && s.th[t].b == b then [s.th[t].item] else []
  }

  ghost function All(s: State, t: nat, b: nat): seq<int>
    requires b < |s.order| && t < |s.th|
  {
    Stored(s, t, b, |s.order[b]|) + Outside(s, t, b)
  }

  /** The node of a put that is not linked yet has its item. */
  ghost predicate ItemOk(s: State, t: nat) {
    t < |s.th| && Unlinked(s.th[t].pc) ==> 0 <= s.th[t].node < |s.nodes| && s.nodes[s.th[t].node].item == s.th[t].item
  }

  // ---------------------------------------------------------------- one step

  lemma {:induction false} StoredSame(s: State, s': State, t: nat, u: nat, b: nat, k: nat)
    requires Inv(s) && Frame(s, s', t) && b < |s.order| && k <= |s.order[b]|
    ensures k <= |s'.order[b]| && Stored(s', u, b, k) == Stored(s, u, b, k)
    decreases k
  {
    if k > 1 {
      StoredSame(s, s', t, u, b, k - 1);
      assert BackOk(s, b) && NodeAt(s, b, k - 1);
    }
  }

  lemma LastStored(s: State, u: nat, b: nat, k: nat)
    requires b < |s.order| && 0 < k < |s.order[b]| && 0 <= s.order[b][k] < |s.nodes|
    ensures Stored(s, u, b, k + 1) == Stored(s, u, b, k) + (if s.nodes[s.order[b][k]].owner == u then [s.nodes[s.order[b][k]].item] else [])
  {
  }

  lemma LinkOrder(s: State, t: nat, op: Op)
    requires Inv(s) && Links(s, t)
    ensures var T, s' := s.th[t], Step(s, t, op);
            && T.b < |s.order| && 0 <= T.node < |s.nodes| && s.nodes[T.node].owner == t && |s.order[T.b]| > 0
            && s'.order == s.order[T.b := s.order[T.b] + [T.node]]
  {
    assert LocalShape(s, s.th[t]);
    LinkTarget(s, t);
    assert BackOk(s, s.th[t].b);
  }

  lemma LinkStored(s: State, t: nat, op: Op, u: nat, b: nat)
    requires Inv(s) && Links(s, t) && u < |s.th| && b < |s.order| && ItemOk(s, t)
    ensures var s' := Step(s, t, op);
            && b < |s'.order| && |s'.th| == |s.th|
            && Stored(s', u, b, |s'.order[b]|) == Stored(s, u, b, |s.order[b]|) + (if u == t && s.th[t].b == b then [s.th[t].item] else [])
  {
    var s' := Step(s, t, op);
    LinkOrder(s, t, op);
    LinkFrame(s, t);
    StoredSame(s, s', t, u, b, |s.order[b]|);
    if s.th[t].b == b { LastStored(s', u, b, |s.order[b]|); }
  }

  lemma LinkAll(s: State, t: nat, op: Op, u: nat, b: nat)
    requires Inv(s) && Links(s, t) && u < |s.th| && b < |s.order| && ItemOk(s, t)
    ensures var s' := Step(s, t, op); b < |s'.order| && |s'.th| == |s.th| && All(s', u, b) == All(s, u, b)
  {
    LinkStored(s, t, op, u, b);
    LinkFrame(s, t);
  }

  lemma InvokeAll(s: State, t: nat, op: Op, u: nat, b: nat)
    requires Inv(s) && t < |s.th| && s.th[t].pc == Idle && u < |s.th| && b < |s.order|
    ensures var s' := Step(s, t, op);
            b < |s'.order| && |s'.th| == |s.th| && ItemOk(s', t) && All(s', u, b) == All(s, u, b) + Argument(s, t, op, u, b)
  {
    InvokeFrame(s, t, op);
    StoredSame(s, Step(s, t, op), t, u, b, |s.order[b]|);
    assert Step(s, t, op).order == s.order;
  }

  /** Another step of a put: its backend and item stay, and only the link takes it out of this phase. */
  lemma QuietOutside(s: State, t: nat, op: Op)
    requires Inv(s) && t < |s.th| && s.th[t].pc != Idle && !(s.th[t].pc == PutLink && Links(s, t))
    ensures var T, T' := s.th[t], Step(s, t, op).th[t];
            && (Unlinked(T'.pc) <==> Unlinked(T.pc)) && (Unlinked(T.pc) ==> T'.b == T.b && T'.item == T.item && T'.node == T.node)
    ensures Step(s, t, op).order == s.order
  {
    assert LocalShape(s, s.th[t]);
  }

  lemma QuietAll(s: State, t: nat, op: Op, u: nat, b: nat)
    requires Inv(s) && t < |s.th| && s.th[t].pc != Idle && !(s.th[t].pc == PutLink && Links(s, t)) && u < |s.th| && b < |s.order|
    ensures var s' := Step(s, t, op); b < |s'.order| && |s'.th| == |s.th| && All(s', u, b) == All(s, u, b)
  {
    QuietFrame(s, t, op);
    QuietOutside(s, t, op);
    StoredSame(s, Step(s, t, op), t, u, b, |s.order[b]|);
  }

  lemma StepAll(s: State, t: nat, op: Op, u: nat, b: nat)
    requires Inv(s) && t < |s.th| && u < |s.th| && b < |s.order| && ItemOk(s, t)
    ensures var s' := Step(s, t, op); b < |s'.order| && |s'.th| == |s.th| && All(s', u, b) == All(s, u, b) + Argument(s, t, op, u, b)
  {
    assert LocalShape(s, s.th[t]);
    if s.th[t].pc == Idle { InvokeAll(s, t, op, u, b); }
    else if s.th[t].pc == PutLink && Links(s, t) { LinkAll(s, t, op, u, b); }
    else { QuietAll(s, t, op, u, b); }
  }

  lemma ItemStep(s: State, t: nat, op: Op, u: nat)
    requires Inv(s) && t < |s.th| && u < |s.th| && ItemOk(s, u)
    ensures ItemOk(Step(s, t, op), u)
  {
    assert LocalShape(s, s.th[t]);
    StepFrame(s, t, op);
    if u == t {
      if s.th[t].pc == Idle { InvokeItem(s, t, op); }
      else if s.th[t].pc == PutLink && Links(s, t) { LinkFrame(s, t); }
      else { QuietOutside(s, t, op); }
    }
  }

  lemma InvokeItem(s: State, t: nat, op: Op)
    requires Inv(s) && t < |s.th| && s.th[t].pc == Idle
    ensures ItemOk(Step(s, t, op), t)
  {
  }

  /** A step keeps the operation of a running call. */
  lemma OpStep(s: State, t: nat, op: Op)
    requires Inv(s) && t < |s.th|
    ensures Step(s, t, op).th[t].op == if s.th[t].pc == Idle then op else s.th[t].op
  {
    assert LocalShape(s, s.th[t]);
  }

  // ---------------------------------------------------------------- every run

  /**
   * In every run, the items that a thread has put and the balancer has shared out to a backend are, in the order of its calls,
   * the items of its nodes in that backend, in their order, and then that of its running put if its node is not in it yet.
   */
  lemma {:induction false} PutsAsInvoked(s: State, run: seq<Sched>, t: nat, b: nat)
    requires Init(s) && Run(s, run) && t < |s.th| && b < |s.head|
    ensures var z := Exec(s, run);
            t < |z.th| && b < |z.order| && ItemOk(z, t) && Arguments(s, run, t, b) == Stored(z, t, b, |z.order[b]|) + Outside(z, t, b)
    decreases |run|
  {
    RunAccount(s, run);
    if run != [] {
      var r, x := run[..|run| - 1], run[|run| - 1];
      RunAccount(s, r);
      PutsAsInvoked(s, r, t, b);
      PutsAsInvoked(s, r, x.tid, b);
      StepAll(Exec(s, r), x.tid, x.op, t, b);
      ItemStep(Exec(s, r), x.tid, x.op, t);
    }
  }

  /** The operation of a running call is the latest that the thread has invoked. */
  lemma {:induction false} LatestIs(s: State, run: seq<Sched>, t: nat)
    requires Init(s) && Run(s, run) && t < |s.th|
    ensures var z := Exec(s, run); t < |z.th| && (z.th[t].pc != Idle ==> Latest(s, run, t) == [z.th[t].op])
    decreases |run|
  {
    RunAccount(s, run);
    if run != [] {
      var r, x := run[..|run| - 1], run[|run| - 1];
      RunAccount(s, r);
      LatestIs(s, r, t);
      OpStep(Exec(s, r), x.tid, x.op);
      StepFrame(Exec(s, r), x.tid, x.op);
    }
  }

  /** When a thread is in no call, the tail of each backend has reached all its nodes there. */
  lemma AllEntered(s: State, run: seq<Sched>, t: nat, b: nat, k: nat)
    requires Init(s) && Run(s, run) && t < |Exec(s, run).th| && b < |Exec(s, run).order| && 0 < k < |Exec(s, run).order[b]|
    requires var z := Exec(s, run); z.th[t].pc == Idle && 0 <= z.order[b][k] < |z.nodes| && z.nodes[z.order[b][k]].owner == t
    ensures b < |Exec(s, run).tail| && k <= Exec(s, run).tail[b].tag
  {
    RunAccount(s, run);
    var z := Exec(s, run);
    NotSentinel(z, b, k);
    assert PutNode(z, z.order[b][k]) && BackOk(z, b) && NodeAt(z, b, k);
  }

  /** A get begins at the backend that the balancer names. */
  lemma GetBegins(s: State, t: nat, start: nat)
    requires Inv(s) && t < |s.th| && s.th[t].pc == Idle
    ensures var s' := Step(s, t, Get(start)); t < |s'.th| && s'.th[t].pc == GetHead && s'.th[t].b == start % |s.head|
  {
    assert Step(s, t, Get(start)).th == Invoke(s, t, Get(start)).th;
  }
}
