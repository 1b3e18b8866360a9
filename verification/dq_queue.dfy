/** The distributed queue: its backends are FIFO queues, and `get` finds the whole structure empty only if it was. */
module DQQueue {
  import opened DQMachine
  import opened DQInv
  import opened DQSteps

  // ---------------------------------------------------------------- each backend is a queue

  ghost predicate InBounds(s: State, b: nat) {
    && b < |s.order| && b < |s.head| && b < |s.tail| && s.head[b].tag <= s.tail[b].tag < |s.order[b]|
    && forall k :: 0 <= k < |s.order[b]| ==> 0 <= s.order[b][k] < |s.nodes|
  }

  ghost function Items(nodes: seq<Node>, l: seq<int>): seq<int>
    requires forall k :: 0 <= k < |l| ==> 0 <= l[k] < |nodes|
  {
    seq(|l|, k requires 0 <= k < |l| => nodes[l[k]].item)
  }

  /** The values behind the head, up to the tail: an enqueue takes effect when the tail reaches its node. */
  ghost function Contents(s: State, b: nat): seq<int>
    requires InBounds(s, b)
  {
    Items(s.nodes, s.order[b][s.head[b].tag + 1..s.tail[b].tag + 1])
  }

  lemma Bounds(s: State, b: nat)
    requires Inv(s) && b < |s.head|
    ensures InBounds(s, b)
  {
    assert BackOk(s, b);
    forall k | 0 <= k < |s.order[b]| ensures 0 <= s.order[b][k] < |s.nodes| { assert NodeAt(s, b, k); }
  }

  /** What a step of thread t did to backend b: nothing, one value added at the back, or one taken from the front as its answer. */
  ghost predicate Effect(s: State, s': State, t: nat, b: nat)
    requires InBounds(s, b) && InBounds(s', b) && t < |s'.th|
  {
    || Contents(s', b) == Contents(s, b)
    || (exists x :: Contents(s', b) == Contents(s, b) + [x])
    || (s'.th[t].op.Get? && s'.th[t].pc == Return(true) && s'.th[t].b == b && Contents(s, b) == [s'.th[t].item] + Contents(s', b))
  }

  lemma SwingEffect(s: State, t: nat, T': Thread)
    requires Inv(s) && t < |s.th| && Swings(s.th[t].pc) && LocalShape(s, s.th[t]) && s.tail[s.th[t].b] == s.th[t].tail
    requires InBounds(Tick(s, With(SwingTail(s, s.th[t], SwingTo(s.th[t])), t, T')), s.th[t].b)
    ensures var s' := Tick(s, With(SwingTail(s, s.th[t], SwingTo(s.th[t])), t, T'));
            var b := s.th[t].b; InBounds(s, b) && t < |s'.th| && Effect(s, s', t, b)
  {
    var b := s.th[t].b;
    Bounds(s, b);
    var s' := Tick(s, With(SwingTail(s, s.th[t], SwingTo(s.th[t])), t, T'));
    assert Contents(s', b) == Contents(s, b) + [s.nodes[s.order[b][s.th[t].tail.tag + 1]].item];
  }

  lemma TakeEffect(s: State, t: nat)
    requires Takes(s, t) && InBounds(Tick(s, GetStep(s, t)), s.th[t].b)
    ensures var s' := Tick(s, GetStep(s, t)); var b := s.th[t].b;
            InBounds(s, b) && t < |s'.th| && Effect(s, s', t, b)
  {
    var b := s.th[t].b;
    assert s.th[t].op.Get? by { assert ThreadOk(s, t); }
    TakeTarget(s, t);
    Bounds(s, b);
    FrontTaken(s, Tick(s, GetStep(s, t)), b);
  }

  lemma FrontTaken(s: State, s': State, b: nat)
    requires InBounds(s, b) && InBounds(s', b) && s'.nodes == s.nodes && s'.order == s.order && s'.tail == s.tail
    requires s.head[b].tag < s.tail[b].tag && s'.head[b].tag == s.head[b].tag + 1
    ensures Contents(s, b) == [s.nodes[s.order[b][s.head[b].tag + 1]].item] + Contents(s', b)
  {
    FrontItem(s.nodes, s.order[b], s.head[b].tag + 1, s.tail[b].tag + 1);
  }

  lemma FrontItem(nodes: seq<Node>, l: seq<int>, i: nat, j: nat)
    requires i < j <= |l| && forall k :: 0 <= k < |l| ==> 0 <= l[k] < |nodes|
    ensures Items(nodes, l[i..j]) == [nodes[l[i]].item] + Items(nodes, l[i + 1..j])
  {
  }

  lemma QuietEffect(s: State, s': State, b: nat)
    requires InBounds(s, b) && InBounds(s', b) && s'.head[b] == s.head[b] && s'.tail[b] == s.tail[b] && |s.nodes| <= |s'.nodes|
    requires |s.order[b]| <= |s'.order[b]| && forall k :: 0 <= k < |s.order[b]| ==> s'.order[b][k] == s.order[b][k]
    requires forall n :: 0 <= n < |s.nodes| ==> s'.nodes[n].item == s.nodes[n].item
    ensures Contents(s', b) == Contents(s, b)
  {
    assert s'.order[b][s.head[b].tag + 1..s.tail[b].tag + 1] == s.order[b][s.head[b].tag + 1..s.tail[b].tag + 1];
  }

  /** The steps that move neither a head nor a tail. */
  lemma Quiet(s: State, t: nat, op: Op, b: nat)
    requires Inv(s) && t < |s.th| && b < |s.head|
    requires !(Swings(s.th[t].pc) && s.th[t].b == b && s.tail[b] == s.th[t].tail)
    requires !(s.th[t].pc == GetTake && s.th[t].b == b && s.head[b] == s.th[t].head)
    ensures var s' := Step(s, t, op);
            && |s'.head| == |s.head| && |s'.tail| == |s.tail| && |s'.order| == |s.order|
            && s'.head[b] == s.head[b] && s'.tail[b] == s.tail[b] && |s.nodes| <= |s'.nodes|
            && |s.order[b]| <= |s'.order[b]| && (forall k :: 0 <= k < |s.order[b]| ==> s'.order[b][k] == s.order[b][k])
            && (forall n :: 0 <= n < |s.nodes| ==> s'.nodes[n].item == s.nodes[n].item)
  {
    assert LocalShape(s, s.th[t]);
  }

  lemma QuietStep(s: State, t: nat, op: Op, b: nat)
    requires Inv(s) && t < |s.th| && b < |s.head|
    requires !(Swings(s.th[t].pc) && s.th[t].b == b && s.tail[b] == s.th[t].tail)
    requires !(s.th[t].pc == GetTake && s.th[t].b == b && s.head[b] == s.th[t].head)
    requires InBounds(s, b) && InBounds(Step(s, t, op), b)
    ensures Contents(Step(s, t, op), b) == Contents(s, b)
  {
    Quiet(s, t, op, b);
    QuietEffect(s, Step(s, t, op), b);
  }

  lemma StepBounds(s: State, t: nat, op: Op, b: nat)
    requires Inv(s) && t < |s.th| && b < |s.head|
    ensures InBounds(s, b) && InBounds(Step(s, t, op), b) && |Step(s, t, op).th| == |s.th|
  {
    StepInv(s, t, op);
    Heads(s, t, op);
    Bounds(s, b);
    Bounds(Step(s, t, op), b);
  }

  /** Every step does to every backend nothing, one append at its tail, or one removal of its front value, the answer of the step's call. */
  lemma StepEffect(s: State, t: nat, op: Op, b: nat)
    requires Inv(s) && t < |s.th| && b < |s.head|
    ensures var s' := Step(s, t, op); InBounds(s, b) && InBounds(s', b) && |s'.th| == |s.th| && Effect(s, s', t, b)
  {
    var T := s.th[t];
    var s' := Step(s, t, op);
    assert LocalShape(s, T);
    StepBounds(s, t, op, b);
    if Swings(T.pc) && T.b == b && s.tail[b] == T.tail {
      SwingEffect(s, t, s'.th[t]);
    } else if Takes(s, t) && T.b == b {
      TakeEffect(s, t);
    } else {
      QuietStep(s, t, op, b);
    }
  }

  /** The last step of an enqueue leaves the tail beyond the node it saw as the last one. */
  lemma PutSwung(s: State, t: nat, op: Op)
    requires Inv(s) && t < |s.th| && s.th[t].pc == PutSwing
    ensures var s', T := Step(s, t, op), s.th[t];
            T.b < |s'.tail| == |s.tail| && s'.order == s.order && s'.tail[T.b].tag >= s.tail[T.b].tag && (s.tail[T.b] == T.tail ==> s'.tail[T.b].tag == T.tail.tag + 1)
  {
    assert LocalShape(s, s.th[t]);
  }

  /** An enqueue that returns has its value in the queue, or already taken from it: the tail has reached its node. */
  lemma PutVisible(s: State, t: nat, op: Op)
    requires Inv(s) && t < |s.th| && s.th[t].pc == PutSwing
    ensures var s' := Step(s, t, op); var b := s.th[t].b;
            b < |s'.tail| && b < |s'.order| && exists k :: 0 <= k <= s'.tail[b].tag && k < |s'.order[b]| && s'.order[b][k] == s.th[t].node
  {
    assert PutOk(s, t) by { assert ThreadOk(s, t); }
    PutSwung(s, t, op);
    assert s.order[s.th[t].b][s.th[t].tail.tag + 1] == s.th[t].node;
  }

  // ---------------------------------------------------------------- every run

  datatype Sched = Sched(tid: nat, op: Op)

  ghost function Exec(s: State, run: seq<Sched>): State {
    if run == [] then s
    else
      var p := Exec(s, run[..|run| - 1]);
      var x := run[|run| - 1];
      if Shape(p) && x.tid < |p.th| then Step(p, x.tid, x.op) else p
  }

  /** Any interleaving of steps of the threads. */
  ghost predicate Run(s: State, run: seq<Sched>) { forall k :: 0 <= k < |run| ==> run[k].tid < |s.th| }

  lemma InitInv(s: State)
    requires Init(s)
    ensures Inv(s) && AllEmpty(s)
  {
    forall t | 0 <= t < |s.th| ensures LocalShape(s, s.th[t]) {}
    forall b {:trigger BackOk(s, b)} | 0 <= b < |s.head| ensures BackOk(s, b) {}
    forall n {:trigger FreeOk(s, n)} | 0 <= n < |s.nodes| ensures FreeOk(s, n) {}
    forall t {:trigger ThreadOk(s, t)} | 0 <= t < |s.th| ensures ThreadOk(s, t) {}
  }

  /** `lastEmpty` is an instant of the run at which every head equalled its tail. */
  lemma {:induction false} RunInv(s: State, run: seq<Sched>)
    requires Init(s) && Run(s, run)
    ensures var z := Exec(s, run);
            Inv(z) && |z.th| == |s.th| && |z.head| == |s.head| && z.clock == |run| && z.lastEmpty <= |run| && AllEmpty(Exec(s, run[..z.lastEmpty]))
    decreases |run|
  {
    if run == [] {
      InitInv(s);
    } else {
      var r := run[..|run| - 1];
      RunInv(s, r);
      var p, z := Exec(s, r), Exec(s, run);
      var x := run[|run| - 1];
      StepInv(p, x.tid, x.op);
      Heads(p, x.tid, x.op);
      if z.lastEmpty == |run| { assert run[..z.lastEmpty] == run; } else { assert run[..z.lastEmpty] == r[..z.lastEmpty]; }
    }
  }

  lemma Heads(s: State, t: nat, op: Op)
    requires Inv(s) && t < |s.th|
    ensures |Step(s, t, op).head| == |s.head|
    ensures AllEmpty(Step(s, t, op)) <==> Step(s, t, op).lastEmpty == s.clock + 1
  {
    assert LocalShape(s, s.th[t]);
  }

  /** The instant at which thread t invoked its latest call. */
  ghost function InvokedAt(s: State, run: seq<Sched>, t: nat): nat {
    if run == [] then 0
    else
      var p, x := Exec(s, run[..|run| - 1]), run[|run| - 1];
      if x.tid == t && t < |p.th| && p.th[t].pc == Idle then |run| else InvokedAt(s, run[..|run| - 1], t)
  }

  lemma OwnBegan(s: State, t: nat, op: Op)
    requires Inv(s) && t < |s.th|
    ensures Step(s, t, op).th[t].began == if s.th[t].pc == Idle then s.clock + 1 else s.th[t].began
  {
    assert LocalShape(s, s.th[t]);
  }

  lemma OtherBegan(s: State, t: nat, op: Op, u: nat)
    requires Inv(s) && t < |s.th| && u < |s.th| && u != t
    ensures Step(s, t, op).th[u] == s.th[u]
  {
    assert LocalShape(s, s.th[t]);
  }

  lemma {:induction false} BeganIs(s: State, run: seq<Sched>, t: nat)
    requires Init(s) && Run(s, run) && t < |s.th|
    ensures t < |Exec(s, run).th| && Exec(s, run).th[t].began == InvokedAt(s, run, t)
    decreases |run|
  {
    RunInv(s, run);
    if run != [] {
      var r, x := run[..|run| - 1], run[|run| - 1];
      RunInv(s, r);
      BeganIs(s, r, t);
      if x.tid == t { OwnBegan(Exec(s, r), t, x.op); } else { OtherBegan(Exec(s, r), x.tid, x.op, t); }
    }
  }

  /** Double collect: `get` returns false only if at some instant inside the call every backend had its head equal to its tail. */
  lemma HonestEmpty(s: State, run: seq<Sched>, t: nat) returns (i: nat)
    requires Init(s) && Run(s, run) && t < |Exec(s, run).th| && Exec(s, run).th[t].pc == Return(false)
    ensures InvokedAt(s, run, t) <= i <= |run| && AllEmpty(Exec(s, run[..i]))
    ensures var y := Exec(s, run[..i]); forall b :: 0 <= b < |s.head| ==> InBounds(y, b) && Contents(y, b) == []
  {
    RunInv(s, run);
    BeganIs(s, run, t);
    var z := Exec(s, run);
    assert ThreadOk(z, t);
    i := z.lastEmpty;
    RunInv(s, run[..i]);
    var y := Exec(s, run[..i]);
    forall b | 0 <= b < |s.head| ensures InBounds(y, b) && Contents(y, b) == [] { Bounds(y, b); }
  }
}
