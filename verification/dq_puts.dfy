/** Every value that is put enters its backend exactly once, within the call that puts it. */
module DQPuts {
  import opened DQMachine
  import opened DQInv
  import opened DQSteps
  import opened DQQueue

  /** The node belongs to a put that has not returned. */
  ghost predicate Running(s: State, n: int) {
    0 <= n < |s.nodes| && s.nodes[n].owner < |s.th| && var T := s.th[s.nodes[n].owner]; T.op.Put? && T.pc != Idle && T.node == n
  }

  /** The tail of its backend has reached the node. */
  ghost predicate Entered(s: State, n: int) {
    && 0 <= n < |s.nodes| && 0 <= s.nodes[n].home < |s.order| && s.nodes[n].home < |s.tail|
    && exists k :: 0 <= k <= s.tail[s.nodes[n].home].tag && k < |s.order[s.nodes[n].home]| && s.order[s.nodes[n].home][k] == n
  }

  ghost predicate RunningOk(s: State, n: int)
    requires Running(s, n)
  {
    var T := s.th[s.nodes[n].owner];
    && s.nodes[n].item == T.op.item && |s.head| > 0 && T.b == T.op.index % |s.head| && !InGet(T.pc)
    && (s.nodes[n].home == -1 <==> Unlinked(T.pc)) && (s.nodes[n].home != -1 ==> s.nodes[n].home == T.b)
    && (T.pc.Return? ==> Entered(s, n))
  }

  /** The first nodes are the sentinels of the backends; every other one is that of a put, running or with its value in the backend. */
  ghost predicate PutNode(s: State, n: nat) {
    |s.head| <= n < |s.nodes| ==> if Running(s, n) then RunningOk(s, n) else Entered(s, n)
  }

  ghost predicate Caller(s: State, t: nat) {
    t < |s.th| && s.th[t].op.Put? && s.th[t].pc != Idle ==> |s.head| <= s.th[t].node < |s.nodes| && s.nodes[s.th[t].node].owner == t
  }

  ghost predicate Account(s: State) {
    && (forall n: nat {:trigger PutNode(s, n)} :: PutNode(s, n))
    && (forall t: nat {:trigger Caller(s, t)} :: Caller(s, t))
    && |s.order| == |s.head| <= |s.nodes| && (forall b :: 0 <= b < |s.order| ==> s.order[b] != [] && s.order[b][0] == b)
  }

  // ---------------------------------------------------------------- one step

  /** What a step of thread t leaves of the others, the lists and the nodes. */
  ghost predicate Frame(s: State, s': State, t: nat) {
    && t < |s.th| == |s'.th| && (forall u :: 0 <= u < |s.th| && u != t ==> s'.th[u] == s.th[u])
    && |s'.head| == |s.head| && |s'.order| == |s.order| && |s'.tail| == |s.tail| == |s.order| && |s.nodes| <= |s'.nodes|
    && (forall b :: 0 <= b < |s.order| ==> |s.order[b]| <= |s'.order[b]| && s.tail[b].tag <= s'.tail[b].tag
                                           && forall k :: 0 <= k < |s.order[b]| ==> s'.order[b][k] == s.order[b][k])
    && (forall n :: 0 <= n < |s.nodes| ==> s'.nodes[n].owner == s.nodes[n].owner && s'.nodes[n].item == s.nodes[n].item)
    && (forall n :: 0 <= n < |s.nodes| && n != s.th[t].node ==> s'.nodes[n].home == s.nodes[n].home)
  }

  lemma LinkFrame(s: State, t: nat)
    requires Links(s, t)
    ensures Frame(s, Tick(s, PutStep(s, t)), t)
    ensures var s', n := Tick(s, PutStep(s, t)), s.th[t].node;
            0 <= n < |s'.nodes| == |s.nodes| && s'.nodes[n].home == s.th[t].b && s'.th[t] == s.th[t].(pc := PutSwing)
  {
    LinkTarget(s, t);
  }

  /** Every other step of a running call leaves the homes of all nodes. */
  lemma QuietFrame(s: State, t: nat, op: Op)
    requires Inv(s) && t < |s.th| && s.th[t].pc != Idle && !(s.th[t].pc == PutLink && Links(s, t))
    ensures Frame(s, Step(s, t, op), t) && |Step(s, t, op).nodes| == |s.nodes|
    ensures forall n :: 0 <= n < |s.nodes| ==> Step(s, t, op).nodes[n].home == s.nodes[n].home
  {
    assert LocalShape(s, s.th[t]);
    if s.th[t].pc.Return? { assert Micro(s, t, op) == With(s, t, s.th[t].(pc := Idle)); }
    else if InGet(s.th[t].pc) { GetFrame(s, t); assert Micro(s, t, op) == GetStep(s, t); }
    else { PutFrame(s, t); assert Micro(s, t, op) == PutStep(s, t); }
  }

  lemma GetFrame(s: State, t: nat)
    requires Shape(s) && t < |s.th| && InGet(s.th[t].pc)
    ensures Frame(s, GetStep(s, t), t) && GetStep(s, t).nodes == s.nodes
  {
    assert LocalShape(s, s.th[t]);
  }

  lemma PutFrame(s: State, t: nat)
    requires Shape(s) && t < |s.th| && LocalShape(s, s.th[t]) && s.th[t].pc != Idle && !s.th[t].pc.Return? && !InGet(s.th[t].pc)
    requires s.th[t].pc == PutLink ==> s.nodes[s.th[t].tail.ptr].next != s.th[t].next
    ensures Frame(s, PutStep(s, t), t) && PutStep(s, t).nodes == s.nodes
  {
  }

  lemma InvokeFrame(s: State, t: nat, op: Op)
    requires Inv(s) && t < |s.th| && s.th[t].pc == Idle
    ensures Frame(s, Step(s, t, op), t)
    ensures forall n :: 0 <= n < |s.nodes| ==> Step(s, t, op).nodes[n] == s.nodes[n]
  {
  }

  lemma EnteredStays(s: State, s': State, t: nat, n: int)
    requires Frame(s, s', t) && Entered(s, n) && s'.nodes[n].home == s.nodes[n].home
    ensures Entered(s', n)
  {
    var b := s.nodes[n].home;
    var k :| 0 <= k <= s.tail[b].tag && k < |s.order[b]| && s.order[b][k] == n;
    assert s'.order[b][k] == n;
  }

  /** A node of another thread. */
  lemma OtherNode(s: State, s': State, t: nat, n: nat)
    requires Frame(s, s', t) && PutNode(s, n) && |s.head| <= n < |s.nodes| && s.nodes[n].owner != t && s'.nodes[n].home == s.nodes[n].home
    ensures PutNode(s', n)
  {
    if Entered(s, n) { EnteredStays(s, s', t, n); }
  }

  // The caller's own node, and the nodes it has left behind.

  lemma OwnInvoke(s: State, t: nat, op: Op, n: nat)
    requires Inv(s) && Account(s) && t < |s.th| && s.th[t].pc == Idle
    ensures PutNode(Step(s, t, op), n)
  {
    var s' := Step(s, t, op);
    InvokeFrame(s, t, op);
    if n < |s.nodes| {
      assert PutNode(s, n);
      if |s.head| <= n {
        if s.nodes[n].owner != t { OtherNode(s, s', t, n); } else { EnteredStays(s, s', t, n); }
      }
    }
  }

  lemma OwnLink(s: State, t: nat, op: Op, n: nat)
    requires Inv(s) && Account(s) && t < |s.th| && s.th[t].pc == PutLink && Links(s, t)
    ensures PutNode(Step(s, t, op), n)
  {
    var s' := Step(s, t, op);
    LinkFrame(s, t);
    assert PutNode(s, n) && ThreadOk(s, t);
    if |s.head| <= n < |s.nodes| && n != s.th[t].node {
      if s.nodes[n].owner != t { OtherNode(s, s', t, n); } else { EnteredStays(s, s', t, n); }
    }
  }

  /** A running call keeps its operation and its node. */
  lemma QuietSame(s: State, t: nat, op: Op)
    requires Inv(s) && t < |s.th| && s.th[t].pc != Idle && !(s.th[t].pc == PutLink && Links(s, t))
    ensures Step(s, t, op).th[t].op == s.th[t].op && Step(s, t, op).th[t].node == s.th[t].node
  {
    assert LocalShape(s, s.th[t]);
  }

  /** What a step of a put does to its locals. */
  lemma QuietLocals(s: State, t: nat, op: Op)
    requires Inv(s) && t < |s.th| && s.th[t].pc != Idle && !(s.th[t].pc == PutLink && Links(s, t))
    requires s.th[t].op.Put? && !InGet(s.th[t].pc)
    ensures var T, T' := s.th[t], Step(s, t, op).th[t];
            && T'.b == T.b && !InGet(T'.pc)
            && (T'.pc.Return? ==> T.pc == PutSwing)
            && (T'.pc == Idle ==> T.pc.Return?)
            && (T'.pc != Idle ==> (Unlinked(T'.pc) <==> Unlinked(T.pc)))
  {
    assert LocalShape(s, s.th[t]);
  }

  lemma OwnQuiet(s: State, t: nat, op: Op, n: nat)
    requires Inv(s) && Account(s) && t < |s.th| && s.th[t].pc != Idle && !(s.th[t].pc == PutLink && Links(s, t))
    ensures PutNode(Step(s, t, op), n)
  {
    var s' := Step(s, t, op);
    QuietFrame(s, t, op);
    QuietSame(s, t, op);
    assert PutNode(s, n);
    if s.th[t].op.Put? && !InGet(s.th[t].pc) { QuietLocals(s, t, op); }
    if |s.head| <= n < |s.nodes| {
      if s.nodes[n].owner != t { OtherNode(s, s', t, n); }
      else if Entered(s, n) { EnteredStays(s, s', t, n); }
      else if s.th[t].pc == PutSwing { SwingEnters(s, t, op); }
    }
  }

  /** When a put returns, the tail has reached its node. */
  lemma SwingEnters(s: State, t: nat, op: Op)
    requires Inv(s) && t < |s.th| && s.th[t].pc == PutSwing && 0 <= s.th[t].node < |s.nodes| && s.nodes[s.th[t].node].home == s.th[t].b
    ensures Entered(Step(s, t, op), s.th[t].node)
  {
    PutVisible(s, t, op);
    QuietFrame(s, t, op);
  }

  lemma FrameCaller(s: State, s': State, t: nat, u: nat)
    requires Frame(s, s', t) && Caller(s, u) && (u == t ==> s'.th[t].op == s.th[t].op && s'.th[t].node == s.th[t].node && s.th[t].pc != Idle)
    ensures Caller(s', u)
  {
  }

  lemma InvokeCaller(s: State, t: nat, op: Op)
    requires Inv(s) && |s.head| <= |s.nodes| && t < |s.th| && s.th[t].pc == Idle
    ensures Caller(Step(s, t, op), t)
  {
  }

  lemma StepCaller(s: State, t: nat, op: Op, u: nat)
    requires Inv(s) && Account(s) && t < |s.th| && Frame(s, Step(s, t, op), t)
    ensures Caller(Step(s, t, op), u)
  {
    assert Caller(s, u);
    if u == t && s.th[t].pc == Idle {
      InvokeCaller(s, t, op);
    } else {
      if s.th[t].pc == PutLink && Links(s, t) { LinkFrame(s, t); } else if s.th[t].pc != Idle { QuietSame(s, t, op); }
      FrameCaller(s, Step(s, t, op), t, u);
    }
  }

  lemma StepFrame(s: State, t: nat, op: Op)
    requires Inv(s) && t < |s.th|
    ensures Frame(s, Step(s, t, op), t)
  {
    assert LocalShape(s, s.th[t]);
    if s.th[t].pc == Idle { InvokeFrame(s, t, op); }
    else if s.th[t].pc == PutLink && Links(s, t) { LinkFrame(s, t); }
    else { QuietFrame(s, t, op); }
  }

  lemma StepAccount(s: State, t: nat, op: Op)
    requires Inv(s) && Account(s) && t < |s.th|
    ensures Account(Step(s, t, op)) && Frame(s, Step(s, t, op), t)
  {
    var s' := Step(s, t, op);
    StepFrame(s, t, op);
    forall n: nat {:trigger PutNode(s', n)} ensures PutNode(s', n) {
      if s.th[t].pc == Idle { OwnInvoke(s, t, op, n); }
      else if s.th[t].pc == PutLink && Links(s, t) { OwnLink(s, t, op, n); }
      else { OwnQuiet(s, t, op, n); }
    }
    forall u: nat {:trigger Caller(s', u)} ensures Caller(s', u) { StepCaller(s, t, op, u); }
  }

  // ---------------------------------------------------------------- every run

  lemma {:induction false} RunAccount(s: State, run: seq<Sched>)
    requires Init(s) && Run(s, run)
    ensures Inv(Exec(s, run)) && Account(Exec(s, run)) && |Exec(s, run).head| == |s.head| && |Exec(s, run).th| == |s.th|
    decreases |run|
  {
    RunInv(s, run);
    if run == [] {
      forall n: nat {:trigger PutNode(s, n)} ensures PutNode(s, n) {}
      forall t: nat {:trigger Caller(s, t)} ensures Caller(s, t) {}
    } else {
      var r := run[..|run| - 1];
      RunAccount(s, r);
      StepAccount(Exec(s, r), run[|run| - 1].tid, run[|run| - 1].op);
    }
  }

  /** No node is at two places of the backends. */
  ghost predicate NoRepeats(s: State) {
    && (forall b, j, k :: 0 <= b < |s.order| && 0 <= j < k < |s.order[b]| ==> s.order[b][j] != s.order[b][k])
    && (forall b, c, j, k :: 0 <= b < |s.order| && 0 <= c < |s.order| && b != c && 0 <= j < |s.order[b]| && 0 <= k < |s.order[c]| ==>
          s.order[b][j] != s.order[c][k])
  }

  lemma OnePlace(s: State)
    requires Inv(s)
    ensures NoRepeats(s)
  {
    forall b, c, j, k | 0 <= b < |s.order| && 0 <= c < |s.order| && b != c && 0 <= j < |s.order[b]| && 0 <= k < |s.order[c]|
      ensures s.order[b][j] != s.order[c][k]
    {
      assert BackOk(s, b) && BackOk(s, c);
      assert NodeAt(s, b, j) && NodeAt(s, c, k);
    }
    forall b, j, k | 0 <= b < |s.order| && 0 <= j < k < |s.order[b]| ensures s.order[b][j] != s.order[b][k] { assert BackOk(s, b); }
  }

  /**
   * Exactly once: a put that returns has its value in the backend it was balanced to; no node is in the backends twice; and
   * every node in a backend, beyond the sentinel, is that of one put, which is running or has entered it.
   */
  lemma PutsEnterOnce(s: State, run: seq<Sched>)
    requires Init(s) && Run(s, run)
    ensures var z := Exec(s, run);
            && NoRepeats(z) && |z.order| == |s.head|
            && (forall t :: 0 <= t < |z.th| && z.th[t].op.Put? && z.th[t].pc.Return? ==>
                  var n := z.th[t].node; Entered(z, n) && z.nodes[n].item == z.th[t].op.item && z.nodes[n].home == z.th[t].op.index % |s.head|)
            && (forall b, k :: 0 <= b < |z.order| && 0 < k < |z.order[b]| ==> Running(z, z.order[b][k]) || Entered(z, z.order[b][k]))
  {
    RunAccount(s, run);
    var z := Exec(s, run);
    OnePlace(z);
    forall t | 0 <= t < |z.th| && z.th[t].op.Put? && z.th[t].pc.Return?
      ensures var n := z.th[t].node; Entered(z, n) && z.nodes[n].item == z.th[t].op.item && z.nodes[n].home == z.th[t].op.index % |s.head|
    {
      assert Caller(z, t) && PutNode(z, z.th[t].node);
    }
    forall b, k | 0 <= b < |z.order| && 0 < k < |z.order[b]| ensures Running(z, z.order[b][k]) || Entered(z, z.order[b][k]) {
      NotSentinel(z, b, k);
      assert PutNode(z, z.order[b][k]);
    }
  }

  lemma SentinelHome(s: State, m: nat)
    requires Inv(s) && Account(s) && m < |s.head|
    ensures s.nodes[m].home == m
  {
    assert BackOk(s, m) && NodeAt(s, m, 0);
  }

  lemma NotSentinel(s: State, b: nat, k: nat)
    requires Inv(s) && Account(s) && b < |s.order| && 0 < k < |s.order[b]|
    ensures |s.head| <= s.order[b][k] < |s.nodes|
  {
    assert BackOk(s, b) && NodeAt(s, b, k);
    assert s.order[b][0] != s.order[b][k];
    forall m | 0 <= m < |s.head| ensures s.nodes[m].home == m { SentinelHome(s, m); }
  }

  /** A value that an advancing tail adds to a backend is that of a running put which was not in it before. */
  lemma AppendsPut(s: State, t: nat)
    requires Inv(s) && Account(s) && t < |s.th| && Swings(s.th[t].pc) && s.th[t].b < |s.head| && s.tail[s.th[t].b] == s.th[t].tail
    ensures var b := s.th[t].b;
            s.tail[b].tag + 1 < |s.order[b]| && var n := s.order[b][s.tail[b].tag + 1];
            Running(s, n) && !Entered(s, n) && s.nodes[n].item == s.th[s.nodes[n].owner].op.item
  {
    assert LocalShape(s, s.th[t]);
    SwingTarget(s, t);
    var b := s.th[t].b;
    NotSentinel(s, b, s.tail[b].tag + 1);
    var n := s.order[b][s.tail[b].tag + 1];
    assert PutNode(s, n) && BackOk(s, b) && NodeAt(s, b, s.tail[b].tag + 1);
  }
}
