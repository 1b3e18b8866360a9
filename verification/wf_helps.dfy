/** Helping: an enqueue that begins later does not return before an earlier one is linked, so nobody is overtaken for long. */
module WFHelps {
  import opened WFMachine
  import opened WFInv
  import opened WFSteps
  import opened WFQueue

  // ---------------------------------------------------------------- what a caller knows of the others' enqueues

  /** The thread has read the phase of v: its own is above that of v's enqueue, if that was published before the call began. */
  ghost predicate AbovePhase(s: State, T: Thread, v: nat)
    requires Shape(s) && v < |s.th|
  {
    T.pc != Idle && !(T.pc == MaxPhase && v >= T.i) && DescOf(s, v).node < T.start ==>
      if T.pc == MaxPhase then DescOf(s, v).phase <= T.phase else DescOf(s, v).phase < T.phase
  }

  /** The help loop has passed index v: v's enqueue is linked, if it was published before the call began. */
  ghost predicate HelpedOther(s: State, T: Thread, v: nat)
    requires Shape(s) && v < |s.th|
  {
    SelfDone(T, v) && 0 < DescOf(s, v).node < T.start ==> Linked(s, DescOf(s, v).node)
  }

  ghost predicate Knowing(s: State, u: nat, v: nat)
    requires Shape(s) && u < |s.th| && v < |s.th|
  {
    var T := s.th[u]; (T.pc != Idle ==> T.start <= |s.nodes|) && AbovePhase(s, T, v) && HelpedOther(s, T, v)
  }

  /** The descriptor of v keeps its node and its phase, unless v publishes a new one in this step. */
  lemma DescStep(s: State, t: nat, item: int, v: nat)
    requires Inv(s) && t < |s.th| && v < |s.th|
    ensures var s' := Step(s, t, item);
            && Shape(s') && |s'.th| == |s.th| && |s.nodes| <= |s'.nodes|
            && ((DescOf(s', v).node == DescOf(s, v).node && DescOf(s', v).phase == DescOf(s, v).phase)
                || (s.th[t].pc == Publish && v == t && DescOf(s', v) == Desc(s.th[t].phase, true, |s.nodes|)))
  {
    StepInv(s, t, item);
    assert LocalShape(s, s.th[t]);
    if Settles(s, t) { SettleTarget(s, t); }
  }

  lemma LinkedKept(s: State, t: nat, item: int, n: int)
    requires Inv(s) && t < |s.th| && Linked(s, n)
    ensures Linked(Step(s, t, item), n)
  {
    StepEvolves(s, t, item);
    var k :| 0 <= k < |s.order| && s.order[k] == n;
    assert Step(s, t, item).order[k] == n;
  }

  // When a call began and its phase do not change once they are fixed; and where the help loop passes index v.

  lemma CallLocals(s: State, t: nat, item: int)
    requires Shape(s) && t < |s.th| && BeforePublish(s.th[t].pc)
    ensures var T, T' := s.th[t], CallStep(s, t, item);
            && BeforePublish(T'.pc) && T'.start == (if T.pc == Idle then |s.nodes| else T.start)
            && (T.pc == Idle ==> T'.pc == MaxPhase && T'.i == 0) && (T.pc == ReadAba || T.pc == Publish ==> T'.phase == T.phase && T'.pc == Publish)
            && (T.pc == MaxPhase && T'.pc == MaxPhase ==> T'.i == T.i + 1) && (T.pc == MaxPhase && T'.pc != MaxPhase ==> T.i + 1 >= |s.th|)
            && (T.pc == MaxPhase ==> var p := if T'.pc == MaxPhase then T'.phase else T'.phase - 1;
                  T'.pc != Idle && p >= T.phase && (T.i < |s.th| ==> p >= DescOf(s, T.i).phase))
  {
    assert LocalShape(s, s.th[t]);
  }

  /** A later phase of the same call: nothing about the call has changed, and index v is passed only with reason. */
  ghost predicate GoesOn(s: State, T: Thread, T': Thread, v: nat)
    requires Shape(s) && v < |s.th|
  {
    && T'.start == T.start && T'.phase == T.phase && T'.pc != MaxPhase && (T'.pc == Idle ==> InFinish(T.pc) && T.ret == ToReturn)
    && (SelfDone(T', v) ==> SelfDone(T, v) || (T.i == v && Seeks(T.pc) && (!DescOf(s, v).pending || DescOf(s, v).phase > T.phase)))
  }

  lemma SeekLocals(s: State, t: nat, v: nat)
    requires Shape(s) && t < |s.th| && v < |s.th| && Seeks(s.th[t].pc)
    ensures GoesOn(s, s.th[t], SeekStep(s, t), v)
  {
    assert LocalShape(s, s.th[t]);
  }

  lemma LinkLocals(s: State, t: nat, v: nat)
    requires Shape(s) && t < |s.th| && v < |s.th| && InHelp(s.th[t].pc) && !Seeks(s.th[t].pc)
    ensures GoesOn(s, s.th[t], LinkStep(s, t), v)
  {
    assert LocalShape(s, s.th[t]);
  }

  lemma FinishLocals(s: State, t: nat, v: nat)
    requires Shape(s) && t < |s.th| && v < |s.th| && InFinish(s.th[t].pc)
    ensures GoesOn(s, s.th[t], FinishStep(s, t), v)
  {
    var T := s.th[t];
    assert LocalShape(s, T);
    ReturnGoesOn(s, T, v);
    if T.pc == FinNext { ReturnGoesOn(s, T.(next := s.nodes[T.tail.ptr].next), v); }
  }

  lemma ReturnGoesOn(s: State, T: Thread, v: nat)
    requires Shape(s) && v < |s.th| && InFinish(T.pc)
    ensures GoesOn(s, T, FinReturn(T, |s.th|), v)
  {
  }

  lemma LocalGoesOn(s: State, t: nat, item: int, v: nat)
    requires Shape(s) && t < |s.th| && v < |s.th| && !BeforePublish(s.th[t].pc)
    ensures GoesOn(s, s.th[t], LocalStep(s, t, item), v)
  {
    if Seeks(s.th[t].pc) { SeekLocals(s, t, v); } else if InHelp(s.th[t].pc) { LinkLocals(s, t, v); } else { FinishLocals(s, t, v); }
  }

  /** The step of a published call. */
  lemma StepGoesOn(s: State, t: nat, item: int, v: nat)
    requires Inv(s) && t < |s.th| && v < |s.th| && !BeforePublish(s.th[t].pc)
    ensures GoesOn(s, s.th[t], Step(s, t, item).th[t], v) || (Links(s, t) && s.th[t].i == v && Step(s, t, item).th[t] == s.th[t].(pc := FinTail, ret := ToHelp))
    ensures Step(s, t, item).th[t].start == s.th[t].start
  {
    assert LocalShape(s, s.th[t]);
    if Swings(s, t) { ReturnGoesOn(s, s.th[t], v); }
    else if !Links(s, t) && !Settles(s, t) { LocalGoesOn(s, t, item, v); }
  }

  lemma OtherKnows(s: State, t: nat, item: int, u: nat, v: nat)
    requires Inv(s) && t < |s.th| && u < |s.th| && v < |s.th| && u != t && Knowing(s, u, v)
    ensures Shape(Step(s, t, item)) && |Step(s, t, item).th| == |s.th| && Knowing(Step(s, t, item), u, v)
  {
    DescStep(s, t, item, v);
    StepFrame(s, t, item);
    if Linked(s, DescOf(s, v).node) { LinkedKept(s, t, item, DescOf(s, v).node); }
  }

  /** Before it publishes, a thread reads the phases one by one. */
  lemma EarlyKnows(s: State, t: nat, item: int, v: nat)
    requires Inv(s) && t < |s.th| && v < |s.th| && Knowing(s, t, v) && BeforePublish(s.th[t].pc) && s.th[t].pc != Publish
    ensures Shape(Step(s, t, item)) && |Step(s, t, item).th| == |s.th| && Knowing(Step(s, t, item), t, v)
  {
    StepInv(s, t, item);
    EarlyAbove(s, t, item, v);
    assert Step(s, t, item) == Move(s, t, CallStep(s, t, item));
  }

  lemma EarlyAbove(s: State, t: nat, item: int, v: nat)
    requires Shape(s) && t < |s.th| && v < |s.th| && Knowing(s, t, v) && BeforePublish(s.th[t].pc) && s.th[t].pc != Publish
    ensures var T' := CallStep(s, t, item); AbovePhase(s, T', v) && !SelfDone(T', v) && T'.start <= |s.nodes|
  {
    CallLocals(s, t, item);
    if s.th[t].pc == MaxPhase { PhaseRead(s, s.th[t], CallStep(s, t, item), v); }
  }

  /** One turn of the loop of `max_phase` from T to T'. */
  lemma PhaseRead(s: State, T: Thread, T': Thread, v: nat)
    requires Shape(s) && v < |s.th| && T.pc == MaxPhase && AbovePhase(s, T, v) && T.i < |s.th|
    requires T'.start == T.start && var p := if T'.pc == MaxPhase then T'.phase else T'.phase - 1; p >= T.phase && p >= DescOf(s, T.i).phase
    requires if T'.pc == MaxPhase then T'.i == T.i + 1 else T.i + 1 >= |s.th|
    ensures AbovePhase(s, T', v)
  {
  }

  lemma PublishKnows(s: State, t: nat, item: int, v: nat)
    requires Inv(s) && t < |s.th| && v < |s.th| && Knowing(s, t, v) && s.th[t].pc == Publish
    ensures Shape(Step(s, t, item)) && |Step(s, t, item).th| == |s.th| && Knowing(Step(s, t, item), t, v)
  {
    DescStep(s, t, item, v);
  }

  /** Afterwards, the help loop passes index v when it finds v's enqueue done or of a later phase, or has linked it. */
  lemma LateKnows(s: State, t: nat, item: int, v: nat)
    requires Inv(s) && t < |s.th| && v < |s.th| && Knowing(s, t, v) && !BeforePublish(s.th[t].pc)
    ensures Shape(Step(s, t, item)) && |Step(s, t, item).th| == |s.th| && Knowing(Step(s, t, item), t, v)
  {
    var T, s' := s.th[t], Step(s, t, item);
    var n := DescOf(s, v).node;
    DescStep(s, t, item, v);
    StepGoesOn(s, t, item, v);
    if Links(s, t) {
      LinkTarget(s, t);
      assert s'.order[|s.order|] == T.toLink;
    }
    assert !DescOf(s, v).pending && n > 0 ==> Linked(s, n) by { assert DescOk(s, v); }
    if Linked(s, n) { LinkedKept(s, t, item, n); }
  }

  lemma OwnKnows(s: State, t: nat, item: int, v: nat)
    requires Inv(s) && t < |s.th| && v < |s.th| && Knowing(s, t, v)
    ensures Shape(Step(s, t, item)) && |Step(s, t, item).th| == |s.th| && Knowing(Step(s, t, item), t, v)
  {
    if s.th[t].pc == Publish { PublishKnows(s, t, item, v); }
    else if BeforePublish(s.th[t].pc) { EarlyKnows(s, t, item, v); }
    else { LateKnows(s, t, item, v); }
  }

  // ---------------------------------------------------------------- the calls of one thread

  /** The call of a node began before its node was made, and the thread's next call begins after it. */
  ghost predicate Began(s: State, n: nat) {
    0 < n < |s.nodes| && s.nodes[n].owner < |s.th| ==>
      var T := s.th[s.nodes[n].owner];
      && s.nodes[n].start <= n
      && (T.pc != Idle && BeforePublish(T.pc) ==> n < T.start)
      && (!BeforePublish(T.pc) ==> n <= T.node && 0 < T.node < |s.nodes| && T.start == s.nodes[T.node].start)
  }

  /** Of two nodes of one thread, the later one's call began after the earlier node was made. */
  ghost predicate InTurn(s: State, m: nat, n: nat) {
    0 < m < n < |s.nodes| && s.nodes[m].owner == s.nodes[n].owner ==> m < s.nodes[n].start
  }

  /** A finished call has left all enqueues linked that were published before it began. */
  ghost predicate Helped(s: State, m: int) { 0 < m < |s.nodes| && m in s.finished ==> forall n :: 0 < n < s.nodes[m].start ==> Linked(s, n) }

  ghost predicate Calls(s: State)
    requires Shape(s)
  {
    && (forall u: nat, v: nat {:trigger Knowing(s, u, v)} :: u < |s.th| && v < |s.th| ==> Knowing(s, u, v))
    && (forall n: nat {:trigger Began(s, n)} :: Began(s, n))
    && (forall m: nat, n: nat {:trigger InTurn(s, m, n)} :: InTurn(s, m, n))
    && (forall m {:trigger Helped(s, m)} :: Helped(s, m))
  }

  /** Every node is that of a finished call, or the one its owner's descriptor names. */
  lemma Known(s: State, n: nat)
    requires Inv(s) && History(s) && 0 < n < |s.nodes|
    ensures s.nodes[n].owner < |s.th|
    ensures n in s.finished ==> Linked(s, n)
    ensures n !in s.finished ==> Running(s, n) && DescOf(s, s.nodes[n].owner).node == n
  {
    assert WFQueue.CallOk(s, n);
    if Running(s, n) { assert OwnOk(s, s.nodes[n].owner, s.th[s.nodes[n].owner]) by { assert ThreadOk(s, s.nodes[n].owner); } }
  }

  /** When a call has come to its last part, every enqueue published before it began is linked. */
  lemma AllLinked(s: State, u: nat, n: nat)
    requires Inv(s) && History(s) && Calls(s) && u < |s.th| && InFinish(s.th[u].pc) && s.th[u].ret == ToReturn && 0 < n < s.th[u].start
    ensures Linked(s, n)
  {
    assert Knowing(s, u, 0);
    Known(s, n);
    assert Knowing(s, u, s.nodes[n].owner);
  }

  /** Only the last part of a call returns. */
  lemma ReturnsFrom(s: State, t: nat, item: int)
    requires Inv(s) && t < |s.th| && Returned(s.th[t], Step(s, t, item).th[t]) != []
    ensures InFinish(s.th[t].pc) && s.th[t].ret == ToReturn
  {
    StepGoesOn(s, t, item, t);
  }

  lemma StartStep(s: State, t: nat, item: int)
    requires Inv(s) && t < |s.th|
    ensures Step(s, t, item).th[t].start == if s.th[t].pc == Idle then |s.nodes| else s.th[t].start
    ensures s.th[t].pc == Publish ==> Step(s, t, item).nodes[|s.nodes|..] == [Node(s.th[t].item, t, Word(NULL, 0), s.th[t].start)]
    ensures BeforePublish(s.th[t].pc) && s.th[t].pc != Publish ==> Step(s, t, item).th[t].pc != Idle
  {
    if BeforePublish(s.th[t].pc) {
      CallLocals(s, t, item);
      if s.th[t].pc != Publish { assert Step(s, t, item) == Move(s, t, CallStep(s, t, item)); }
    } else {
      StepGoesOn(s, t, item, t);
    }
  }

  lemma BeganStep(s: State, t: nat, item: int, n: nat)
    requires Inv(s) && History(s) && Calls(s) && t < |s.th|
    ensures Began(Step(s, t, item), n)
  {
    var s' := Step(s, t, item);
    StepFrame(s, t, item);
    StartStep(s, t, item);
    assert Began(s, n) && Knowing(s, t, t);
    if 0 < n < |s.nodes| { assert SameCall(s.nodes[n], s'.nodes[n]); }
    if 0 < s.th[t].node < |s.nodes| { assert SameCall(s.nodes[s.th[t].node], s'.nodes[s.th[t].node]); }
    if s.th[t].pc == Publish { assert s'.nodes[|s.nodes|] == s'.nodes[|s.nodes|..][0]; }
    if 0 < n < |s.nodes| && s.nodes[n].owner < |s.th| && s.nodes[n].owner != t {
      var m := s.th[s.nodes[n].owner].node;
      if 0 < m < |s.nodes| { assert SameCall(s.nodes[m], s'.nodes[m]); }
    }
  }

  lemma InTurnStep(s: State, t: nat, item: int, m: nat, n: nat)
    requires Inv(s) && History(s) && Calls(s) && t < |s.th|
    ensures InTurn(Step(s, t, item), m, n)
  {
    var s' := Step(s, t, item);
    StepFrame(s, t, item);
    StartStep(s, t, item);
    if 0 < m < n < |s'.nodes| {
      assert SameCall(s.nodes[m], s'.nodes[m]);
      if n < |s.nodes| {
        assert SameCall(s.nodes[n], s'.nodes[n]) && InTurn(s, m, n);
      } else {
        assert s'.nodes[n] == s'.nodes[|s.nodes|..][0];
        assert Began(s, m);
      }
    }
  }

  lemma HelpedStep(s: State, t: nat, item: int, m: int)
    requires Inv(s) && History(s) && Calls(s) && t < |s.th|
    ensures Helped(Step(s, t, item), m)
  {
    var s' := Step(s, t, item);
    StepFrame(s, t, item);
    if 0 < m < |s'.nodes| && m in s'.finished {
      forall n | 0 < n < s'.nodes[m].start ensures Linked(s', n) {
        if m in s.finished {
          assert Helped(s, m) && SameCall(s.nodes[m], s'.nodes[m]);
        } else {
          ReturnsFrom(s, t, item);
          assert s.th[t].node == m && Running(s, m) && Began(s, m) && SameCall(s.nodes[m], s'.nodes[m]);
          AllLinked(s, t, n);
        }
        LinkedKept(s, t, item, n);
      }
    }
  }

  lemma CallsStep(s: State, t: nat, item: int)
    requires Inv(s) && History(s) && Calls(s) && t < |s.th|
    ensures Shape(Step(s, t, item)) && Calls(Step(s, t, item))
  {
    var s' := Step(s, t, item);
    StepInv(s, t, item);
    forall u: nat, v: nat {:trigger Knowing(s', u, v)} | u < |s'.th| && v < |s'.th| ensures Knowing(s', u, v) {
      assert Knowing(s, u, v);
      if u == t { OwnKnows(s, t, item, v); } else { OtherKnows(s, t, item, u, v); }
    }
    forall n: nat {:trigger Began(s', n)} ensures Began(s', n) { BeganStep(s, t, item, n); }
    forall m: nat, n: nat {:trigger InTurn(s', m, n)} ensures InTurn(s', m, n) { InTurnStep(s, t, item, m, n); }
    forall m {:trigger Helped(s', m)} ensures Helped(s', m) { HelpedStep(s, t, item, m); }
  }

  // ---------------------------------------------------------------- bounded overtaking

  /** The nodes of the first k places of the list that were published after n. */
  ghost function Later(s: State, k: nat, n: int): set<int>
    requires k <= |s.order|
  {
    Above(s.order[..k], n)
  }

  ghost function Above(l: seq<int>, n: int): set<int> { set m | m in l && m > n }

  /** Nodes of different owners. */
  lemma {:induction false} OnePerOwner(nodes: seq<Node>, ms: set<int>, k: nat)
    requires forall m :: m in ms ==> 0 <= m < |nodes| && nodes[m].owner < k
    requires forall m, n :: m in ms && n in ms && m != n ==> nodes[m].owner != nodes[n].owner
    ensures |ms| <= k
    decreases k
  {
    if k == 0 {
      assert forall m :: m !in ms;
    } else if m :| m in ms && nodes[m].owner == k - 1 {
      OnePerOwner(nodes, ms - {m}, k - 1);
    } else {
      OnePerOwner(nodes, ms, k - 1);
    }
  }

  /** Of each thread, one node of a call that began before n was published is linked before n at most, and one of a later call. */
  lemma OneEach(s: State, n: nat, m: nat, m': nat)
    requires Inv(s) && History(s) && Calls(s) && 0 < n < m < m' < |s.nodes| && !Linked(s, n)
    requires s.nodes[m].start <= n <==> s.nodes[m'].start <= n
    ensures s.nodes[m].owner != s.nodes[m'].owner
  {
    Known(s, m);
    assert InTurn(s, m, m') && Began(s, m') && Helped(s, m);
  }

  lemma NotLinkedYet(s: State, n: nat, k: nat)
    requires Inv(s) && History(s) && Calls(s) && 0 < n < |s.nodes| && !Linked(s, n) && k <= |s.order|
    ensures |Later(s, k, n)| <= 2 * |s.th|
  {
    var all := Later(s, k, n);
    forall m | m in all ensures 0 < m < |s.nodes| && s.nodes[m].owner < |s.th| {
      var j :| 0 <= j < k && s.order[j] == m;
      assert NodeAt(s, j);
    }
    var old' := set m | m in all && s.nodes[m].start <= n;
    var new' := all - old';
    forall x, y | x in all && y in all && x != y && (x in old' <==> y in old') ensures s.nodes[x].owner != s.nodes[y].owner {
      if x < y { OneEach(s, n, x, y); } else { OneEach(s, n, y, x); }
    }
    OnePerOwner(s.nodes, old', |s.th|);
    OnePerOwner(s.nodes, new', |s.th|);
    assert all == old' + new';
  }

  /** No node is overtaken, linked or not, by more than two later ones of each thread. */
  ghost predicate Bounded(s: State, n: nat, k: nat) {
    0 < n < |s.nodes| && k <= |s.order| && n !in s.order[..k] ==> |Later(s, k, n)| <= 2 * |s.th|
  }

  /** A step does not change what comes before a node that it finds or leaves in the list. */
  lemma SameBefore(s: State, t: nat, item: int, n: nat, k: nat)
    requires Inv(s) && t < |s.th| && Inv(Step(s, t, item)) && Linked(Step(s, t, item), n) && k <= |Step(s, t, item).order| && n !in Step(s, t, item).order[..k]
    ensures k <= |s.order| && n < |s.nodes| && Step(s, t, item).order[..k] == s.order[..k]
  {
    var s' := Step(s, t, item);
    StepLinks(s, t, item);
    var j :| 0 <= j < |s'.order| && s'.order[j] == n;
    assert k <= j;
    if j < |s.order| { assert NodeAt(s, j); }
  }

  lemma BoundedStep(s: State, t: nat, item: int, n: nat, k: nat)
    requires Inv(s) && History(s) && t < |s.th| && Bounded(s, n, k)
    requires var s' := Step(s, t, item); Inv(s') && History(s') && Calls(s') && |s'.th| == |s.th|
    ensures Bounded(Step(s, t, item), n, k)
  {
    var s' := Step(s, t, item);
    if 0 < n < |s'.nodes| && k <= |s'.order| && n !in s'.order[..k] {
      if Linked(s', n) { SameBefore(s, t, item, n, k); } else { NotLinkedYet(s', n, k); }
    }
  }

  // ---------------------------------------------------------------- every run

  lemma {:induction false} RunCalls(s: State, run: seq<Sched>)
    requires Init(s)
    ensures var z := Exec(s, run);
            Inv(z) && History(z) && |z.th| == |s.th| && Calls(z) && forall n: nat, k: nat {:trigger Bounded(z, n, k)} :: Bounded(z, n, k)
    decreases |run|
  {
    RunInv(s, run);
    RunHistory(s, run);
    if run == [] {
      InitCalls(s);
    } else {
      var p, x := run[..|run| - 1], run[|run| - 1];
      RunCalls(s, p);
      if x.tid < |s.th| {
        var y, z := Exec(s, p), Exec(s, run);
        CallsStep(y, x.tid, x.item);
        forall n: nat, k: nat {:trigger Bounded(z, n, k)} ensures Bounded(z, n, k) {
          assert Bounded(y, n, k);
          BoundedStep(y, x.tid, x.item, n, k);
        }
      }
    }
  }

  lemma InitCalls(s: State)
    requires Init(s) && Inv(s)
    ensures Calls(s) && forall n: nat, k: nat {:trigger Bounded(s, n, k)} :: Bounded(s, n, k)
  {
    forall u: nat, v: nat {:trigger Knowing(s, u, v)} | u < |s.th| && v < |s.th| ensures Knowing(s, u, v) {}
    forall n: nat {:trigger Began(s, n)} ensures Began(s, n) {}
    forall m: nat, n: nat {:trigger InTurn(s, m, n)} ensures InTurn(s, m, n) {}
    forall n: nat, k: nat {:trigger Bounded(s, n, k)} ensures Bounded(s, n, k) {}
  }

  /** The instant before thread t began its latest call. */
  ghost function BeganAt(s: State, run: seq<Sched>, t: nat): (i: nat)
    ensures i <= |run|
  {
    if run == [] then 0
    else
      var p, x := Exec(s, run[..|run| - 1]), run[|run| - 1];
      if x.tid == t && t < |p.th| && p.th[t].pc == Idle then |run| - 1 else BeganAt(s, run[..|run| - 1], t)
  }

  lemma {:induction false} StartIs(s: State, run: seq<Sched>, t: nat)
    requires Init(s) && t < |s.th|
    ensures var z := Exec(s, run); t < |z.th| && (z.th[t].pc != Idle ==> z.th[t].start == |Exec(s, run[..BeganAt(s, run, t)]).nodes|)
    decreases |run|
  {
    RunInv(s, run);
    if run != [] {
      var r, x := run[..|run| - 1], run[|run| - 1];
      StartIs(s, r, t);
      RunInv(s, r);
      assert run[..BeganAt(s, r, t)] == r[..BeganAt(s, r, t)];
      if x.tid < |s.th| {
        StartStep(Exec(s, r), x.tid, x.item);
        StepFrame(Exec(s, r), x.tid, x.item);
      }
    }
  }

  /** Helping: an enqueue returns only after every enqueue is linked that had been published when it began. */
  lemma ReturnHelps(s: State, run: seq<Sched>, t: nat, item: int)
    requires Init(s) && t < |Exec(s, run).th| && Shape(Exec(s, run)) && Returned(Exec(s, run).th[t], Step(Exec(s, run), t, item).th[t]) != []
    ensures var y, z := Exec(s, run[..BeganAt(s, run, t)]), Exec(s, run); forall n :: 0 < n < |y.nodes| ==> n < |z.nodes| && Linked(z, n)
  {
    RunCalls(s, run);
    var z := Exec(s, run);
    ReturnsFrom(z, t, item);
    StartIs(s, run, t);
    assert Knowing(z, t, t);
    forall n | 0 < n < z.th[t].start ensures Linked(z, n) { AllLinked(z, t, n); }
  }

  /**
   * Bounded overtaking, in every run: before an enqueue is linked, or before its place once it is, there are at most two
   * later enqueues of each thread.
   */
  lemma BoundedOvertaking(s: State, run: seq<Sched>, n: nat, k: nat)
    requires Init(s) && 0 < n < |Exec(s, run).nodes| && k <= |Exec(s, run).order| && n !in Exec(s, run).order[..k]
    ensures |Later(Exec(s, run), k, n)| <= 2 * |s.th|
  {
    RunCalls(s, run);
    assert Bounded(Exec(s, run), n, k);
  }
}
