/** The queue holds the arguments of `enqueue`: those of each thread in the order of its calls. */
module WFArgs {
  import opened WFMachine
  import opened WFInv
  import opened WFSteps
  import opened WFQueue

  /** The arguments that thread t has passed to `enqueue`: those given to its steps from Idle. */
  ghost function Arguments(s: State, run: seq<Sched>, t: nat): seq<int> {
    if run == [] then []
    else
      var p, x := Exec(s, run[..|run| - 1]), run[|run| - 1];
      Arguments(s, run[..|run| - 1], t) + (if x.tid == t && t < |p.th| && p.th[t].pc == Idle then [x.item] else [])
  }

  /** The items of the nodes of thread t among the first k places of the queue, in their order. */
  ghost function Queued(s: State, t: nat, k: nat): seq<int>
    requires k <= |s.order|
  {
    if k <= 1 then []
    else
      var n := s.order[k - 1];
      Queued(s, t, k - 1) + (if 0 <= n < |s.nodes| && s.nodes[n].owner == t then [s.nodes[n].item] else [])
  }

  /** The argument of a call whose node is not in the queue yet. */
  ghost function Outside(s: State, t: nat): seq<int>
    requires t < |s.th|
  {
    var T := s.th[t];
    if T.pc == Idle || (!BeforePublish(T.pc) && Linked(s, T.node)) then [] else [T.item]
  }

  /** The node of a published call has its argument. */
  ghost predicate ItemOk(s: State, t: nat) {
    t < |s.th| && !BeforePublish(s.th[t].pc) ==> 0 < s.th[t].node < |s.nodes| && s.nodes[s.th[t].node].item == s.th[t].item
  }

  // ---------------------------------------------------------------- one step

  // The argument is stored at the start of a call, and stays.

  lemma CallItem(s: State, t: nat, item: int)
    requires Shape(s) && t < |s.th| && BeforePublish(s.th[t].pc)
    ensures CallStep(s, t, item).item == if s.th[t].pc == Idle then item else s.th[t].item
  {
    assert LocalShape(s, s.th[t]);
  }

  lemma HelpItem(s: State, t: nat)
    requires Shape(s) && t < |s.th| && InHelp(s.th[t].pc)
    ensures Seeks(s.th[t].pc) ==> SeekStep(s, t).item == s.th[t].item
    ensures !Seeks(s.th[t].pc) ==> LinkStep(s, t).item == s.th[t].item
  {
    assert LocalShape(s, s.th[t]);
  }

  lemma FinishItem(s: State, t: nat)
    requires Shape(s) && t < |s.th| && InFinish(s.th[t].pc)
    ensures FinishStep(s, t).item == s.th[t].item
  {
    assert LocalShape(s, s.th[t]);
  }

  lemma LocalItem(s: State, t: nat, item: int)
    requires Shape(s) && t < |s.th|
    ensures LocalStep(s, t, item).item == if s.th[t].pc == Idle then item else s.th[t].item
  {
    if BeforePublish(s.th[t].pc) { CallItem(s, t, item); } else if InHelp(s.th[t].pc) { HelpItem(s, t); } else { FinishItem(s, t); }
  }

  lemma StepItem(s: State, t: nat, item: int)
    requires Inv(s) && t < |s.th|
    ensures Step(s, t, item).th[t].item == if s.th[t].pc == Idle then item else s.th[t].item
    ensures s.th[t].pc == Publish ==> Step(s, t, item).nodes[|s.nodes|..] == [Node(s.th[t].item, t, Word(NULL, 0), s.th[t].start)]
  {
    var T := s.th[t];
    assert LocalShape(s, T);
    if T.pc == Publish || Links(s, t) || Settles(s, t) || Swings(s, t) {
      assert T.pc != Idle;
    } else {
      LocalItem(s, t, item);
      assert Step(s, t, item) == Move(s, t, LocalStep(s, t, item));
    }
  }

  lemma ItemStep(s: State, t: nat, item: int, u: nat)
    requires Inv(s) && t < |s.th| && u < |s.th| && ItemOk(s, u)
    ensures ItemOk(Step(s, t, item), u)
  {
    var s' := Step(s, t, item);
    StepFrame(s, t, item);
    StepItem(s, t, item);
    if u != t || s.th[t].pc != Publish {
      if !BeforePublish(s.th[u].pc) { assert SameCall(s.nodes[s.th[u].node], s'.nodes[s.th[u].node]); }
    } else {
      assert s'.nodes[|s.nodes|] == s'.nodes[|s.nodes|..][0];
    }
  }

  /** A step leaves the items of the places that were filled. */
  lemma {:induction false} QueuedStays(s: State, t: nat, item: int, u: nat, k: nat)
    requires Inv(s) && t < |s.th| && k <= |s.order|
    ensures k <= |Step(s, t, item).order| && Queued(Step(s, t, item), u, k) == Queued(s, u, k)
    decreases k
  {
    StepEvolves(s, t, item);
    if k > 1 {
      QueuedStays(s, t, item, u, k - 1);
      StepFrame(s, t, item);
      assert NodeAt(s, k - 1);
      assert SameCall(s.nodes[s.order[k - 1]], Step(s, t, item).nodes[s.order[k - 1]]);
    }
  }

  /** Linking a node takes the argument of its call into the queue. */
  lemma LinkMoves(s: State, t: nat, item: int, u: nat)
    requires Inv(s) && History(s) && Links(s, t) && u < |s.th| && ItemOk(s, u)
    ensures var s' := Step(s, t, item);
            && |s'.order| == |s.order| + 1 && |s'.th| == |s.th|
            && Queued(s', u, |s'.order|) + Outside(s', u) == Queued(s, u, |s.order|) + Outside(s, u)
  {
    var n := s.th[t].toLink;
    LinkTarget(s, t);
    StepFrame(s, t, item);
    LinkQueue(s, t, item, u);
    LinkOutside(s, t, item, u);
    if u == s.nodes[n].owner { assert Outside(s, u) == [s.nodes[n].item] && Outside(Step(s, t, item), u) == []; }
  }

  lemma LinkQueue(s: State, t: nat, item: int, u: nat)
    requires Inv(s) && Links(s, t) && u < |s.th|
    ensures var s', n := Step(s, t, item), s.th[t].toLink;
            && 0 < n < |s.nodes| && |s'.order| == |s.order| + 1
            && Queued(s', u, |s'.order|) == Queued(s, u, |s.order|) + (if s.nodes[n].owner == u then [s.nodes[n].item] else [])
  {
    var s', n := Step(s, t, item), s.th[t].toLink;
    LinkTarget(s, t);
    StepFrame(s, t, item);
    QueuedStays(s, t, item, u, |s.order|);
    assert s'.order[|s.order|] == n && SameCall(s.nodes[n], s'.nodes[n]);
    LastQueued(s', u, |s.order|);
  }

  lemma LastQueued(s: State, u: nat, k: nat)
    requires 0 < k < |s.order| && 0 <= s.order[k] < |s.nodes|
    ensures Queued(s, u, k + 1) == Queued(s, u, k) + (if s.nodes[s.order[k]].owner == u then [s.nodes[s.order[k]].item] else [])
  {
  }

  lemma LinkOutside(s: State, t: nat, item: int, u: nat)
    requires Inv(s) && History(s) && Links(s, t) && u < |s.th| && ItemOk(s, u) && Frame(s, Step(s, t, item), t)
    requires 0 < s.th[t].toLink < |s.nodes| && s.nodes[s.th[t].toLink].owner < |s.th|
    ensures var n := s.th[t].toLink;
            if s.nodes[n].owner == u then Outside(s, u) == [s.nodes[n].item] && Outside(Step(s, t, item), u) == []
            else Outside(Step(s, t, item), u) == Outside(s, u)
  {
    var s', n := Step(s, t, item), s.th[t].toLink;
    LinkTarget(s, t);
    assert s'.order == s.order + [n] && s'.th[t].pc == FinTail && s'.th[t].item == s.th[t].item;
    LinkedMore(s, s', n);
    if u == s.nodes[n].owner {
      assert OwnOk(s, u, s.th[u]) by { assert ThreadOk(s, u); }
    } else if !BeforePublish(s.th[u].pc) {
      OtherOutside(s, u, n);
    }
  }

  lemma OtherOutside(s: State, u: nat, n: int)
    requires History(s) && u < |s.th| && 0 <= n < |s.nodes| && s.nodes[n].owner != u && !BeforePublish(s.th[u].pc)
    ensures s.th[u].node != n
  {
    assert Running(s, s.th[u].node) && s.nodes[s.th[u].node].owner == u;
  }

  lemma LinkedMore(s: State, s': State, n: int)
    requires s'.order == s.order + [n]
    ensures forall m :: Linked(s', m) <==> Linked(s, m) || m == n
  {
    assert s'.order[|s.order|] == n;
    forall m | Linked(s, m) ensures Linked(s', m) {
      var k :| 0 <= k < |s.order| && s.order[k] == m;
      assert s'.order[k] == m;
    }
  }

  /** Any other step leaves the queue, and a call that returns has its node in it. */
  lemma QuietMoves(s: State, t: nat, item: int, u: nat)
    requires Inv(s) && History(s) && t < |s.th| && u < |s.th| && Step(s, t, item).order == s.order
    ensures var s' := Step(s, t, item);
            && |s'.th| == |s.th|
            && Queued(s', u, |s'.order|) + Outside(s', u)
               == Queued(s, u, |s.order|) + Outside(s, u) + (if u == t && s.th[t].pc == Idle then [item] else [])
  {
    var s' := Step(s, t, item);
    StepFrame(s, t, item);
    QueuedStays(s, t, item, u, |s.order|);
    StepItem(s, t, item);
    if u == t { OwnOutside(s, t, item); }
    assert Outside(s', u) == Outside(s, u) + (if u == t && s.th[t].pc == Idle then [item] else []);
  }

  lemma OwnOutside(s: State, t: nat, item: int)
    requires Inv(s) && History(s) && t < |s.th| && Step(s, t, item).order == s.order && Frame(s, Step(s, t, item), t)
    ensures Outside(Step(s, t, item), t) == Outside(s, t) + (if s.th[t].pc == Idle then [item] else [])
  {
    var s' := Step(s, t, item);
    StepItem(s, t, item);
    if s.th[t].pc == Publish { NotYet(s); }
    if Returned(s.th[t], s'.th[t]) != [] { ReturnLinked(s, t, item); }
    if s.th[t].pc == Idle { IdleStays(s, t, item); }
  }

  lemma NotYet(s: State)
    requires Inv(s)
    ensures !Linked(s, |s.nodes|)
  {
    forall k | 0 <= k < |s.order| ensures s.order[k] < |s.nodes| { assert NodeAt(s, k); }
  }

  lemma IdleStays(s: State, t: nat, item: int)
    requires Shape(s) && t < |s.th| && s.th[t].pc == Idle
    ensures Step(s, t, item).th[t].pc != Idle && BeforePublish(Step(s, t, item).th[t].pc)
  {
  }

  lemma ReturnLinked(s: State, t: nat, item: int)
    requires Inv(s) && t < |s.th| && Returned(s.th[t], Step(s, t, item).th[t]) != [] && Step(s, t, item).order == s.order
    ensures Linked(s, s.th[t].node)
  {
    ReturnPassed(s, t, item);
  }

  lemma StepMoves(s: State, t: nat, item: int, u: nat)
    requires Inv(s) && History(s) && t < |s.th| && u < |s.th| && ItemOk(s, u)
    ensures var s' := Step(s, t, item);
            && |s'.th| == |s.th|
            && Queued(s', u, |s'.order|) + Outside(s', u)
               == Queued(s, u, |s.order|) + Outside(s, u) + (if u == t && s.th[t].pc == Idle then [item] else [])
  {
    assert LocalShape(s, s.th[t]);
    if Links(s, t) { LinkMoves(s, t, item, u); } else { QuietMoves(s, t, item, u); }
  }

  // ---------------------------------------------------------------- every run

  /**
   * In every run, the arguments that a thread has passed to `enqueue` are, in the order of its calls, the items of its nodes in
   * the order of the queue, and then that of its running call if its node is not in the queue yet.
   */
  lemma {:induction false} QueueHoldsArguments(s: State, run: seq<Sched>, t: nat)
    requires Init(s) && t < |s.th|
    ensures var z := Exec(s, run);
            t < |z.th| && ItemOk(z, t) && Arguments(s, run, t) == Queued(z, t, |z.order|) + Outside(z, t)
    decreases |run|
  {
    RunInv(s, run);
    if run != [] {
      var r, x := run[..|run| - 1], run[|run| - 1];
      QueueHoldsArguments(s, r, t);
      RunInv(s, r);
      RunHistory(s, r);
      if x.tid < |s.th| {
        StepMoves(Exec(s, r), x.tid, x.item, t);
        ItemStep(Exec(s, r), x.tid, x.item, t);
      }
    }
  }
}
