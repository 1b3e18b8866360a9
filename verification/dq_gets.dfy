/** Every value that a backend has held is the answer of at most one get, and of exactly one once the head has passed it. */
module DQGets {
  import opened DQMachine
  import opened DQInv
  import opened DQSteps
  import opened DQQueue
  import opened DQPuts

  /** Thread `tid` has moved a head onto the node, whose item is the answer of its get. */
  datatype Taken = Taken(tid: nat, node: int, item: int)

  datatype Answer = Answer(tid: nat, item: int)

  ghost function TakenBy(s: State, t: nat): seq<Taken> {
    if Takes(s, t) && 0 <= s.th[t].next.ptr < |s.nodes| then [Taken(t, s.th[t].next.ptr, s.nodes[s.th[t].next.ptr].item)] else []
  }

  /** A get that returns true gives its answer. */
  function AnsweredBy(s: State, t: nat): seq<Answer> {
    if t < |s.th| && s.th[t].pc == Return(true) && s.th[t].op.Get? then [Answer(t, s.th[t].item)] else []
  }

  /** All takings of a run in their order. */
  ghost function Takings(s: State, run: seq<Sched>): seq<Taken> {
    if run == [] then [] else Takings(s, run[..|run| - 1]) + TakenBy(Exec(s, run[..|run| - 1]), run[|run| - 1].tid)
  }

  /** The answers of all gets that have returned true, in their order. */
  ghost function Answers(s: State, run: seq<Sched>): seq<Answer> {
    if run == [] then [] else Answers(s, run[..|run| - 1]) + AnsweredBy(Exec(s, run[..|run| - 1]), run[|run| - 1].tid)
  }

  function TakenItems(l: seq<Taken>, t: nat): seq<int> {
    if l == [] then [] else TakenItems(l[..|l| - 1], t) + if l[|l| - 1].tid == t then [l[|l| - 1].item] else []
  }

  function AnswerItems(l: seq<Answer>, t: nat): seq<int> {
    if l == [] then [] else AnswerItems(l[..|l| - 1], t) + if l[|l| - 1].tid == t then [l[|l| - 1].item] else []
  }

  /** The answer that a get is about to return. */
  function Pending(T: Thread): seq<int> { if T.pc == Return(true) && T.op.Get? then [T.item] else [] }

  // ---------------------------------------------------------------- nodes behind a head

  /** The head of backend b has passed place k. */
  ghost predicate Behind(s: State, b: nat, k: nat) { b < |s.order| && b < |s.head| && 1 <= k <= s.head[b].tag && k < |s.order[b]| }

  ghost predicate TookIt(s: State, x: Taken) {
    && 0 <= x.node < |s.nodes| && x.item == s.nodes[x.node].item
    && exists b: nat, k: nat {:trigger Behind(s, b, k)} :: Behind(s, b, k) && s.order[b][k] == x.node
  }

  ghost predicate Listed(l: seq<Taken>, n: int) { exists j :: 0 <= j < |l| && l[j].node == n }

  /** The nodes taken are those behind the heads, each once. */
  ghost predicate TakenOk(s: State, l: seq<Taken>) {
    && (forall j :: 0 <= j < |l| ==> TookIt(s, l[j]))
    && (forall i, j :: 0 <= i < j < |l| ==> l[i].node != l[j].node)
    && (forall b: nat, k: nat {:trigger Behind(s, b, k)} :: Behind(s, b, k) ==> Listed(l, s.order[b][k]))
  }

  /** Only a taking moves a head, by one node. */
  lemma HeadMoves(s: State, t: nat, op: Op, b: nat)
    requires Inv(s) && t < |s.th| && b < |s.head|
    ensures |Step(s, t, op).head| == |s.head|
    ensures Step(s, t, op).head[b] == if Takes(s, t) && s.th[t].b == b then Word(s.th[t].next.ptr, s.th[t].head.tag + 1) else s.head[b]
  {
    assert LocalShape(s, s.th[t]);
  }

  lemma BehindStays(s: State, s': State, t: nat, b: nat, k: nat)
    requires Frame(s, s', t) && Behind(s, b, k) && s'.head[b].tag >= s.head[b].tag
    ensures Behind(s', b, k) && s'.order[b][k] == s.order[b][k]
  {
  }

  lemma StillTaken(s: State, t: nat, op: Op, x: Taken)
    requires Inv(s) && t < |s.th| && TookIt(s, x)
    ensures TookIt(Step(s, t, op), x)
  {
    StepFrame(s, t, op);
    var b: nat, k: nat :| Behind(s, b, k) && s.order[b][k] == x.node;
    HeadMoves(s, t, op, b);
    if Takes(s, t) { TakeTarget(s, t); }
    BehindStays(s, Step(s, t, op), t, b, k);
  }

  /** The node of a taking was behind no head before. */
  lemma TakesNew(s: State, t: nat, x: Taken)
    requires Takes(s, t) && TookIt(s, x)
    ensures x.node != s.th[t].next.ptr
  {
    TakeTarget(s, t);
    OnePlace(s);
    var b: nat, k: nat :| Behind(s, b, k) && s.order[b][k] == x.node;
    assert BackOk(s, b);
  }

  lemma TakesIt(s: State, t: nat, op: Op)
    requires Takes(s, t)
    ensures |TakenBy(s, t)| == 1 && TookIt(Step(s, t, op), TakenBy(s, t)[0])
  {
    var T, s' := s.th[t], Step(s, t, op);
    TakeTarget(s, t);
    StepFrame(s, t, op);
    HeadMoves(s, t, op, T.b);
    assert Behind(s', T.b, T.head.tag + 1);
  }

  lemma StillListed(s: State, t: nat, op: Op, l: seq<Taken>, b: nat, k: nat)
    requires Inv(s) && t < |s.th| && TakenOk(s, l) && Behind(Step(s, t, op), b, k)
    ensures Listed(l + TakenBy(s, t), Step(s, t, op).order[b][k])
  {
    var s', l' := Step(s, t, op), l + TakenBy(s, t);
    StepFrame(s, t, op);
    HeadMoves(s, t, op, b);
    assert BackOk(s, b);
    if k <= s.head[b].tag {
      assert Behind(s, b, k);
      var j :| 0 <= j < |l| && l[j].node == s.order[b][k];
      assert l'[j] == l[j];
    } else {
      TakeTarget(s, t);
      assert l'[|l|].node == s.order[b][k];
    }
  }

  lemma TakenStep(s: State, t: nat, op: Op, l: seq<Taken>)
    requires Inv(s) && t < |s.th| && TakenOk(s, l)
    ensures TakenOk(Step(s, t, op), l + TakenBy(s, t))
  {
    var s', l' := Step(s, t, op), l + TakenBy(s, t);
    if Takes(s, t) { TakesIt(s, t, op); }
    forall j | 0 <= j < |l'| ensures TookIt(s', l'[j]) { if j < |l| { StillTaken(s, t, op, l[j]); } }
    forall i, j | 0 <= i < j < |l'| ensures l'[i].node != l'[j].node { if j == |l| { TakesNew(s, t, l[i]); } }
    forall b: nat, k: nat {:trigger Behind(s', b, k)} | Behind(s', b, k) ensures Listed(l', s'.order[b][k]) { StillListed(s, t, op, l, b, k); }
  }

  // ---------------------------------------------------------------- the answers of each thread

  /** A thread that works on a put was invoked with one. */
  ghost predicate OpOk(T: Thread) { T.pc == Idle || T.pc.Return? || T.op.Put? || InGet(T.pc) }

  ghost predicate AnswersOk(s: State, l: seq<Taken>, r: seq<Answer>) {
    forall t {:trigger s.th[t]} :: 0 <= t < |s.th| ==> OpOk(s.th[t]) && TakenItems(l, t) == AnswerItems(r, t) + Pending(s.th[t])
  }

  lemma TakenAdd(l: seq<Taken>, x: Taken, t: nat)
    ensures TakenItems(l + [x], t) == TakenItems(l, t) + if x.tid == t then [x.item] else []
  {
    assert (l + [x])[..|l + [x]| - 1] == l;
  }

  lemma AnswerAdd(r: seq<Answer>, x: Answer, t: nat)
    ensures AnswerItems(r + [x], t) == AnswerItems(r, t) + if x.tid == t then [x.item] else []
  {
    assert (r + [x])[..|r + [x]| - 1] == r;
  }

  /** How the pending answer of the stepping thread changes. */
  lemma PendingStep(s: State, t: nat, op: Op)
    requires Inv(s) && t < |s.th| && OpOk(s.th[t])
    ensures var T' := Step(s, t, op).th[t];
            && OpOk(T')
            && if Takes(s, t) then Pending(s.th[t]) == [] && AnsweredBy(s, t) == [] && |TakenBy(s, t)| == 1 && Pending(T') == [TakenBy(s, t)[0].item]
               else if AnsweredBy(s, t) != [] then TakenBy(s, t) == [] && AnsweredBy(s, t) == [Answer(t, s.th[t].item)] && Pending(T') == [] && Pending(s.th[t]) == [s.th[t].item]
               else TakenBy(s, t) == [] && Pending(T') == [] == Pending(s.th[t])
  {
    assert LocalShape(s, s.th[t]) && PassOk(s, t) by { assert ThreadOk(s, t); }
    if Takes(s, t) { TakeTarget(s, t); }
  }

  lemma AnswersStep(s: State, t: nat, op: Op, l: seq<Taken>, r: seq<Answer>)
    requires Inv(s) && t < |s.th| && AnswersOk(s, l, r)
    ensures AnswersOk(Step(s, t, op), l + TakenBy(s, t), r + AnsweredBy(s, t))
  {
    var s' := Step(s, t, op);
    StepFrame(s, t, op);
    PendingStep(s, t, op);
    assert l + [] == l && r + [] == r;
    forall u {:trigger s'.th[u]} | 0 <= u < |s'.th|
      ensures OpOk(s'.th[u]) && TakenItems(l + TakenBy(s, t), u) == AnswerItems(r + AnsweredBy(s, t), u) + Pending(s'.th[u])
    {
      assert OpOk(s.th[u]);
      if TakenBy(s, t) != [] {
        assert TakenBy(s, t) == [TakenBy(s, t)[0]];
        TakenAdd(l, TakenBy(s, t)[0], u);
      }
      if AnsweredBy(s, t) != [] { AnswerAdd(r, AnsweredBy(s, t)[0], u); }
    }
  }

  // ---------------------------------------------------------------- every run

  lemma {:induction false} RunGets(s: State, run: seq<Sched>)
    requires Init(s) && Run(s, run)
    ensures TakenOk(Exec(s, run), Takings(s, run)) && AnswersOk(Exec(s, run), Takings(s, run), Answers(s, run))
    decreases |run|
  {
    if run != [] {
      var p, x := run[..|run| - 1], run[|run| - 1];
      RunInv(s, p);
      RunGets(s, p);
      TakenStep(Exec(s, p), x.tid, x.op, Takings(s, p));
      AnswersStep(Exec(s, p), x.tid, x.op, Takings(s, p), Answers(s, p));
    }
  }

  /**
   * Exactly once: in every run no node is taken twice, the nodes taken are those behind the heads, each taking has the item of
   * its node, and the takings of each thread are the answers of its gets, together with the one that is about to return.
   */
  lemma GetsTakeOnce(s: State, run: seq<Sched>)
    requires Init(s) && Run(s, run)
    ensures var z, l := Exec(s, run), Takings(s, run);
            && (forall i, j :: 0 <= i < j < |l| ==> l[i].node != l[j].node)
            && (forall b: nat, k: nat {:trigger Behind(z, b, k)} :: Behind(z, b, k) ==> Listed(l, z.order[b][k]))
            && (forall j :: 0 <= j < |l| ==> TookIt(z, l[j]))
            && (forall t :: 0 <= t < |z.th| ==> TakenItems(l, t) == AnswerItems(Answers(s, run), t) + Pending(z.th[t]))
  {
    RunGets(s, run);
  }
}
