/** The sequential deque that the concurrent deques are measured against, and the account of what each call did. */
module DequeSpec {
  datatype Option<T> = None | Some(value: T)

  datatype Side = LeftSide | RightSide

  function Opp(S: Side): Side { if S == LeftSide then RightSide else LeftSide }

  function Dir(S: Side): int { if S == LeftSide then -1 else 1 }

  datatype Op = Push(side: Side, value: int) | Pop(side: Side)

  /** An effect on the deque, with the thread whose call had it. */
  datatype Event = Pushed(tid: nat, side: Side, value: int) | Popped(tid: nat, side: Side, value: int)

  /** A finished call with its answer; a pop that answers None found the deque empty. */
  datatype Call = Call(tid: nat, op: Op, result: Option<int>)

  function Add(S: Side, q: seq<int>, v: int): seq<int> { if S == LeftSide then [v] + q else q + [v] }

  /** One push or pop on a sequence; a pop must find its value at its own end. */
  function Apply(q: seq<int>, e: Event): Option<seq<int>> {
    match e
    case Pushed(_, LeftSide, v) => Some([v] + q)
    case Pushed(_, RightSide, v) => Some(q + [v])
    case Popped(_, LeftSide, v) => if q != [] && q[0] == v then Some(q[1..]) else None
    case Popped(_, RightSide, v) => if q != [] && q[|q| - 1] == v then Some(q[..|q| - 1]) else None
  }

  /** The deque after a sequence of effects, or None if they are not a run of a deque that starts empty. */
  function Replay(es: seq<Event>): Option<seq<int>> {
    if es == [] then Some([])
    else match Replay(es[..|es| - 1])
      case None => None
      case Some(q) => Apply(q, es[|es| - 1])
  }

  /** From q to q' by the effects reported: none, or exactly one push or pop. */
  ghost predicate Effect(q: seq<int>, q': seq<int>, events: seq<Event>) {
    if events == [] then q' == q
    else |events| == 1 && match events[0]
      case Pushed(_, S, v) => q' == Add(S, q, v)
      case Popped(_, S, v) => q == Add(S, q', v)
  }

  lemma EffectReplays(q: seq<int>, q': seq<int>, es: seq<Event>, new': seq<Event>)
    requires Replay(es) == Some(q) && Effect(q, q', new')
    ensures Replay(es + new') == Some(q')
  {
    if new' == [] {
      assert es + new' == es;
    } else {
      assert (es + new')[..|es + new'| - 1] == es;
      assert new' == [new'[0]];
      match new'[0]
      case Pushed(_, S, v) =>
      case Popped(_, S, v) =>
        if S == RightSide { assert q[..|q| - 1] == q'; } else { assert q[1..] == q'; }
    }
  }

  // ---------------------------------------------------------------- each call has its effect exactly once

  function EventsOf(es: seq<Event>, t: nat): seq<Event> {
    if es == [] then [] else EventsOf(es[..|es| - 1], t) + (if es[|es| - 1].tid == t then [es[|es| - 1]] else [])
  }

  /** The effect a finished call must have had. */
  function EffectOf(c: Call): seq<Event> {
    match c.op
    case Push(S, v) => [Pushed(c.tid, S, v)]
    case Pop(S) => if c.result.Some? then [Popped(c.tid, S, c.result.value)] else []
  }

  function EffectsOf(cs: seq<Call>, t: nat): seq<Event> {
    if cs == [] then [] else EffectsOf(cs[..|cs| - 1], t) + (if cs[|cs| - 1].tid == t then EffectOf(cs[|cs| - 1]) else [])
  }

  /** The operations of the finished calls of thread t, in order. */
  function OpsOf(cs: seq<Call>, t: nat): seq<Op> {
    if cs == [] then [] else OpsOf(cs[..|cs| - 1], t) + (if cs[|cs| - 1].tid == t then [cs[|cs| - 1].op] else [])
  }

  lemma AddOps(cs: seq<Call>, new': seq<Call>, t: nat, u: nat)
    requires new' == [] || (|new'| == 1 && new'[0].tid == t)
    ensures OpsOf(cs + new', u) == OpsOf(cs, u) + (if u == t && new' != [] then [new'[0].op] else [])
  {
    if new' == [] {
      assert cs + new' == cs;
    } else {
      assert new' == [new'[0]];
      assert (cs + new')[..|cs + new'| - 1] == cs;
    }
  }

  /** A step of thread t that begins its call, finishes it or does neither keeps `invoked` what it has invoked. */
  lemma StepInvoked(invoked: seq<Op>, cs: seq<Call>, new': seq<Call>, t: nat, u: nat, now: seq<Op>, now': seq<Op>, begun: seq<Op>)
    requires invoked == OpsOf(cs, u) + now && (new' == [] || (|new'| == 1 && new'[0].tid == t))
    requires if u == t then (if new' == [] then [] else [new'[0].op]) + now' == now + begun else now' == now && begun == []
    ensures invoked + begun == OpsOf(cs + new', u) + now'
  {
    AddOps(cs, new', t, u);
    Regroup(OpsOf(cs, u), if u == t && new' != [] then [new'[0].op] else [], now, now', begun);
  }

  lemma Regroup(a: seq<Op>, done: seq<Op>, now: seq<Op>, now': seq<Op>, begun: seq<Op>)
    requires done + now' == now + begun
    ensures a + now + begun == a + done + now'
  {
    assert a + now + begun == a + (now + begun);
    assert a + done + now' == a + (done + now');
  }

  function Pending(lin: Option<Event>): seq<Event> { if lin.Some? then [lin.value] else [] }

  function Effects(cs: seq<Call>): seq<Event> { if cs == [] then [] else EffectOf(cs[0]) }

  /** The effects of thread t are those of its finished calls, in order and each once, plus that of its current call. */
  ghost predicate Accounted(events: seq<Event>, calls: seq<Call>, t: nat, lin: Option<Event>) {
    EventsOf(events, t) == EffectsOf(calls, t) + Pending(lin)
  }

  /** A call that is still running has had no effect yet; one that is about to answer has had exactly its own. */
  ghost predicate AnswerOk(t: nat, op: Op, answered: bool, result: Option<int>, lin: Option<Event>) {
    if !answered then lin == None
    else if op.Push? then result == None && lin == Some(Pushed(t, op.side, op.value))
    else if result == None then lin == None
    else lin == Some(Popped(t, op.side, result.value))
  }

  lemma AddEvents(es: seq<Event>, new': seq<Event>, t: nat, u: nat)
    requires new' == [] || (|new'| == 1 && new'[0].tid == t)
    ensures EventsOf(es + new', u) == EventsOf(es, u) + (if u == t then new' else [])
  {
    if new' == [] {
      assert es + new' == es;
    } else {
      assert new' == [new'[0]];
      assert (es + new')[..|es + new'| - 1] == es;
    }
  }

  lemma AddCalls(cs: seq<Call>, new': seq<Call>, t: nat, u: nat)
    requires new' == [] || (|new'| == 1 && new'[0].tid == t)
    ensures EffectsOf(cs + new', u) == EffectsOf(cs, u) + (if u == t then Effects(new') else [])
  {
    if new' == [] {
      assert cs + new' == cs;
    } else {
      assert new' == [new'[0]];
      assert (cs + new')[..|cs + new'| - 1] == cs;
    }
  }

  /** A step of thread t that moves effects from `lin` to the finished calls, or adds one to `lin`, keeps every account. */
  lemma StepAccounted(es: seq<Event>, es': seq<Event>, cs: seq<Call>, cs': seq<Call>, t: nat, u: nat,
                      lin: Option<Event>, lin': Option<Event>, linU: Option<Event>)
    requires Accounted(es, cs, u, linU)
    requires es' == [] || (|es'| == 1 && es'[0].tid == t)
    requires cs' == [] || (|cs'| == 1 && cs'[0].tid == t)
    requires Effects(cs') + Pending(lin') == Pending(lin) + es'
    requires u == t ==> linU == lin
    ensures Accounted(es + es', cs + cs', u, if u == t then lin' else linU)
  {
    AddEvents(es, es', t, u);
    AddCalls(cs, cs', t, u);
    if u == t { Shift(EventsOf(es, t), EffectsOf(cs, t), Pending(lin), Pending(lin'), es', Effects(cs')); }
  }

  lemma Shift(e: seq<Event>, f: seq<Event>, p: seq<Event>, p': seq<Event>, n: seq<Event>, d: seq<Event>)
    requires e == f + p && d + p' == p + n
    ensures e + n == f + d + p'
  {
    assert f + (p + n) == f + p + n;
    assert f + (d + p') == f + d + p';
  }
}
