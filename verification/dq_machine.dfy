/**
 * distributed_queue.h over the Michael-Scott queues of ms_queue.h, as a machine of threads: one step per atomic load or swap.
 * The balancer may name any backend. Nodes are not reused.
 */
module DQMachine {
  import opened Ring

  const NULL := -1

  /** TaggedValue: a pointer and a tag that every successful swap increases. */
  datatype Word = Word(ptr: int, tag: nat)

  /** `owner` and `home` are history: the thread that made the node, and the backend it is linked in (-1 before that). */
  datatype Node = Node(item: int, next: Word, owner: nat, home: int)

  datatype Op = Put(item: int, index: nat) | Get(start: nat)

  datatype PC =
    | Idle
    | PutTail | PutNext | PutCheck | PutLink | PutSwing | PutHelp
    | GetHead | GetTail | GetNext | GetCheck | GetHelp | GetTake
    | Recheck
    | Return(result: bool)

  /**
   * `b` is the backend at work, `i` the loop index of `get`, `tails` its array of tags, `item` the value to put or the value got.
   * `began` is history: when the call began.
   */
  datatype Thread = Thread(op: Op, pc: PC, b: nat, item: int, node: int, head: Word, tail: Word, next: Word,
                           start: nat, i: nat, tails: seq<int>, began: nat)

  /** History: `order[b]` lists the linked nodes of backend b; `lastEmpty` is the last instant at which every head equalled its tail. */
  datatype State = State(nodes: seq<Node>, head: seq<Word>, tail: seq<Word>, th: seq<Thread>,
                         order: seq<seq<int>>, clock: nat, lastEmpty: nat)

  ghost predicate Shape(s: State) {
    && |s.head| > 0 && |s.tail| == |s.head| && |s.order| == |s.head|
    && (forall b :: 0 <= b < |s.head| ==> 0 <= s.head[b].ptr < |s.nodes| && 0 <= s.tail[b].ptr < |s.nodes|)
    && (forall t :: 0 <= t < |s.th| ==> LocalShape(s, s.th[t]))
  }

  predicate HasTail(p: PC) {
    p == PutNext || p == PutCheck || p == PutLink || p == PutSwing || p == PutHelp || p == GetNext || p == GetCheck || p == GetHelp || p == GetTake
  }

  predicate HasHead(p: PC) { p == GetTail || p == GetNext || p == GetCheck || p == GetHelp || p == GetTake }

  predicate InGet(p: PC) { HasHead(p) || p == GetHead || p == Recheck }

  ghost predicate LocalShape(s: State, T: Thread) {
    && T.b < |s.head|
    && (HasTail(T.pc) ==> 0 <= T.tail.ptr < |s.nodes|)
    && (HasHead(T.pc) ==> 0 <= T.head.ptr < |s.nodes|)
    && (T.pc == GetTake ==> 0 <= T.next.ptr < |s.nodes|)
    && (InGet(T.pc) ==> T.start < |s.head| && T.i < |s.head| && |T.tails| == |s.head|)
  }

  ghost predicate AllEmpty(s: State) { |s.tail| == |s.head| && forall b :: 0 <= b < |s.head| ==> s.head[b] == s.tail[b] }

  // ---------------------------------------------------------------- one atomic step

  /** A new call; the node of an enqueue is allocated now and linked later. */
  function Invoke(s: State, t: nat, op: Op): State
    requires t < |s.th| && |s.head| > 0
  {
    var T := s.th[t].(op := op, began := s.clock + 1);
    match op
    case Put(item, index) =>
      s.(nodes := s.nodes + [Node(item, Word(NULL, 0), t, -1)],
         th := s.th[t := T.(b := index % |s.head|, item := item, node := |s.nodes|, pc := PutTail)])
    case Get(start) =>
      var k := start % |s.head|;
      s.(th := s.th[t := T.(b := k, start := k, i := 0, tails := seq(|s.head|, j => 0), pc := GetHead)])
  }

  function With(s: State, t: nat, T: Thread): State
    requires t < |s.th|
  {
    s.(th := s.th[t := T])
  }

  /** `tail_->swap(tail_old, ...)` on the backend at work. */
  function SwingTail(s: State, T: Thread, next: int): State
    requires T.b < |s.tail|
  {
    if s.tail[T.b] == T.tail then s.(tail := s.tail[T.b := Word(next, T.tail.tag + 1)]) else s
  }

  /** The node of an enqueue goes behind the last one. */
  function Linked(s: State, T: Thread): State
    requires 0 <= T.tail.ptr < |s.nodes| && T.b < |s.order|
  {
    var nodes := s.nodes[T.tail.ptr := s.nodes[T.tail.ptr].(next := Word(T.node, T.next.tag + 1))];
    s.(nodes := if 0 <= T.node < |nodes| then nodes[T.node := nodes[T.node].(home := T.b)] else nodes,
       order := s.order[T.b := s.order[T.b] + [T.node]])
  }

  function PutStep(s: State, t: nat): State
    requires Shape(s) && t < |s.th|
  {
    var T := s.th[t];
    assert LocalShape(s, T);
    match T.pc
    case PutTail => With(s, t, T.(tail := s.tail[T.b], pc := PutNext))
    case PutNext => With(s, t, T.(next := s.nodes[T.tail.ptr].next, pc := PutCheck))
    case PutCheck =>
      With(s, t, T.(pc := if T.tail != s.tail[T.b] then PutTail else if T.next.ptr == NULL then PutLink else PutHelp))
    case PutLink =>
      if s.nodes[T.tail.ptr].next == T.next
      then With(Linked(s, T), t, T.(pc := PutSwing))
      else With(s, t, T.(pc := PutTail))
    case PutSwing => With(SwingTail(s, T, T.node), t, T.(pc := Return(true)))
    case PutHelp => With(SwingTail(s, T, T.next.ptr), t, T.(pc := PutTail))
    case _ => s
  }

  /** The next backend of the first pass, or the second pass. */
  function NextGet(s: State, T: Thread): Thread
    requires |s.head| > 0
  {
    if T.i + 1 < |s.head| then T.(i := T.i + 1, b := Index(T.start, T.i + 1, |s.head|), pc := GetHead)
    else T.(i := 0, b := Index(T.start, 0, |s.head|), pc := Recheck)
  }

  function GetStep(s: State, t: nat): State
    requires Shape(s) && t < |s.th|
  {
    var T := s.th[t];
    assert LocalShape(s, T);
    match T.pc
    case GetHead => With(s, t, T.(head := s.head[T.b], pc := GetTail))
    case GetTail => With(s, t, T.(tail := s.tail[T.b], pc := GetNext))
    case GetNext => With(s, t, T.(next := s.nodes[T.head.ptr].next, pc := GetCheck))
    case GetCheck =>
      if s.head[T.b] != T.head then With(s, t, T.(pc := GetHead))
      else if T.head.ptr != T.tail.ptr then With(s, t, T.(pc := GetTake))
      else if T.next.ptr == NULL then With(s, t, NextGet(s, T.(tails := T.tails[T.b := T.tail.tag])))
      else With(s, t, T.(pc := GetHelp))
    case GetHelp => With(SwingTail(s, T, T.next.ptr), t, T.(pc := GetHead))
    case GetTake =>
      var T' := T.(item := s.nodes[T.next.ptr].item);
      if s.head[T.b] == T.head
      then With(s.(head := s.head[T.b := Word(T.next.ptr, T.head.tag + 1)]), t, T'.(pc := Return(true)))
      else With(s, t, T'.(pc := GetHead))
    case Recheck => With(s, t, RecheckStep(s, T))
    case _ => s
  }

  /** Lines 83 to 92: the tag of one backend is read again. */
  function RecheckStep(s: State, T: Thread): Thread
    requires |s.head| > 0 && T.b < |s.tail| && T.b < |T.tails|
  {
    var n := |s.head|;
    if s.tail[T.b].tag != T.tails[T.b] then T.(start := T.b, i := 0, b := Index(T.b, 0, n), pc := GetHead)
    else if Index(T.b, 1, n) == T.start then T.(pc := Return(false))
    else T.(i := T.i + 1, b := Index(T.start, T.i + 1, n))
  }

  function Micro(s: State, t: nat, op: Op): State
    requires Shape(s) && t < |s.th|
  {
    var T := s.th[t];
    if T.pc == Idle then Invoke(s, t, op)
    else if T.pc.Return? then With(s, t, T.(pc := Idle))
    else if InGet(T.pc) then GetStep(s, t)
    else PutStep(s, t)
  }

  /** The history after a step: the instant counts as empty if every head equals its tail. */
  ghost function Tick(s: State, m: State): State {
    m.(clock := s.clock + 1, lastEmpty := if AllEmpty(m) then s.clock + 1 else s.lastEmpty)
  }

  ghost function Step(s: State, t: nat, op: Op): State
    requires Shape(s) && t < |s.th|
  {
    Tick(s, Micro(s, t, op))
  }

  ghost predicate Init(s: State) {
    && |s.head| == |s.tail| == |s.order| == |s.nodes| > 0
    && (forall b :: 0 <= b < |s.head| ==> s.head[b] == s.tail[b] == Word(b, 0) && s.order[b] == [b] && s.nodes[b].next == Word(NULL, 0) && s.nodes[b].home == b)
    && (forall t :: 0 <= t < |s.th| ==> s.th[t].pc == Idle && s.th[t].b == 0 && s.th[t].began == 0)
    && s.clock == 0 && s.lastEmpty == 0
  }
}
