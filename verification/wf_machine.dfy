/**
 * The enqueue side of wf_queue_ppopp11.h as a machine of threads: one step per atomic load, store or compare-and-swap.
 * Every read of `state_` is a step of its own, so descriptors may change between two reads of one expression.
 */
module WFMachine {
  const NULL := -1

  /** AtomicPointer: a value and its aba counter. */
  datatype Word = Word(ptr: int, aba: nat)

  /** History: `start` is the number of nodes when the node's call began. */
  datatype Node = Node(item: int, owner: nat, next: Word, start: nat)

  /** Operation descriptors do not change once they are published. */
  datatype Desc = Desc(phase: int, pending: bool, node: int)

  /** What `help_finish_enqueue` returns to. */
  datatype Ret = ToHelp | ToLoop | ToReturn

  datatype PC =
    | Idle | MaxPhase | ReadAba | Publish | Help
    | Pend1 | Phase1 | ReadTail | ReadNext | CheckTail | Pend2 | Phase2 | ReadNode | Link
    | FinTail | FinNext | FinCur | FinCheck | FinNode | FinPhase | FinState | FinMove

  /**
   * `i` is the loop index of `max_phase` and `help`; `node` is the node of the current call once it is published.
   * History: `start` is the number of nodes when the call began.
   */
  datatype Thread = Thread(pc: PC, item: int, phase: int, node: int, aba: nat, i: nat,
                           tail: Word, next: Word, toLink: int, cur: Word, curPhase: int, ret: Ret, start: nat)

  /** History: `order` lists the linked nodes, `finished` the nodes of the enqueues that have returned. */
  datatype State = State(nodes: seq<Node>, descs: seq<Desc>, tail: Word, state: seq<Word>, th: seq<Thread>,
                         order: seq<int>, finished: seq<int>)

  ghost predicate Shape(s: State) {
    && |s.th| == |s.state|
    && (forall t :: 0 <= t < |s.state| ==> 0 <= s.state[t].ptr < |s.descs|)
    && 0 <= s.tail.ptr < |s.nodes|
    && (forall n :: 0 < n < |s.nodes| ==> s.nodes[n].owner < |s.th|)
    && (forall t :: 0 <= t < |s.th| ==> LocalShape(s, s.th[t]))
  }

  ghost predicate LocalShape(s: State, T: Thread) {
    && (T.pc == MaxPhase || InHelp(T.pc) || (InFinish(T.pc) && T.ret != ToReturn) ==> T.i < |s.th|)
    && (HasTail(T.pc) ==> 0 <= T.tail.ptr < |s.nodes|)
    && (HasNext(T.pc) ==> 0 < T.next.ptr < |s.nodes|)
  }

  /** Before it publishes, a thread has no enqueue under way that others could help. */
  predicate BeforePublish(p: PC) { p == Idle || p == MaxPhase || p == ReadAba || p == Publish }

  predicate Seeks(p: PC) { p == Help || p == Pend1 || p == Phase1 }

  predicate InHelp(p: PC) {
    Seeks(p) || p == ReadTail || p == ReadNext || p == CheckTail || p == Pend2 || p == Phase2
    || p == ReadNode || p == Link
  }

  predicate InFinish(p: PC) {
    p == FinTail || p == FinNext || p == FinCur || p == FinCheck || p == FinNode || p == FinPhase || p == FinState || p == FinMove
  }

  /** The snapshot of the tail is in use. */
  predicate HasTail(p: PC) {
    p == ReadNext || p == CheckTail || p == Pend2 || p == Phase2 || p == ReadNode || p == Link || (InFinish(p) && p != FinTail)
  }

  /** `help_finish_enqueue` has found a linked node after the tail. */
  predicate HasNext(p: PC) { InFinish(p) && p != FinTail && p != FinNext }

  function DescOf(s: State, t: nat): Desc
    requires t < |s.state| && 0 <= s.state[t].ptr < |s.descs|
  {
    s.descs[s.state[t].ptr]
  }

  // ---------------------------------------------------------------- one atomic step

  /** The end of one round of the help loop; after the last round `enqueue` calls `help_finish_enqueue` itself. */
  function NextHelp(T: Thread, n: nat): Thread {
    if T.i + 1 < n then T.(i := T.i + 1, pc := Help) else T.(i := T.i + 1, pc := FinTail, ret := ToReturn)
  }

  function FinReturn(T: Thread, n: nat): Thread {
    match T.ret
    case ToHelp => NextHelp(T, n)
    case ToLoop => T.(pc := Pend1)
    case ToReturn => T.(pc := Idle)
  }

  function Returned(T: Thread, T': Thread): seq<int> {
    if !BeforePublish(T.pc) && T'.pc == Idle then [T.node] else []
  }

  function Move(s: State, t: nat, T': Thread): State
    requires t < |s.th|
  {
    s.(th := s.th[t := T'], finished := s.finished + Returned(s.th[t], T'))
  }

  /** Line 185: the new node and its pending descriptor become visible. */
  function DoPublish(s: State, t: nat): State
    requires t < |s.th| == |s.state|
  {
    var T := s.th[t];
    s.(nodes := s.nodes + [Node(T.item, t, Word(NULL, 0), T.start)], descs := s.descs + [Desc(T.phase, true, |s.nodes|)],
       state := s.state[t := Word(|s.descs|, T.aba + 1)],
       th := s.th[t := T.(node := |s.nodes|, i := 0, pc := Help)])
  }

  /** Line 203: the node goes behind the last one. */
  function DoLink(s: State, t: nat): State
    requires t < |s.th| && 0 <= s.th[t].tail.ptr < |s.nodes|
  {
    var T := s.th[t];
    s.(nodes := s.nodes[T.tail.ptr := s.nodes[T.tail.ptr].(next := Word(T.toLink, T.next.aba + 1))], order := s.order + [T.toLink],
       th := s.th[t := T.(pc := FinTail, ret := ToHelp)])
  }

  /** Line 230: a descriptor that is not pending replaces the one that was read. */
  function DoState(s: State, t: nat): State
    requires t < |s.th| == |s.state| && 0 <= s.th[t].next.ptr < |s.nodes| && s.nodes[s.th[t].next.ptr].owner < |s.state|
  {
    var T := s.th[t];
    s.(descs := s.descs + [Desc(T.curPhase, false, T.next.ptr)],
       state := s.state[s.nodes[T.next.ptr].owner := Word(|s.descs|, T.cur.aba + 1)],
       th := s.th[t := T.(pc := FinMove)])
  }

  /** Line 232: the tail moves to the node behind it. */
  function DoTail(s: State, t: nat): State
    requires t < |s.th|
  {
    var T := s.th[t];
    Move(s.(tail := Word(T.next.ptr, T.tail.aba + 1)), t, FinReturn(T, |s.th|))
  }

  /** Lines 176 to 184: the phase above all others, and the counter of the own descriptor word. `item` is the argument. */
  function CallStep(s: State, t: nat, item: int): Thread
    requires Shape(s) && t < |s.th| && BeforePublish(s.th[t].pc)
  {
    var T := s.th[t];
    assert LocalShape(s, T);
    match T.pc
    case Idle => T.(item := item, phase := -1, i := 0, pc := MaxPhase, start := |s.nodes|)
    case MaxPhase =>
      var p := if DescOf(s, T.i).phase > T.phase then DescOf(s, T.i).phase else T.phase;
      if T.i + 1 < |s.th| then T.(phase := p, i := T.i + 1) else T.(phase := p + 1, pc := ReadAba)
    case ReadAba => T.(aba := s.state[t].aba, pc := Publish)
    case Publish => T
  }

  /** The loop of `help`, and the guard of the loop of `help_enqueue`. */
  function SeekStep(s: State, t: nat): Thread
    requires Shape(s) && t < |s.th| && Seeks(s.th[t].pc)
  {
    var T := s.th[t];
    var n := |s.th|;
    assert LocalShape(s, T);
    match T.pc
    case Help => if DescOf(s, T.i).pending && DescOf(s, T.i).phase <= T.phase then T.(pc := Pend1) else NextHelp(T, n)
    case Pend1 => if DescOf(s, T.i).pending then T.(pc := Phase1) else NextHelp(T, n)
    case Phase1 => if DescOf(s, T.i).phase <= T.phase then T.(pc := ReadTail) else NextHelp(T, n)
  }

  /** The body of the loop of `help_enqueue`; `Link` here is the compare-and-swap that failed. */
  function LinkStep(s: State, t: nat): Thread
    requires Shape(s) && t < |s.th| && InHelp(s.th[t].pc) && !Seeks(s.th[t].pc)
  {
    var T := s.th[t];
    assert LocalShape(s, T);
    match T.pc
    case ReadTail => T.(tail := s.tail, pc := ReadNext)
    case ReadNext => T.(next := s.nodes[T.tail.ptr].next, pc := CheckTail)
    case CheckTail =>
      if T.tail != s.tail then T.(pc := Pend1)
      else if T.next.ptr == NULL then T.(pc := Pend2)
      else T.(pc := FinTail, ret := ToLoop)
    case Pend2 => T.(pc := if DescOf(s, T.i).pending then Phase2 else Pend1)
    case Phase2 => T.(pc := if DescOf(s, T.i).phase <= T.phase then ReadNode else Pend1)
    case ReadNode => T.(toLink := DescOf(s, T.i).node, pc := Link)
    case Link => T.(pc := Pend1)
  }

  /** `help_finish_enqueue`; `FinState` and `FinMove` here are the compare-and-swaps that failed. */
  function FinishStep(s: State, t: nat): Thread
    requires Shape(s) && t < |s.th| && InFinish(s.th[t].pc)
  {
    var T := s.th[t];
    var n := |s.th|;
    assert LocalShape(s, T);
    match T.pc
    case FinTail => T.(tail := s.tail, pc := FinNext)
    case FinNext =>
      var next := s.nodes[T.tail.ptr].next;
      if next.ptr == NULL then FinReturn(T.(next := next), n) else T.(next := next, pc := FinCur)
    case FinCur => T.(cur := s.state[s.nodes[T.next.ptr].owner], pc := FinCheck)
    case FinCheck => if T.tail == s.tail then T.(pc := FinNode) else FinReturn(T, n)
    case FinNode =>
      if DescOf(s, s.nodes[T.next.ptr].owner).node == T.next.ptr then T.(pc := FinPhase) else FinReturn(T, n)
    case FinPhase => T.(curPhase := DescOf(s, s.nodes[T.next.ptr].owner).phase, pc := FinState)
    case FinState => T.(pc := FinMove)
    case FinMove => FinReturn(T, n)
  }

  /** A step that changes no shared word. */
  function LocalStep(s: State, t: nat, item: int): Thread
    requires Shape(s) && t < |s.th|
  {
    var p := s.th[t].pc;
    if BeforePublish(p) then CallStep(s, t, item)
    else if Seeks(p) then SeekStep(s, t)
    else if InHelp(p) then LinkStep(s, t)
    else FinishStep(s, t)
  }

  /** One step of thread t: at most one of the four stores or successful compare-and-swaps. */
  function Step(s: State, t: nat, item: int): State
    requires Shape(s) && t < |s.th|
  {
    var T := s.th[t];
    assert LocalShape(s, T);
    if T.pc == Publish then DoPublish(s, t)
    else if T.pc == Link && s.nodes[T.tail.ptr].next == T.next then DoLink(s, t)
    else if T.pc == FinState && s.state[s.nodes[T.next.ptr].owner] == T.cur then DoState(s, t)
    else if T.pc == FinMove && s.tail == T.tail then DoTail(s, t)
    else Move(s, t, LocalStep(s, t, item))
  }

  /** The constructor: a sentinel, and for each thread a descriptor that is not pending. */
  ghost predicate Init(s: State) {
    && |s.nodes| == 1 && s.nodes[0].next == Word(NULL, 0) && s.tail == Word(0, 0)
    && |s.th| == |s.state| == |s.descs|
    && (forall t :: 0 <= t < |s.th| ==> s.state[t].ptr == t && s.descs[t] == Desc(-1, false, NULL) && s.th[t].pc == Idle)
    && s.order == [0] && s.finished == []
  }

  ghost predicate InBounds(s: State) { forall k :: 0 <= k < |s.order| ==> 0 <= s.order[k] < |s.nodes| }

  /** The sentinel's item, then the queue. */
  ghost function Items(s: State): seq<int>
    requires InBounds(s)
  {
    seq(|s.order|, k requires 0 <= k < |s.order| => s.nodes[s.order[k]].item)
  }
}
