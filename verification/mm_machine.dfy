/**
 * MMDeque.hpp on top of HazardTracker.cpp as a machine of threads: one step per atomic access.
 * Nodes are addresses that are freed and allocated again with arbitrary contents.
 */
module MMMachine {
  import opened DequeSpec

  /** A counted pointer: address and serial number. */
  datatype Cptr = Cptr(ptr: int, sn: nat)

  datatype Field = Field(node: int, side: Side)

  datatype Status = Stable | Pushing(side: Side)

  datatype Anchor = Anchor(left: int, right: int, status: Status)

  const NULL := 0

  const SLOTS := 3

  const FREQ := 3

  /** Who may touch a node: the pool, the thread that allocated it, everyone through the deque, the thread that removed it, a retired list. */
  datatype Owner = Free | Private(tid: nat) | Linked | Removed(tid: nat) | Retired(tid: nat)

  /** Where `stabilize` returns to. */
  datatype Resume = ToPush | ToPop | ToReturn(result: Option<int>)

  datatype PC =
    | Idle
    | Alloc | ReadPush | CasFirst | InitLink | CasPush
    | ReadPop | CasLast | PopReserve0 | PopReserve1 | PopCheck | PopPrev | CasPop | TakeData | Retire
    | Scan(i: nat, k: nat) | Clear(j: nat, back: Resume)
    | Stab(stage: nat, back: Resume)
    | Return(result: Option<int>)
  {
    /** Before the n-th atomic step of `stabilizeLeft` or `stabilizeRight`. */
    predicate AtStab(n: nat) { Stab? && stage == n }
  }

  /** Local variables of one call; `lin` is history. */
  datatype Thread = Thread(op: Op, pc: PC, node: int, a: Anchor, prev: int, seen: Cptr, data: int, lin: Option<Event>)

  /**
   * `hz` holds SLOTS reservations per thread. History: `owner`, the positions `at[lo..hi]` of the nodes of the deque
   * with their inverse `pos`, and the effects and finished calls.
   */
  datatype State = State(
    anchor: Anchor, link: map<Field, Cptr>, data: map<int, int>,
    hz: seq<int>, retired: seq<seq<int>>, count: seq<nat>,
    owner: map<int, Owner>, pos: map<int, int>, at: map<int, int>, lo: int, hi: int,
    th: seq<Thread>, events: seq<Event>, calls: seq<Call>)

  /** What a step takes from outside: a call, a block with its old contents, whether a weak CAS fails for no reason. */
  datatype Act = Invoke(op: Op) | Block(n: int, left: Cptr, right: Cptr) | Go(spurious: bool)

  function End(a: Anchor, S: Side): int { if S == LeftSide then a.left else a.right }

  function SetEnd(a: Anchor, S: Side, n: int, st: Status): Anchor {
    if S == LeftSide then Anchor(n, a.right, st) else Anchor(a.left, n, st)
  }

  function Link(s: State, n: int, S: Side): Cptr {
    if Field(n, S) in s.link then s.link[Field(n, S)] else Cptr(NULL, 0)
  }

  function Data(s: State, n: int): int { if n in s.data then s.data[n] else 0 }

  function OwnerOf(s: State, n: int): Owner { if n in s.owner then s.owner[n] else Free }

  function Slot(s: State, i: int): int { if 0 <= i < |s.hz| then s.hz[i] else NULL }

  function Edge(s: State, S: Side): int { if S == LeftSide then s.lo else s.hi }

  function SetLink(s: State, n: int, S: Side, c: Cptr): State { s.(link := s.link[Field(n, S) := c]) }

  function SetSlot(s: State, i: int, n: int): State { if 0 <= i < |s.hz| then s.(hz := s.hz[i := n]) else s }

  /** The values in the nodes of the deque, from left to right. */
  function Contents(data: map<int, int>, at: map<int, int>, lo: int, hi: int): seq<int>
    decreases hi - lo
  {
    if lo > hi then [] else (if lo in at then [if at[lo] in data then data[at[lo]] else 0] else []) + Contents(data, at, lo + 1, hi)
  }

  function Abs(s: State): seq<int> { Contents(s.data, s.at, s.lo, s.hi) }

  // ---------------------------------------------------------------- steps

  function Resumed(r: Resume): PC {
    match r
    case ToPush => ReadPush
    case ToPop => ReadPop
    case ToReturn(v) => Return(v)
  }

  /** The anchor CAS that pushes `T.node` on T's side; its node joins the deque. */
  function Pushes(s: State, T: Thread, t: nat, a: Anchor): State {
    var S := T.op.side;
    var p := if S == LeftSide then s.lo - 1 else s.hi + 1;
    s.(anchor := a, owner := s.owner[T.node := Linked], pos := s.pos[T.node := p], at := s.at[p := T.node],
       lo := if S == LeftSide then p else s.lo, hi := if S == LeftSide then s.hi else p,
       events := s.events + [Pushed(t, S, if T.op.Push? then T.op.value else 0)])
  }

  /** The anchor CAS that removes the end node on T's side. */
  function Pops(s: State, T: Thread, t: nat, a: Anchor): State {
    var S := T.op.side;
    var p := Edge(s, S);
    var n := End(T.a, S);
    s.(anchor := a, owner := s.owner[n := Removed(t)], pos := s.pos - {n}, at := s.at - {p},
       lo := if S == LeftSide then p + 1 else s.lo, hi := if S == LeftSide then s.hi else p - 1,
       events := s.events + [Popped(t, S, Data(s, n))])
  }

  datatype Out = Out(s: State, T: Thread)

  predicate Enabled(s: State, t: nat, a: Act)
    requires t < |s.th|
  {
    match s.th[t].pc
    case Idle => a.Invoke?
    case Alloc => a.Block? && a.n != NULL && OwnerOf(s, a.n) == Free
    case _ => a.Go?
  }

  /** A CAS on the anchor that expects T's snapshot; `compare_exchange_weak` may also fail for no reason. */
  predicate Hits(s: State, T: Thread, a: Act) { a.Go? && !a.spurious && s.anchor == T.a }

  function PushStep(s: State, T: Thread, t: nat, a: Act): Out {
    var S := T.op.side;
    match T.pc
    case Alloc =>
      if a.Block? then
        Out(s.(owner := s.owner[a.n := Private(t)], data := s.data[a.n := if T.op.Push? then T.op.value else 0],
               link := s.link[Field(a.n, LeftSide) := a.left][Field(a.n, RightSide) := a.right]),
            T.(node := a.n, pc := ReadPush))
      else Out(s, T)
    case ReadPush =>
      var b := s.anchor;
      Out(s, T.(a := b, pc := if End(b, S) == NULL then CasFirst else if b.status == Stable then InitLink else Stab(0, ToPush)))
    case CasFirst =>
      if Hits(s, T, a) then
        Out(Pushes(s, T, t, Anchor(T.node, T.node, T.a.status)),
            T.(pc := Return(None), lin := Some(Pushed(t, S, if T.op.Push? then T.op.value else 0))))
      else Out(s, T.(pc := ReadPush))
    case InitLink => Out(SetLink(s, T.node, Opp(S), Cptr(End(T.a, S), 0)), T.(pc := CasPush))
    case CasPush =>
      if Hits(s, T, a) then
        var a2 := SetEnd(T.a, S, T.node, Pushing(S));
        Out(Pushes(s, T, t, a2),
            T.(a := a2, pc := Stab(0, ToReturn(None)), lin := Some(Pushed(t, S, if T.op.Push? then T.op.value else 0))))
      else Out(s, T.(pc := ReadPush))
    case _ => Out(s, T)
  }

  function PopStep(s: State, T: Thread, t: nat, a: Act): Out {
    var S := T.op.side;
    match T.pc
    case ReadPop =>
      var b := s.anchor;
      Out(s, T.(a := b, pc := if End(b, S) == NULL then Return(None)
                              else if b.left == b.right then CasLast
                              else if b.status == Stable then PopReserve0 else Stab(0, ToPop)))
    case CasLast =>
      if Hits(s, T, a) then
        Out(Pops(s, T, t, Anchor(NULL, NULL, T.a.status)), T.(pc := TakeData, lin := Some(Popped(t, S, Data(s, End(T.a, S))))))
      else Out(s, T.(pc := ReadPop))
    case PopReserve0 => Out(SetSlot(s, SLOTS * t, T.a.left), T.(pc := PopReserve1))
    case PopReserve1 => Out(SetSlot(s, SLOTS * t + 1, T.a.right), T.(pc := PopCheck))
    case PopCheck => Out(s, T.(pc := if s.anchor == T.a then PopPrev else ReadPop))
    case PopPrev => Out(s, T.(prev := Link(s, End(T.a, S), Opp(S)).ptr, pc := CasPop))
    case CasPop =>
      if Hits(s, T, a) then
        Out(Pops(s, T, t, SetEnd(T.a, S, T.prev, T.a.status)), T.(pc := TakeData, lin := Some(Popped(t, S, Data(s, End(T.a, S))))))
      else Out(s, T.(pc := ReadPop))
    case TakeData => Out(s, T.(data := Data(s, End(T.a, S)), pc := Retire))
    case _ => Out(s, T)
  }

  /** `retire`: append to the own list, and every FREQ-th time scan it. */
  function RetireStep(s: State, T: Thread, t: nat): Out {
    var n := End(T.a, T.op.side);
    if t >= |s.retired| || t >= |s.count| then Out(s, T)
    else
      var s' := s.(retired := s.retired[t := s.retired[t] + [n]], owner := s.owner[n := Retired(t)]);
      if s.count[t] == FREQ
      then Out(s'.(count := s.count[t := 0]), T.(pc := Scan(0, 0)))
      else Out(s'.(count := s.count[t := s.count[t] + 1]), T.(pc := Clear(0, ToReturn(Some(T.data)))))
  }

  /** `empty`: compare the i-th retired node with one reservation at a time; an erased node makes the loop skip one. */
  function ScanStep(s: State, T: Thread, t: nat): Out {
    if !T.pc.Scan? || t >= |s.retired| || t >= |s.count| then Out(s, T)
    else
      var i, k := T.pc.i, T.pc.k;
      var trash := s.retired[t];
      if i >= |trash| then Out(s.(count := s.count[t := s.count[t] + 1]), T.(pc := Clear(0, ToReturn(Some(T.data)))))
      else if k >= |s.hz| then
        Out(s.(retired := s.retired[t := trash[..i] + trash[i + 1..]], owner := s.owner[trash[i] := Free]), T.(pc := Scan(i + 1, 0)))
      else if s.hz[k] == trash[i] then Out(s, T.(pc := Scan(i + 1, 0)))
      else Out(s, T.(pc := Scan(i, k + 1)))
  }

  function StabSide(T: Thread): Side { if T.a.status.Pushing? then T.a.status.side else LeftSide }

  function StabStep(s: State, T: Thread, t: nat, a: Act): Out {
    var S := StabSide(T);
    if !T.pc.Stab? then Out(s, T)
    else
      var r := T.pc.back;
      var k := T.pc.stage;
      var next := T.(pc := Stab(k + 1, r));
      var leave := T.(pc := Resumed(r));
      if k == 0 then Out(SetSlot(s, SLOTS * t, T.a.left), next)
      else if k == 1 then Out(SetSlot(s, SLOTS * t + 1, T.a.right), next)
      else if k == 2 then Out(s, if s.anchor == T.a then next else leave)
      else if k == 3 then Out(s, next.(prev := Link(s, End(T.a, S), Opp(S)).ptr))
      else if k == 4 then Out(SetSlot(s, SLOTS * t + 2, T.prev), next)
      else if k == 5 then Out(s, if s.anchor == T.a then next else leave)
      else if k == 6 then
        var c := Link(s, T.prev, S);
        Out(s, T.(seen := c, pc := Stab(if c.ptr != End(T.a, S) then 7 else 9, r)))
      else if k == 7 then Out(s, if s.anchor == T.a then next else leave)
      else if k == 8 then
        if Link(s, T.prev, S) == T.seen
        then Out(SetLink(s, T.prev, S, Cptr(End(T.a, S), T.seen.sn + 1)), next)
        else Out(s, leave)
      else Out(if Hits(s, T, a) then s.(anchor := T.a.(status := Stable)) else s, T.(pc := Clear(0, r)))
  }

  function Micro(s: State, t: nat, a: Act): Out
    requires t < |s.th|
  {
    var T := s.th[t];
    match T.pc
    case Idle => Out(s, if a.Invoke? then T.(op := a.op, pc := if a.op.Push? then Alloc else ReadPop, lin := None) else T)
    case Alloc | ReadPush | CasFirst | InitLink | CasPush => PushStep(s, T, t, a)
    case ReadPop | CasLast | PopReserve0 | PopReserve1 | PopCheck | PopPrev | CasPop | TakeData => PopStep(s, T, t, a)
    case Retire => RetireStep(s, T, t)
    case Scan(_, _) => ScanStep(s, T, t)
    case Clear(j, r) => if j < SLOTS then Out(SetSlot(s, SLOTS * t + j, NULL), T.(pc := Clear(j + 1, r))) else Out(s, T.(pc := Resumed(r)))
    case Return(v) => Out(s.(calls := s.calls + [Call(t, T.op, v)]), T.(pc := Idle, lin := None))
    case _ => StabStep(s, T, t, a)
  }

  function Step(s: State, t: nat, a: Act): State
    requires t < |s.th|
  {
    var o := Micro(s, t, a);
    o.s.(th := s.th[t := o.T])
  }

  /** The nodes a step reads or writes through a pointer. */
  function Touched(s: State, t: nat): set<int>
    requires t < |s.th|
  {
    var T := s.th[t];
    match T.pc
    case InitLink => {T.node}
    case PopPrev | TakeData => {End(T.a, T.op.side)}
    case Stab(k, _) => if k == 3 then {End(T.a, StabSide(T))} else if k == 6 || k == 8 then {T.prev} else {}
    case _ => {}
  }

  ghost predicate Init(s: State) {
    && s.anchor == Anchor(NULL, NULL, Stable)
    && s.hz == seq(SLOTS * |s.th|, _ => NULL)
    && s.retired == seq(|s.th|, _ => []) && s.count == seq(|s.th|, _ => 0)
    && s.owner == map[] && s.pos == map[] && s.at == map[] && s.lo == 1 && s.hi == 0
    && (forall t :: 0 <= t < |s.th| ==> s.th[t].pc == Idle && s.th[t].lin == None)
    && s.events == [] && s.calls == []
  }
}
