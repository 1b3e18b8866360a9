/**
 * OFDeque.hpp as a machine of threads: one step per atomic load or compare-and-swap.
 * The oracle may name any published buffer and any index.
 */
module OFMachine {
  import opened DequeSpec
  import opened OFHeap
  import opened OFMoves

  /** The six guarded operations: bump the guard's counter, then swap the target. */
  datatype Kind = KPush | KAppend | KPop | KStraddle | KSeal | KUnlink

  datatype PC =
    | Idle | Oracle
    | LoadNear | LoadFar | LoadReach | LoadBack
    | Check(kind: Kind) | Guard(kind: Kind) | Target(kind: Kind)
    | Return(result: Option<int>)

  /**
   * Local variables of one call. The last three are history: when the call began, its effect on the deque, and whether
   * its test of the back link was passed by a slot that is no link.
   */
  datatype Thread = Thread(op: Op, pc: PC, b: int, i: int, near: Slot, far: Slot, reach: Slot,
                           start: nat, lin: Option<Event>, fooled: bool)

  /** All fields but the first two are history: effects and finished calls in order, unlinked buffers, the last empty instant. */
  datatype State = State(h: Heap, th: seq<Thread>, events: seq<Event>, calls: seq<Call>, unlinked: seq<int>,
                         clock: nat, lastEmpty: nat)

  /** What a step takes from outside: a call, the oracle's answer, the word `casType` leaves, a prepared buffer. */
  datatype Act = Invoke(op: Op) | Aim(b: int, i: int) | Go(word: int) | Attach(d: int, nb: Mem) | Respond

  function NearLoc(T: Thread): Loc { Loc(T.b, T.i) }
  function FarLoc(T: Thread): Loc { Loc(T.b, T.i + Dir(T.op.side)) }
  function ReachLoc(T: Thread): Loc { Loc(T.far.word, NearValue(T.op.side)) }
  function BackLoc(T: Thread): Loc { Loc(T.far.word, NearLink(T.op.side)) }

  function Load(h: Heap, l: Loc): Slot { At(h.mem, l.buf, l.idx) }

  function GuardLoc(T: Thread, k: Kind): Loc { if k == KPop then FarLoc(T) else NearLoc(T) }
  function GuardSlot(T: Thread, k: Kind): Slot { if k == KPop then T.far else T.near }

  function TargetLoc(T: Thread, k: Kind): Loc {
    match k
    case KPush | KAppend | KUnlink => FarLoc(T)
    case KPop => NearLoc(T)
    case KStraddle | KSeal => ReachLoc(T)
  }

  function TargetSlot(T: Thread, k: Kind): Slot {
    match k
    case KPush | KAppend | KUnlink => T.far
    case KPop => T.near
    case KStraddle | KSeal => T.reach
  }

  /** `casSafe`: same type and word, next count. */
  function Bumped(s: Slot): Slot { s.(count := s.count + 1) }

  /** `casValue`, `casLink` and `casType`; `word` is what the uninitialised payload of `casType` happens to hold. */
  function NewSlot(T: Thread, k: Kind, word: int): Slot {
    var n := TargetSlot(T, k).count + 1;
    match k
    case KPush | KStraddle => Slot(VALUE, if T.op.Push? then T.op.value else 0, n)
    case KAppend => Slot(VALUE, word, n)
    case KPop | KUnlink => Slot(FarType(T.op.side), word, n)
    case KSeal => Slot(SEALED, word, n)
  }

  // ---------------------------------------------------------------- control flow between atomic steps

  function PopAt(T: Thread): PC {
    if T.near.typ == NearType(T.op.side) then Check(KPop) else Guard(KPop)
  }

  function UnlinkAt(T: Thread): PC {
    if T.op.Pop? && T.near.typ == NearType(T.op.side) then Check(KUnlink) else Guard(KUnlink)
  }

  function AfterFar(T: Thread): PC {
    var S := T.op.side;
    if T.near.typ == FarType(S) || (T.near.typ == SEALED && T.i != FarValue(S)) then Oracle
    else if T.i + Dir(S) != FarLink(S) && T.far.typ != FarType(S) then Oracle
    else if T.i == NearLink(S) && T.near.typ != NearType(S) then Oracle
    else if T.i != FarValue(S) then (if T.op.Push? then Guard(KPush) else PopAt(T))
    else if T.far.typ == FarType(S) then (if T.op.Push? then Guard(KAppend) else PopAt(T))
    else LoadReach
  }

  function AfterBack(T: Thread, back: Slot): PC {
    var S := T.op.side;
    if back.word != T.b then Oracle
    else if T.reach.typ == FarType(S) then
      if T.op.Push? then Guard(KStraddle)
      else if T.near.typ == NearType(S) || T.near.typ == SEALED then Check(KSeal)
      else Guard(KSeal)
    else if T.reach.typ == SEALED then UnlinkAt(T)
    else Oracle
  }

  /** The back slot is no link, but its stale word is the address of the sealed near buffer. */
  predicate Fooled(T: Thread, back: Slot) {
    T.near.typ == SEALED && T.reach.typ == FarType(T.op.side) && back.word == T.b && back.typ != VALUE
  }

  // ---------------------------------------------------------------- one atomic step

  /** The shared state and locals after a step, with the effects and unlinked buffers it adds. */
  datatype Out = Out(h: Heap, T: Thread, events: seq<Event>, unlinked: seq<int>)

  function Finished(T: Thread, t: nat): seq<Call> {
    if T.pc.Return? then [Call(t, T.op, T.pc.result)] else []
  }

  ghost predicate Enabled(h: Heap, T: Thread, a: Act) {
    match T.pc
    case Idle => a.Invoke?
    case Oracle => a.Aim? && a.b in h.bufs && 0 <= a.i < N && 0 <= a.i + Dir(T.op.side) < N
    case Return(_) => a.Respond?
    case Target(k) =>
      if k == KAppend && Load(h, TargetLoc(T, k)) == TargetSlot(T, k) && T.op.Push?
      then a.Attach? && a.d !in h.bufs && Prepared(a.nb, T.op.side, T.b, a.d, T.op.value)
      else a.Go?
    case _ => a.Go?
  }

  function Hit(h: Heap, T: Thread, t: nat, k: Kind, a: Act): Out {
    var S := T.op.side;
    var h' := Put(h, TargetLoc(T, k), NewSlot(T, k, if a.Go? then a.word else 0));
    match k
    case KPush | KStraddle =>
      var e := Pushed(t, S, if T.op.Push? then T.op.value else 0);
      Out(h', T.(pc := Return(None), lin := Some(e)), [e], [])
    case KAppend =>
      var e := Pushed(t, S, if T.op.Push? then T.op.value else 0);
      Out(if a.Attach? then Grow(h, S, T.b, a.d, NewSlot(T, k, a.d), a.nb) else h', T.(pc := Return(None), lin := Some(e)), [e], [])
    case KPop =>
      var e := Popped(t, S, T.near.word);
      Out(h', T.(pc := Return(Some(T.near.word)), lin := Some(e)), [e], [])
    case KSeal =>
      var T' := T.(near := Bumped(T.near), reach := T.reach.(typ := SEALED, count := T.reach.count + 1));
      Out(h', T'.(pc := UnlinkAt(T')), [], [])
    case KUnlink =>
      var h'' := Shrink(h, S, T.b, T.far.word, NewSlot(T, k, if a.Go? then a.word else 0));
      var T' := T.(near := Bumped(T.near), far := T.far.(typ := FarType(S), count := T.far.count + 1));
      Out(h'', T'.(pc := if T.op.Push? then Oracle else PopAt(T')), [], [T.far.word])
  }

  function Micro(h: Heap, T: Thread, t: nat, clock: nat, a: Act): Out {
    match T.pc
    case Idle => Out(h, if a.Invoke? then T.(op := a.op, pc := Oracle, start := clock + 1, lin := None) else T, [], [])
    case Oracle => Out(h, if a.Aim? then T.(b := a.b, i := a.i, pc := LoadNear, fooled := false) else T, [], [])
    case LoadNear => Out(h, T.(near := Load(h, NearLoc(T)), pc := LoadFar), [], [])
    case LoadFar =>
      var T' := T.(far := Load(h, FarLoc(T)));
      Out(h, T'.(pc := AfterFar(T')), [], [])
    case LoadReach => Out(h, T.(reach := Load(h, ReachLoc(T)), pc := LoadBack), [], [])
    case LoadBack => Out(h, T.(pc := AfterBack(T, Load(h, BackLoc(T))), fooled := Fooled(T, Load(h, BackLoc(T)))), [], [])
    case Check(k) => Out(h, T.(pc := if Load(h, NearLoc(T)).count == T.near.count then Return(None) else Guard(k)), [], [])
    case Guard(k) =>
      if Load(h, GuardLoc(T, k)) == GuardSlot(T, k)
      then Out(Put(h, GuardLoc(T, k), Bumped(GuardSlot(T, k))), T.(pc := Target(k)), [], [])
      else Out(h, T.(pc := Oracle), [], [])
    case Target(k) =>
      if Load(h, TargetLoc(T, k)) == TargetSlot(T, k) then Hit(h, T, t, k, a) else Out(h, T.(pc := Oracle), [], [])
    case Return(_) => Out(h, T.(pc := Idle, lin := None), [], [])
  }

  function Step(s: State, t: nat, a: Act): State
    requires t < |s.th|
  {
    var o := Micro(s.h, s.th[t], t, s.clock, a);
    State(o.h, s.th[t := o.T], s.events + o.events, s.calls + Finished(s.th[t], t), s.unlinked + o.unlinked, s.clock + 1,
          if Abs(o.h) == [] then s.clock + 1 else s.lastEmpty)
  }

  /** `fill(split)`: LEFT below the split, RIGHT from it on; counts and words are whatever the memory held. */
  ghost predicate Filled(m: Mem, b: int, split: int) {
    forall i :: 0 <= i < N ==> Loc(b, i) in m && Typ(m, b, i) == if i < split then LEFT else RIGHT
  }

  /** The constructor's state: one buffer, filled around the middle, and no thread in a call. */
  ghost predicate Init(s: State) {
    && (exists b :: s.h.bufs == {b} && s.h.pos == map[b := 0] && s.h.at == map[0 := b] && Filled(s.h.mem, b, N / 2))
    && s.h.lo == 0 && s.h.hi == 0
    && (forall t :: 0 <= t < |s.th| ==> s.th[t].pc == Idle && s.th[t].start == 0 && s.th[t].lin == None)
    && s.events == [] && s.calls == [] && s.unlinked == [] && s.lastEmpty == s.clock == 0
  }

  lemma InitWF(s: State)
    requires Init(s)
    ensures WF(s.h) && Abs(s.h) == []
  {
    var b :| s.h.bufs == {b} && s.h.pos == map[b := 0] && s.h.at == map[0 := b] && Filled(s.h.mem, b, N / 2);
    assert BufferOk(s.h.mem, b) by {
      forall i | 0 <= i < N - 1 ensures PairOk(s.h.mem, b, i) {}
    }
    assert NodeOk(s.h, b);
    NoValues(s.h);
  }
}
