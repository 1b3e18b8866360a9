/** What every thread may rely on between its atomic steps, whatever the others do. */
module OFInv {
  import opened DequeSpec
  import opened OFHeap
  import opened OFMoves
  import opened OFMachine

  /** A snapshot is never ahead of the slot, and agrees with its type as long as the count is the same. */
  ghost predicate Snap(h: Heap, l: Loc, s: Slot) {
    s.count <= Load(h, l).count && (s.count == Load(h, l).count ==> s.typ == Load(h, l).typ)
  }

  ghost predicate Stale(h: Heap, T: Thread) { T.near.count < Load(h, NearLoc(T)).count }

  ghost predicate Placed(h: Heap, T: Thread) {
    T.b in h.bufs && 0 <= T.i < N && 0 <= T.i + Dir(T.op.side) < N
  }

  ghost predicate NearOk(h: Heap, T: Thread) {
    && Snap(h, NearLoc(T), T.near)
    && (T.near.typ == SEALED ==> Load(h, NearLoc(T)).typ == SEALED)
  }

  /** The tests on the oracle's edge. */
  ghost predicate EdgeOk(T: Thread) {
    var S := T.op.side;
    && T.near.typ != FarType(S)
    && (T.near.typ == SEALED ==> T.i == FarValue(S) && T.far.typ == VALUE)
    && (T.i == NearLink(S) ==> T.near.typ == NearType(S))
    && (T.i != FarValue(S) ==> T.far.typ == FarType(S))
  }

  /** A link that was seen stays until the buffer behind it is sealed. */
  ghost predicate FarOk(h: Heap, T: Thread) {
    var S := T.op.side;
    && EdgeOk(T)
    && Snap(h, FarLoc(T), T.far)
    && (T.far.typ == VALUE ==>
      && T.far.word in h.bufs
      && (IsLink(h.mem, T.b, FarLink(S), T.far.word) || Typ(h.mem, T.far.word, NearValue(S)) == SEALED))
  }

  ghost predicate ReachOk(h: Heap, T: Thread) {
    && T.i == FarValue(T.op.side) && T.far.typ == VALUE
    && Snap(h, ReachLoc(T), T.reach)
    && (T.reach.typ == SEALED ==> Load(h, ReachLoc(T)).typ == SEALED)
  }

  ghost predicate KindOk(h: Heap, T: Thread, k: Kind) {
    var S := T.op.side;
    match k
    case KPush => T.op.Push? && T.i != FarValue(S) && T.far.typ == FarType(S)
    case KAppend => T.op.Push? && T.i == FarValue(S) && T.far.typ == FarType(S)
    case KPop => T.op.Pop? && T.far.typ == FarType(S)
    case KStraddle => T.op.Push? && ReachOk(h, T) && T.reach.typ == FarType(S)
    case KSeal => T.op.Pop? && ReachOk(h, T) && T.reach.typ == FarType(S)
    case KUnlink => ReachOk(h, T) && T.reach.typ == SEALED && IsLink(h.mem, T.far.word, NearLink(S), T.b)
  }

  /** A pop goes on past its emptiness test only with a value in the near slot, or with a snapshot that will fail. */
  ghost predicate NotEmptyOk(h: Heap, T: Thread, k: Kind) {
    T.op.Pop? && T.near.typ != VALUE && (k == KUnlink ==> T.near.typ != SEALED) ==> Stale(h, T)
  }

  /** T's first compare-and-swap succeeded. */
  ghost predicate GuardedOk(h: Heap, T: Thread, k: Kind) {
    && Snap(h, GuardLoc(T, k), Bumped(GuardSlot(T, k)))
    && (k == KPop ==> NotEmptyOk(h, T, k))
    && (k == KSeal ==> T.near.typ == VALUE)
    && (k == KUnlink && T.op.Pop? ==> T.near.typ != NearType(T.op.side))
  }

  /** The second compare-and-swap of T would succeed. */
  ghost predicate Live(h: Heap, T: Thread) {
    T.pc.Target? && Load(h, TargetLoc(T, T.pc.kind)) == TargetSlot(T, T.pc.kind)
  }

  /** What a successful second compare-and-swap relies on. */
  ghost predicate Safe(h: Heap, T: Thread) {
    var S := T.op.side;
    T.pc.Target? ==>
      match T.pc.kind
      case KPush => Load(h, NearLoc(T)).typ != FarType(S) && Load(h, NearLoc(T)).typ != SEALED
      case KAppend => Load(h, NearLoc(T)).typ != FarType(S)
      case KPop => Load(h, FarLoc(T)).typ == FarType(S)
      case KSeal => IsLink(h.mem, T.b, FarLink(S), T.far.word) && Typ(h.mem, T.b, FarValue(S)) != SEALED
      case KStraddle | KUnlink => true
  }

  ghost predicate PhaseOk(h: Heap, T: Thread) {
    match T.pc
    case Idle | Oracle | LoadNear | Return(_) => true
    case LoadFar => NearOk(h, T)
    case LoadReach => NearOk(h, T) && FarOk(h, T) && T.i == FarValue(T.op.side) && T.far.typ == VALUE
    case LoadBack => NearOk(h, T) && FarOk(h, T) && ReachOk(h, T)
    case Check(k) => NearOk(h, T) && FarOk(h, T) && KindOk(h, T, k) && T.op.Pop?
    case Guard(k) => NearOk(h, T) && FarOk(h, T) && KindOk(h, T, k) && NotEmptyOk(h, T, k)
    case Target(k) => NearOk(h, T) && FarOk(h, T) && KindOk(h, T, k) && GuardedOk(h, T, k) && (Live(h, T) ==> Safe(h, T))
  }

  ghost predicate ThreadOk(h: Heap, T: Thread) {
    (T.pc != Idle && T.pc != Oracle && !T.pc.Return? ==> Placed(h, T)) && PhaseOk(h, T)
  }

  /** Two operations that have each bumped what the other is about to swap: at most one can complete. */
  ghost predicate Crossed(T: Thread, U: Thread) {
    T.pc.Target? && U.pc.Target? && GuardLoc(T, T.pc.kind) == TargetLoc(U, U.pc.kind) && GuardLoc(U, U.pc.kind) == TargetLoc(T, T.pc.kind)
  }

  ghost predicate CrossOk(h: Heap, T: Thread, U: Thread) {
    Crossed(T, U) ==> !(Live(h, T) && Live(h, U))
  }

  // ---------------------------------------------------------------- how the shared slots evolve

  ghost predicate SlotEvolves(h: Heap, h': Heap, b: int, i: int) {
    var s, s' := At(h.mem, b, i), At(h'.mem, b, i);
    && s.count <= s'.count
    && (s.count == s'.count ==> s == s')
    && (s.typ == SEALED ==> s'.typ == SEALED)
  }

  ghost predicate LinkEvolves(h: Heap, h': Heap, S: Side, b: int, c: int) {
    && (IsLink(h.mem, b, FarLink(S), c) ==> IsLink(h'.mem, b, FarLink(S), c) || Typ(h.mem, c, NearValue(S)) == SEALED)
    && (IsLink(h.mem, c, NearLink(S), b) && Typ(h.mem, c, NearValue(S)) == SEALED ==> IsLink(h'.mem, c, NearLink(S), b))
  }

  ghost predicate Evolves(h: Heap, h': Heap) {
    && h.bufs <= h'.bufs
    && (forall b, i {:trigger SlotEvolves(h, h', b, i)} :: b in h.bufs && 0 <= i < N ==> SlotEvolves(h, h', b, i))
    && (forall S, b, c {:trigger LinkEvolves(h, h', S, b, c)} :: b in h.bufs && c in h.bufs ==> LinkEvolves(h, h', S, b, c))
  }

  lemma NearStable(h: Heap, h': Heap, T: Thread)
    requires Evolves(h, h') && Placed(h, T) && NearOk(h, T)
    ensures Placed(h', T) && NearOk(h', T) && (Stale(h, T) ==> Stale(h', T))
  {
    assert SlotEvolves(h, h', T.b, T.i);
  }

  lemma FarStable(h: Heap, h': Heap, T: Thread)
    requires Evolves(h, h') && Placed(h, T) && FarOk(h, T)
    ensures FarOk(h', T)
  {
    var S := T.op.side;
    assert SlotEvolves(h, h', T.b, T.i + Dir(S));
    if T.far.typ == VALUE {
      assert SlotEvolves(h, h', T.far.word, NearValue(S));
      assert LinkEvolves(h, h', S, T.b, T.far.word);
    }
  }

  lemma ReachStable(h: Heap, h': Heap, T: Thread)
    requires Evolves(h, h') && Placed(h, T) && FarOk(h, T) && ReachOk(h, T)
    ensures ReachOk(h', T)
  {
    assert SlotEvolves(h, h', T.far.word, NearValue(T.op.side));
  }

  lemma KindStable(h: Heap, h': Heap, T: Thread, k: Kind)
    requires Evolves(h, h') && Placed(h, T) && FarOk(h, T) && KindOk(h, T, k)
    ensures KindOk(h', T, k)
  {
    if k == KStraddle || k == KSeal || k == KUnlink {
      ReachStable(h, h', T);
      assert LinkEvolves(h, h', T.op.side, T.b, T.far.word);
    }
  }

  lemma GuardStable(h: Heap, h': Heap, T: Thread, k: Kind)
    requires Evolves(h, h') && Placed(h, T) && GuardedOk(h, T, k)
    ensures GuardedOk(h', T, k)
  {
    assert SlotEvolves(h, h', T.b, T.i);
    assert SlotEvolves(h, h', T.b, T.i + Dir(T.op.side));
  }

  /** Everything but `Safe` follows from the way slots evolve. */
  lemma PhaseStable(h: Heap, h': Heap, T: Thread)
    requires Evolves(h, h') && ThreadOk(h, T)
    requires Live(h', T) ==> Safe(h', T)
    ensures ThreadOk(h', T)
  {
    if T.pc != Idle && T.pc != Oracle && !T.pc.Return? && T.pc != LoadNear {
      NearStable(h, h', T);
      if T.pc != LoadFar {
        FarStable(h, h', T);
        match T.pc
        case LoadBack => ReachStable(h, h', T);
        case Check(k) => KindStable(h, h', T, k);
        case Guard(k) => KindStable(h, h', T, k);
        case Target(k) => KindStable(h, h', T, k); GuardStable(h, h', T, k);
        case _ =>
      }
    }
  }

  /** A snapshot that fails now fails for ever. */
  lemma LiveBack(h: Heap, h': Heap, T: Thread)
    requires Evolves(h, h') && ThreadOk(h, T) && Live(h', T)
    ensures Live(h, T)
  {
    var S := T.op.side;
    assert SlotEvolves(h, h', T.b, T.i);
    assert SlotEvolves(h, h', T.b, T.i + Dir(S));
    if T.far.typ == VALUE { assert SlotEvolves(h, h', T.far.word, NearValue(S)); }
  }

  // ---------------------------------------------------------------- every write evolves the slots

  lemma PutEvolves(h: Heap, l: Loc, s: Slot)
    requires WF(h) && l.buf in h.bufs && 0 <= l.idx < N
    requires s.count > At(h.mem, l.buf, l.idx).count
    requires At(h.mem, l.buf, l.idx).typ == SEALED ==> s.typ == SEALED
    requires l.idx == 0 || l.idx == N - 1 ==> s.typ == At(h.mem, l.buf, l.idx).typ && s.word == At(h.mem, l.buf, l.idx).word
    ensures Evolves(h, Put(h, l, s))
  {
    var h' := Put(h, l, s);
    forall S: Side, b, c | b in h.bufs && c in h.bufs ensures LinkEvolves(h, h', S, b, c) {
    }
  }

  lemma GrowEvolves(h: Heap, S: Side, b: int, d: int, v: int, s: Slot, nb: Mem)
    requires CanAppend(h, S, b, d, v, s, nb) && s.count > At(h.mem, b, FarLink(S)).count
    ensures Evolves(h, Grow(h, S, b, d, s, nb))
  {
    var h' := Grow(h, S, b, d, s, nb);
    AppendAtEnd(h, S, b, d, v, s, nb);
    assert NodeOk(h, b);
    forall a, i | a in h.bufs && 0 <= i < N ensures SlotEvolves(h, h', a, i) {
      GrowAt(h, S, b, d, v, s, nb, a, i);
    }
    forall T: Side, a, c | a in h.bufs && c in h.bufs ensures LinkEvolves(h, h', T, a, c) {
      GrowAt(h, S, b, d, v, s, nb, a, FarLink(T));
      GrowAt(h, S, b, d, v, s, nb, c, NearLink(T));
      GrowAt(h, S, b, d, v, s, nb, c, NearValue(T));
    }
  }

  lemma ShrinkEvolves(h: Heap, S: Side, b: int, c: int, s: Slot)
    requires CanUnlink(h, S, b, c, s) && s.count > At(h.mem, b, FarLink(S)).count
    ensures Evolves(h, Shrink(h, S, b, c, s))
  {
    var h' := Shrink(h, S, b, c, s);
    SealedAtEnd(h, S, b, c, s);
    assert NodeOk(h, b);
    forall T: Side, a, e | a in h.bufs && e in h.bufs ensures LinkEvolves(h, h', T, a, e) {
    }
  }
}
