/** The crossing argument: no step of one thread invalidates a pending swap of another that can still succeed. */
module OFCross {
  import opened DequeSpec
  import opened OFHeap
  import opened OFMoves
  import opened OFMachine
  import opened OFInv
  import opened OFSteps

  /** T and U stand before their second swaps, both can succeed, and U goes first. */
  ghost predicate Race(h: Heap, T: Thread, U: Thread, k: Kind, a: Act) {
    && Fires(h, U, k, a)
    && ThreadOk(h, T) && T.pc.Target? && Live(h, T)
    && CrossOk(h, T, U)
  }

  function Swapped(h: Heap, U: Thread, u: nat, k: Kind, a: Act): Heap
    requires U.pc == Target(k)
  {
    Hit(h, U, u, k, a).h
  }

  /** Only the swapped slot of a published buffer differs. */
  lemma HitFrame(h: Heap, U: Thread, u: nat, k: Kind, a: Act, b: int, i: int)
    requires Fires(h, U, k, a) && b in h.bufs && 0 <= i < N && Loc(b, i) != TargetLoc(U, k)
    ensures At(Swapped(h, U, u, k, a).mem, b, i) == At(h.mem, b, i)
  {
  }

  lemma AppendAt(h: Heap, U: Thread, u: nat, a: Act)
    requires Fires(h, U, KAppend, a)
    ensures var s := Load(Swapped(h, U, u, KAppend, a), TargetLoc(U, KAppend)); s == NewSlot(U, KAppend, s.word)
  {
    assert NodeOk(h, U.b);
  }

  lemma HitAt(h: Heap, U: Thread, u: nat, k: Kind, a: Act)
    requires Fires(h, U, k, a)
    ensures var s := Load(Swapped(h, U, u, k, a), TargetLoc(U, k));
            s == NewSlot(U, k, s.word) && s.count == TargetSlot(U, k).count + 1
  {
    if k == KAppend { AppendAt(h, U, u, a); }
  }

  lemma PushKept(h: Heap, T: Thread, U: Thread, u: nat, k: Kind, a: Act)
    requires Race(h, T, U, k, a) && T.pc.kind == KPush
    ensures Safe(Swapped(h, U, u, k, a), T)
  {
    HitAt(h, U, u, k, a);
    if NearLoc(T) != TargetLoc(U, k) {
      HitFrame(h, U, u, k, a, T.b, T.i);
    }
  }

  lemma AppendKept(h: Heap, T: Thread, U: Thread, u: nat, k: Kind, a: Act)
    requires Race(h, T, U, k, a) && T.pc.kind == KAppend
    ensures Safe(Swapped(h, U, u, k, a), T)
  {
    HitAt(h, U, u, k, a);
    if NearLoc(T) != TargetLoc(U, k) {
      HitFrame(h, U, u, k, a, T.b, T.i);
    }
  }

  lemma PopKept(h: Heap, T: Thread, U: Thread, u: nat, k: Kind, a: Act)
    requires Race(h, T, U, k, a) && T.pc.kind == KPop
    ensures Safe(Swapped(h, U, u, k, a), T)
  {
    var S := T.op.side;
    HitAt(h, U, u, k, a);
    if FarLoc(T) != TargetLoc(U, k) {
      HitFrame(h, U, u, k, a, T.b, T.i + Dir(S));
    }
  }

  lemma SealKept(h: Heap, T: Thread, U: Thread, u: nat, k: Kind, a: Act)
    requires Race(h, T, U, k, a) && T.pc.kind == KSeal
    ensures Safe(Swapped(h, U, u, k, a), T)
  {
    var S := T.op.side;
    HitAt(h, U, u, k, a);
    assert NodeOk(h, T.b);
    NearInChain(h, S, T.b);
    LinkedNeighbour(h, S, T.b, T.far.word);
    if Loc(T.b, FarValue(S)) != TargetLoc(U, k) {
      HitFrame(h, U, u, k, a, T.b, FarValue(S));
    }
    if Loc(T.b, FarLink(S)) != TargetLoc(U, k) {
      HitFrame(h, U, u, k, a, T.b, FarLink(S));
    }
    if k == KSeal {
      NearInChain(h, U.op.side, U.b);
      LinkedNeighbour(h, U.op.side, U.b, U.far.word);
    }
  }

  lemma SafeKept(h: Heap, T: Thread, U: Thread, u: nat, k: Kind, a: Act)
    requires Race(h, T, U, k, a)
    ensures Safe(Swapped(h, U, u, k, a), T)
  {
    match T.pc.kind
    case KPush => PushKept(h, T, U, u, k, a);
    case KAppend => AppendKept(h, T, U, u, k, a);
    case KPop => PopKept(h, T, U, u, k, a);
    case KSeal => SealKept(h, T, U, u, k, a);
    case _ =>
  }
}
