/** Each atomic step keeps the chain well formed and leaves the stepping thread's own facts true. */
module OFSteps {
  import opened DequeSpec
  import opened OFHeap
  import opened OFMoves
  import opened OFMachine
  import opened OFInv

  ghost predicate OwnStep(h: Heap, o: Out) {
    && WF(o.h) && Evolves(h, o.h) && ThreadOk(o.h, o.T)
    && Effect(Abs(h), Abs(o.h), o.events)
  }

  ghost predicate Fires(h: Heap, T: Thread, k: Kind, a: Act) {
    && WF(h) && ThreadOk(h, T) && T.pc == Target(k) && Live(h, T) && Enabled(h, T, a)
  }

  lemma NothingChanges(h: Heap)
    requires WF(h)
    ensures Evolves(h, h)
  {
    forall b, i | b in h.bufs && 0 <= i < N ensures SlotEvolves(h, h, b, i) {}
    forall S: Side, b, c | b in h.bufs && c in h.bufs ensures LinkEvolves(h, h, S, b, c) {}
  }

  lemma HitPush(h: Heap, T: Thread, t: nat, k: Kind, a: Act)
    requires Fires(h, T, k, a) && (k == KPush || k == KStraddle)
    ensures OwnStep(h, Hit(h, T, t, k, a))
  {
    var S := T.op.side;
    var l := TargetLoc(T, k);
    var s := NewSlot(T, k, 0);
    assert NodeOk(h, l.buf);
    PushMove(h, S, l.buf, l.idx, s);
    PutEvolves(h, l, s);
  }

  lemma HitAppend(h: Heap, T: Thread, t: nat, a: Act)
    requires Fires(h, T, KAppend, a)
    ensures OwnStep(h, Hit(h, T, t, KAppend, a))
  {
    var s := NewSlot(T, KAppend, a.d);
    AppendMove(h, T.op.side, T.b, a.d, T.op.value, s, a.nb);
    GrowEvolves(h, T.op.side, T.b, a.d, T.op.value, s, a.nb);
  }

  lemma HitPop(h: Heap, T: Thread, t: nat, a: Act)
    requires Fires(h, T, KPop, a)
    ensures OwnStep(h, Hit(h, T, t, KPop, a))
  {
    var s := NewSlot(T, KPop, a.word);
    assert T.near.typ == VALUE;
    assert NodeOk(h, T.b);
    PopMove(h, T.op.side, T.b, T.i, s);
    PutEvolves(h, NearLoc(T), s);
  }

  lemma HitSeal(h: Heap, T: Thread, t: nat, a: Act)
    requires Fires(h, T, KSeal, a)
    ensures OwnStep(h, Hit(h, T, t, KSeal, a))
  {
    var S := T.op.side;
    var c := T.far.word;
    var s := NewSlot(T, KSeal, a.word);
    NearInChain(h, S, T.b);
    LinkedNeighbour(h, S, T.b, c);
    SealMove(h, S, T.b, c, s);
    PutEvolves(h, ReachLoc(T), s);
  }

  lemma HitUnlink(h: Heap, T: Thread, t: nat, a: Act)
    requires Fires(h, T, KUnlink, a)
    ensures OwnStep(h, Hit(h, T, t, KUnlink, a))
    ensures CanUnlink(h, T.op.side, T.b, T.far.word, NewSlot(T, KUnlink, a.word))
  {
    var S := T.op.side;
    var c := T.far.word;
    var s := NewSlot(T, KUnlink, a.word);
    UnlinkMove(h, S, T.b, c, s);
    ShrinkEvolves(h, S, T.b, c, s);
    SealedAtEnd(h, S, T.b, c, s);
  }

  lemma HitStep(h: Heap, T: Thread, t: nat, k: Kind, a: Act)
    requires Fires(h, T, k, a)
    ensures OwnStep(h, Hit(h, T, t, k, a))
  {
    match k
    case KPush | KStraddle => HitPush(h, T, t, k, a);
    case KAppend => HitAppend(h, T, t, a);
    case KPop => HitPop(h, T, t, a);
    case KSeal => HitSeal(h, T, t, a);
    case KUnlink => HitUnlink(h, T, t, a);
  }

  /** With the guard as it was read and the target still current, the second swap is sound. */
  lemma GuardSafe(h: Heap, T: Thread, k: Kind)
    requires WF(h) && ThreadOk(h, T) && T.pc == Guard(k) && Load(h, GuardLoc(T, k)) == GuardSlot(T, k)
    ensures Load(h, TargetLoc(T, k)) == TargetSlot(T, k) ==> Safe(h, T.(pc := Target(k)))
  {
    assert NodeOk(h, T.b);
  }

  lemma SafeFrame(h: Heap, h': Heap, T: Thread)
    requires Safe(h, T) && Placed(h, T)
    requires forall b, i :: Typ(h'.mem, b, i) == Typ(h.mem, b, i) && At(h'.mem, b, i).word == At(h.mem, b, i).word
    ensures Safe(h', T)
  {
  }

  /** The bump of the guard leaves what the second swap relies on; a bump of the target itself would disable that swap. */
  lemma GuardLive(h: Heap, T: Thread, k: Kind)
    requires WF(h) && ThreadOk(h, T) && T.pc == Guard(k) && Load(h, GuardLoc(T, k)) == GuardSlot(T, k)
    ensures var h', T' := Put(h, GuardLoc(T, k), Bumped(GuardSlot(T, k))), T.(pc := Target(k)); Live(h', T') ==> Safe(h', T')
  {
    var l := GuardLoc(T, k);
    var h', T' := Put(h, l, Bumped(GuardSlot(T, k))), T.(pc := Target(k));
    GuardSafe(h, T, k);
    if Live(h', T') && TargetLoc(T, k) != l { SafeFrame(h, h', T'); }
  }

  lemma GuardPhase(h: Heap, T: Thread, k: Kind)
    requires WF(h) && ThreadOk(h, T) && T.pc == Guard(k) && Load(h, GuardLoc(T, k)) == GuardSlot(T, k)
    requires Evolves(h, Put(h, GuardLoc(T, k), Bumped(GuardSlot(T, k))))
    ensures ThreadOk(Put(h, GuardLoc(T, k), Bumped(GuardSlot(T, k))), T.(pc := Target(k)))
  {
    var l := GuardLoc(T, k);
    var h' := Put(h, l, Bumped(GuardSlot(T, k)));
    NearStable(h, h', T);
    FarStable(h, h', T);
    KindStable(h, h', T, k);
    GuardLive(h, T, k);
  }

  lemma GuardStep(h: Heap, T: Thread, t: nat, clock: nat, a: Act)
    requires WF(h) && ThreadOk(h, T) && T.pc.Guard? && Enabled(h, T, a)
    ensures OwnStep(h, Micro(h, T, t, clock, a))
  {
    var k := T.pc.kind;
    var l := GuardLoc(T, k);
    if Load(h, l) == GuardSlot(T, k) {
      BumpMove(h, l, Bumped(GuardSlot(T, k)));
      PutEvolves(h, l, Bumped(GuardSlot(T, k)));
      GuardPhase(h, T, k);
    } else {
      NothingChanges(h);
    }
  }

  lemma FarStep(h: Heap, T: Thread)
    requires WF(h) && ThreadOk(h, T) && T.pc == LoadFar
    ensures var T' := T.(far := Load(h, FarLoc(T))); ThreadOk(h, T'.(pc := AfterFar(T')))
  {
    assert NodeOk(h, T.b);
  }

  lemma ReachStep(h: Heap, T: Thread)
    requires WF(h) && ThreadOk(h, T) && T.pc == LoadReach
    ensures ThreadOk(h, T.(reach := Load(h, ReachLoc(T)), pc := LoadBack))
  {
  }

  lemma BackStep(h: Heap, T: Thread)
    requires WF(h) && ThreadOk(h, T) && T.pc == LoadBack
    ensures ThreadOk(h, T.(pc := AfterBack(T, Load(h, BackLoc(T)))))
  {
    assert NodeOk(h, T.b);
    assert NodeOk(h, T.far.word);
  }

  lemma LoadStep(h: Heap, T: Thread, t: nat, clock: nat, a: Act)
    requires WF(h) && ThreadOk(h, T) && (T.pc == LoadFar || T.pc == LoadReach || T.pc == LoadBack)
    ensures OwnStep(h, Micro(h, T, t, clock, a))
  {
    NothingChanges(h);
    match T.pc
    case LoadFar => FarStep(h, T);
    case LoadReach => ReachStep(h, T);
    case LoadBack => BackStep(h, T);
  }

  lemma QuietStep(h: Heap, T: Thread, t: nat, clock: nat, a: Act)
    requires WF(h) && ThreadOk(h, T) && !T.pc.Guard? && !T.pc.Target? && Enabled(h, T, a)
    ensures OwnStep(h, Micro(h, T, t, clock, a))
  {
    NothingChanges(h);
    if T.pc == LoadFar || T.pc == LoadReach || T.pc == LoadBack { LoadStep(h, T, t, clock, a); }
  }

  lemma OwnStepOk(h: Heap, T: Thread, t: nat, clock: nat, a: Act)
    requires WF(h) && ThreadOk(h, T) && Enabled(h, T, a)
    ensures OwnStep(h, Micro(h, T, t, clock, a))
  {
    if T.pc.Guard? {
      GuardStep(h, T, t, clock, a);
    } else if T.pc.Target? {
      if Live(h, T) { HitStep(h, T, t, T.pc.kind, a); } else { NothingChanges(h); }
    } else {
      QuietStep(h, T, t, clock, a);
    }
  }
}
