/** If the words that `casType` leaves are no addresses of buffers, no pop takes a stale word for a back link. */
module OFTidy {
  import opened DequeSpec
  import opened OFHeap
  import opened OFMoves
  import opened OFMachine
  import opened OFInv
  import opened OFSteps
  import opened OFEmpty
  import opened OFDeque

  /** The addresses that buffers may have, and the words that `casType` may leave. */
  datatype Pool = Pool(addresses: iset<int>, words: iset<int>)

  /** No word that may be left is an address. */
  ghost predicate Apart(p: Pool) { forall a :: a in p.addresses ==> a !in p.words }

  ghost predicate ActOk(a: Act, p: Pool) { (a.Go? ==> a.word in p.words) && (a.Attach? ==> a.d in p.addresses) }

  ghost predicate Using(s: State, run: seq<Sched>, p: Pool) {
    (forall b :: b in s.h.bufs ==> b in p.addresses) && forall k {:trigger run[k]} :: 0 <= k < |run| ==> ActOk(run[k].act, p)
  }

  ghost predicate SlotTidy(x: Slot, p: Pool) { x.typ == VALUE || x.word in p.words }

  /** If b links to c, the back link slot of c was written by a link or by `casType`. */
  ghost predicate LinkTidy(m: Mem, S: Side, b: int, c: int, p: Pool) {
    IsLink(m, b, FarLink(S), c) ==> SlotTidy(At(m, c, NearLink(S)), p)
  }

  ghost predicate Tidy(h: Heap, p: Pool) {
    && (forall b :: b in h.bufs ==> b in p.addresses)
    && (forall S: Side, b, c {:trigger LinkTidy(h.mem, S, b, c, p)} :: b in h.bufs && c in h.bufs ==> LinkTidy(h.mem, S, b, c, p))
  }

  ghost predicate ThreadTidy(h: Heap, T: Thread, p: Pool) {
    && (T.pc == LoadBack && T.reach.typ == FarType(T.op.side) ==> SlotTidy(Load(h, BackLoc(T)), p))
    && (T.pc != Idle && T.pc != Oracle ==> !T.fooled)
  }

  /** A step leaves link slots tidy. */
  ghost predicate SlotsKept(h: Heap, h': Heap, p: Pool) {
    forall b, S: Side {:trigger At(h'.mem, b, NearLink(S))} ::
      b in h.bufs && SlotTidy(At(h.mem, b, NearLink(S)), p) ==> SlotTidy(At(h'.mem, b, NearLink(S)), p)
  }

  lemma HitSlots(h: Heap, T: Thread, t: nat, k: Kind, a: Act, p: Pool)
    requires Fires(h, T, k, a) && ActOk(a, p)
    ensures SlotsKept(h, Hit(h, T, t, k, a).h, p)
  {
  }

  lemma MicroSlots(h: Heap, T: Thread, t: nat, clock: nat, a: Act, p: Pool)
    requires WF(h) && ThreadOk(h, T) && Enabled(h, T, a) && ActOk(a, p)
    ensures SlotsKept(h, Micro(h, T, t, clock, a).h, p)
  {
    if T.pc.Target? && Live(h, T) { HitSlots(h, T, t, T.pc.kind, a, p); }
  }

  /** The links of a new buffer are tidy. */
  lemma GrownTidy(h: Heap, S: Side, b: int, d: int, v: int, s: Slot, nb: Mem, p: Pool, D: Side, x: int, c: int)
    requires CanAppend(h, S, b, d, v, s, nb) && SlotsKept(h, Grow(h, S, b, d, s, nb), p) && NoNewLinks(h, Grow(h, S, b, d, s, nb))
    requires Tidy(h, p) && (x in h.bufs || x == d) && (c in h.bufs || c == d)
    ensures LinkTidy(Grow(h, S, b, d, s, nb).mem, D, x, c, p)
  {
    var h' := Grow(h, S, b, d, s, nb);
    GrowAt(h, S, b, d, v, s, nb, x, FarLink(D));
    GrowAt(h, S, b, d, v, s, nb, c, NearLink(D));
    if x in h.bufs {
      assert NodeOk(h, x);
      assert LinkOk(h, D, x);
      if c in h.bufs {
        assert LinkTidy(h.mem, D, x, c, p);
        assert IsLink(h'.mem, x, NearLink(Opp(D)), c) ==> IsLink(h.mem, x, NearLink(Opp(D)), c);
        assert SlotTidy(At(h.mem, c, NearLink(D)), p) ==> SlotTidy(At(h'.mem, c, NearLink(D)), p);
      } else {
        assert LinkTidy(h'.mem, D, x, c, p);
      }
    } else {
      assert Typ(nb, d, FarLink(S)) == FarType(S);
      assert FarLink(Opp(S)) == NearLink(S) && NearLink(Opp(S)) == FarLink(S);
      assert D == S || D == Opp(S);
    }
  }

  lemma KeptTidy(h: Heap, h': Heap, p: Pool)
    requires Tidy(h, p) && SlotsKept(h, h', p) && NoNewLinks(h, h') && h'.bufs == h.bufs
    ensures Tidy(h', p)
  {
    forall S: Side, b, c {:trigger LinkTidy(h'.mem, S, b, c, p)} | b in h'.bufs && c in h'.bufs ensures LinkTidy(h'.mem, S, b, c, p) {
      assert LinkTidy(h.mem, S, b, c, p);
      assert FarLink(S) == NearLink(Opp(S));
    }
  }

  lemma AppendTidy(h: Heap, T: Thread, t: nat, a: Act, p: Pool)
    requires Fires(h, T, KAppend, a) && a.Attach? && ActOk(a, p) && Tidy(h, p)
    ensures Tidy(Hit(h, T, t, KAppend, a).h, p)
  {
    var S, s := T.op.side, NewSlot(T, KAppend, a.d);
    HitSlots(h, T, t, KAppend, a, p);
    HitLinks(h, T, t, KAppend, a);
    var h' := Grow(h, S, T.b, a.d, s, a.nb);
    forall D: Side, b, c {:trigger LinkTidy(h'.mem, D, b, c, p)} | b in h'.bufs && c in h'.bufs ensures LinkTidy(h'.mem, D, b, c, p) {
      GrownTidy(h, S, T.b, a.d, T.op.value, s, a.nb, p, D, b, c);
    }
  }

  lemma MicroTidy(h: Heap, T: Thread, t: nat, clock: nat, a: Act, p: Pool)
    requires WF(h) && ThreadOk(h, T) && Enabled(h, T, a) && ActOk(a, p) && Tidy(h, p)
    ensures Tidy(Micro(h, T, t, clock, a).h, p)
  {
    if T.pc == Target(KAppend) && Live(h, T) {
      AppendTidy(h, T, t, a, p);
    } else {
      MicroSlots(h, T, t, clock, a, p);
      MicroLinks(h, T, t, clock, a);
      KeptTidy(h, Micro(h, T, t, clock, a).h, p);
    }
  }

  lemma OwnTidy(h: Heap, T: Thread, t: nat, clock: nat, a: Act, p: Pool)
    requires WF(h) && ThreadOk(h, T) && Enabled(h, T, a) && Tidy(h, p) && ThreadTidy(h, T, p) && Apart(p)
    ensures var o := Micro(h, T, t, clock, a); ThreadTidy(o.h, o.T, p)
  {
    if T.pc == LoadReach {
      assert LinkTidy(h.mem, T.op.side, T.b, T.far.word, p);
    }
  }

  lemma OtherTidy(h: Heap, h': Heap, T: Thread, p: Pool)
    requires ThreadOk(h, T) && ThreadTidy(h, T, p) && SlotsKept(h, h', p)
    ensures ThreadTidy(h', T, p)
  {
  }

  /** No call that has an answer was fooled. */
  lemma {:induction false} NeverFooled(s: State, run: seq<Sched>, p: Pool)
    requires Init(s) && Run(s, run) && Using(s, run, p) && Apart(p)
    ensures Tidy(Exec(s, run).h, p) && forall t :: 0 <= t < |Exec(s, run).th| ==> ThreadTidy(Exec(s, run).h, Exec(s, run).th[t], p)
    decreases |run|
  {
    if run == [] {
      InitTidy(s, p);
    } else {
      var r, x := run[..|run| - 1], run[|run| - 1];
      NeverFooled(s, r, p);
      RunInv(s, r);
      StepTidy(Exec(s, r), x.tid, x.act, p);
    }
  }

  lemma InitTidy(s: State, p: Pool)
    requires Init(s) && Using(s, [], p)
    ensures Tidy(s.h, p) && forall t :: 0 <= t < |s.th| ==> ThreadTidy(s.h, s.th[t], p)
  {
    InitWF(s);
    forall S: Side, b, c {:trigger LinkTidy(s.h.mem, S, b, c, p)} | b in s.h.bufs && c in s.h.bufs ensures LinkTidy(s.h.mem, S, b, c, p) {}
  }

  lemma StepTidy(z: State, t: nat, a: Act, p: Pool)
    requires Inv(z) && CanStep(z, t, a) && ActOk(a, p) && Apart(p)
    requires Tidy(z.h, p) && forall u :: 0 <= u < |z.th| ==> ThreadTidy(z.h, z.th[u], p)
    ensures var z' := Step(z, t, a); Tidy(z'.h, p) && forall u :: 0 <= u < |z'.th| ==> ThreadTidy(z'.h, z'.th[u], p)
  {
    var z' := Step(z, t, a);
    assert CallOk(z, t);
    MicroTidy(z.h, z.th[t], t, z.clock, a, p);
    MicroSlots(z.h, z.th[t], t, z.clock, a, p);
    forall u | 0 <= u < |z'.th| ensures ThreadTidy(z'.h, z'.th[u], p) {
      assert CallOk(z, u);
      if u == t { OwnTidy(z.h, z.th[t], t, z.clock, a, p); } else { OtherTidy(z.h, z'.h, z.th[u], p); }
    }
  }
}
