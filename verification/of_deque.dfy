/** OFDeque.hpp as a deque: the results over every run of any number of threads. */
module OFDeque {
  import opened DequeSpec
  import opened OFHeap
  import opened OFMoves
  import opened OFMachine
  import opened OFInv
  import opened OFSteps
  import opened OFCross
  import opened OFEmpty

  // ---------------------------------------------------------------- invariant of the whole machine

  /** What a call has contributed so far: its one push or pop, once it has taken effect. */
  ghost predicate LinOk(T: Thread, t: nat) {
    AnswerOk(t, T.op, T.pc.Return?, if T.pc.Return? then T.pc.result else None, T.lin)
  }

  ghost predicate CallOk(s: State, t: nat)
    requires t < |s.th|
  {
    var T := s.th[t];
    && ThreadOk(s.h, T)
    && LinOk(T, t)
    && Accounted(s.events, s.calls, t, T.lin)
    && T.start <= s.clock
    && EmptyFact(s.h, T, s.lastEmpty >= T.start)
  }

  ghost predicate PairsOk(s: State) {
    forall t, u {:trigger CrossOk(s.h, s.th[t], s.th[u])} :: 0 <= t < |s.th| && 0 <= u < |s.th| && t != u ==> CrossOk(s.h, s.th[t], s.th[u])
  }

  /** Each buffer is unlinked at most once, and then it is out of the chain for good. */
  ghost predicate UnlinkedOk(h: Heap, unlinked: seq<int>) {
    && (forall i :: 0 <= i < |unlinked| ==> unlinked[i] in h.bufs && unlinked[i] !in h.pos)
    && (forall i, j :: 0 <= i < j < |unlinked| ==> unlinked[i] != unlinked[j])
  }

  ghost predicate Inv(s: State) {
    && WF(s.h)
    && (forall t {:trigger CallOk(s, t)} :: 0 <= t < |s.th| ==> CallOk(s, t))
    && PairsOk(s)
    && UnlinkedOk(s.h, s.unlinked)
    && s.lastEmpty <= s.clock
    && Replay(s.events) == Some(Abs(s.h))
  }

  lemma InitInv(s: State)
    requires Init(s)
    ensures Inv(s)
  {
    InitWF(s);
  }

  ghost predicate CanStep(s: State, t: nat, a: Act) { t < |s.th| && Enabled(s.h, s.th[t], a) }

  // ---------------------------------------------------------------- one step

  lemma StepLin(h: Heap, T: Thread, t: nat, clock: nat, a: Act)
    requires ThreadOk(h, T) && LinOk(T, t) && Enabled(h, T, a)
    ensures var o := Micro(h, T, t, clock, a);
            && LinOk(o.T, t)
            && Effects(Finished(T, t)) + Pending(o.T.lin) == Pending(T.lin) + o.events
            && (o.events == [] || (|o.events| == 1 && o.events[0].tid == t))
  {
    if T.pc.Target? {
      assert KindOk(h, T, T.pc.kind);
    }
  }

  /** No step changes the account of any thread. */
  lemma StepOnce(s: State, t: nat, a: Act, u: nat)
    requires CanStep(s, t, a) && u < |s.th| && Accounted(s.events, s.calls, u, s.th[u].lin)
    requires ThreadOk(s.h, s.th[t]) && LinOk(s.th[t], t)
    ensures Accounted(Step(s, t, a).events, Step(s, t, a).calls, u, Step(s, t, a).th[u].lin)
  {
    var T := s.th[t];
    var o := Micro(s.h, T, t, s.clock, a);
    StepLin(s.h, T, t, s.clock, a);
    StepAccounted(s.events, o.events, s.calls, Finished(T, t), t, u, T.lin, o.T.lin, s.th[u].lin);
  }

  lemma StepOwn(s: State, t: nat, a: Act)
    requires Inv(s) && CanStep(s, t, a)
    ensures CallOk(Step(s, t, a), t)
  {
    var T := s.th[t];
    assert CallOk(s, t);
    var o := Micro(s.h, T, t, s.clock, a);
    OwnStepOk(s.h, T, t, s.clock, a);
    StepLin(s.h, T, t, s.clock, a);
    var s' := Step(s, t, a);
    StepOnce(s, t, a, t);
    if T.pc != Idle {
      OwnEmpty(s.h, T, t, s.clock, a, s.lastEmpty >= T.start, s'.lastEmpty >= T.start);
    }
  }

  /** A step of T leaves the pending swap of another thread U sound. */
  lemma OtherSafe(h: Heap, T: Thread, t: nat, clock: nat, a: Act, U: Thread)
    requires WF(h) && ThreadOk(h, T) && ThreadOk(h, U) && CrossOk(h, U, T) && Enabled(h, T, a)
    requires Evolves(h, Micro(h, T, t, clock, a).h)
    ensures var h' := Micro(h, T, t, clock, a).h; Live(h', U) ==> Safe(h', U)
  {
    var h' := Micro(h, T, t, clock, a).h;
    if Live(h', U) {
      LiveBack(h, h', U);
      if T.pc.Target? {
        if Live(h, T) { SafeKept(h, U, T, t, T.pc.kind, a); }
      } else if T.pc.Guard? {
        SafeFrame(h, h', U);
      }
    }
  }

  lemma StepOther(s: State, t: nat, a: Act, u: nat)
    requires Inv(s) && CanStep(s, t, a) && u < |s.th| && u != t
    ensures CallOk(Step(s, t, a), u)
  {
    var U := s.th[u];
    var s' := Step(s, t, a);
    assert CallOk(s, t) && CallOk(s, u);
    OwnStepOk(s.h, s.th[t], t, s.clock, a);
    assert CrossOk(s.h, U, s.th[t]);
    OtherSafe(s.h, s.th[t], t, s.clock, a, U);
    PhaseStable(s.h, s'.h, U);
    StepOnce(s, t, a, u);
    MicroLinks(s.h, s.th[t], t, s.clock, a);
    EmptyStable(s.h, s'.h, U, s.lastEmpty >= U.start, s'.lastEmpty >= U.start);
  }

  /** Bumping a guard disables every pending swap of that slot. */
  lemma GuardKills(h: Heap, T: Thread, t: nat, clock: nat, a: Act, U: Thread)
    requires WF(h) && ThreadOk(h, T) && ThreadOk(h, U) && Enabled(h, T, a) && T.pc.Guard?
    ensures var o := Micro(h, T, t, clock, a); CrossOk(o.h, o.T, U) && CrossOk(o.h, U, o.T)
  {
  }

  lemma OthersCross(h: Heap, h': Heap, U: Thread, V: Thread)
    requires Evolves(h, h') && ThreadOk(h, U) && ThreadOk(h, V) && CrossOk(h, U, V)
    ensures CrossOk(h', U, V)
  {
    if Live(h', U) { LiveBack(h, h', U); }
    if Live(h', V) { LiveBack(h, h', V); }
  }

  lemma OwnCross(h: Heap, T: Thread, t: nat, clock: nat, a: Act, U: Thread)
    requires WF(h) && ThreadOk(h, T) && ThreadOk(h, U) && Enabled(h, T, a)
    ensures var o := Micro(h, T, t, clock, a); CrossOk(o.h, o.T, U) && CrossOk(o.h, U, o.T)
  {
    if T.pc.Guard? { GuardKills(h, T, t, clock, a, U); }
  }

  lemma StepPair(s: State, t: nat, a: Act, u: nat, v: nat)
    requires Inv(s) && CanStep(s, t, a) && u < |s.th| && v < |s.th| && u != v
    requires Evolves(s.h, Step(s, t, a).h)
    ensures var s' := Step(s, t, a); CrossOk(s'.h, s'.th[u], s'.th[v])
  {
    assert CallOk(s, t) && CallOk(s, u) && CallOk(s, v);
    if u == t {
      OwnCross(s.h, s.th[t], t, s.clock, a, s.th[v]);
    } else if v == t {
      OwnCross(s.h, s.th[t], t, s.clock, a, s.th[u]);
    } else {
      assert CrossOk(s.h, s.th[u], s.th[v]);
      OthersCross(s.h, Step(s, t, a).h, s.th[u], s.th[v]);
    }
  }

  /** A buffer that can be unlinked by side S: the last one of the chain, sealed and without values. */
  ghost predicate SpentEnd(h: Heap, S: Side, c: int) {
    c in h.pos && h.pos[c] == End(h, S) && Typ(h.mem, c, NearValue(S)) == SEALED && Segment(h.mem, c, 1, N - 1) == []
  }

  lemma MicroUnlinked(h: Heap, T: Thread, t: nat, clock: nat, a: Act)
    requires WF(h) && ThreadOk(h, T) && Enabled(h, T, a)
    ensures var o := Micro(h, T, t, clock, a);
            && (o.unlinked == [] ==> h.bufs <= o.h.bufs && forall b :: b in h.bufs && b !in h.pos ==> b !in o.h.pos)
            && (o.unlinked != [] ==> |o.unlinked| == 1 && SpentEnd(h, T.op.side, o.unlinked[0])
                                     && o.h.bufs == h.bufs && o.h.pos == h.pos - {o.unlinked[0]})
  {
    if T.pc.Target? && Live(h, T) && T.pc.kind == KUnlink {
      HitUnlink(h, T, t, a);
      SealedAtEnd(h, T.op.side, T.b, T.far.word, NewSlot(T, KUnlink, a.word));
    }
  }

  lemma StepUnlinked(h: Heap, T: Thread, t: nat, clock: nat, a: Act, unlinked: seq<int>)
    requires WF(h) && ThreadOk(h, T) && Enabled(h, T, a) && UnlinkedOk(h, unlinked)
    ensures var o := Micro(h, T, t, clock, a); UnlinkedOk(o.h, unlinked + o.unlinked)
  {
    MicroUnlinked(h, T, t, clock, a);
    assert forall b :: b in h.pos ==> b in h.bufs;
  }

  lemma StepInv(s: State, t: nat, a: Act)
    requires Inv(s) && CanStep(s, t, a)
    ensures Inv(Step(s, t, a))
  {
    var s' := Step(s, t, a);
    assert CallOk(s, t);
    OwnStepOk(s.h, s.th[t], t, s.clock, a);
    forall u | 0 <= u < |s'.th| ensures CallOk(s', u) {
      if u == t { StepOwn(s, t, a); } else { StepOther(s, t, a, u); }
    }
    forall u, v | 0 <= u < |s'.th| && 0 <= v < |s'.th| && u != v ensures CrossOk(s'.h, s'.th[u], s'.th[v]) {
      StepPair(s, t, a, u, v);
    }
    StepUnlinked(s.h, s.th[t], t, s.clock, a, s.unlinked);
    EffectReplays(Abs(s.h), Abs(s'.h), s.events, Micro(s.h, s.th[t], t, s.clock, a).events);
  }

  // ---------------------------------------------------------------- every run

  datatype Sched = Sched(tid: nat, act: Act)

  function Exec(s: State, run: seq<Sched>): State {
    if run == [] then s
    else
      var p := Exec(s, run[..|run| - 1]);
      var x := run[|run| - 1];
      if x.tid < |p.th| then Step(p, x.tid, x.act) else p
  }

  /** A run: any interleaving of enabled steps. */
  ghost predicate Run(s: State, run: seq<Sched>) {
    run == [] || (Run(s, run[..|run| - 1]) && CanStep(Exec(s, run[..|run| - 1]), run[|run| - 1].tid, run[|run| - 1].act))
  }

  lemma {:induction false} RunInv(s: State, run: seq<Sched>)
    requires Init(s) && Run(s, run)
    ensures Inv(Exec(s, run)) && Exec(s, run).clock == |run|
    decreases |run|
  {
    if run == [] {
      InitInv(s);
    } else {
      RunInv(s, run[..|run| - 1]);
      StepInv(Exec(s, run[..|run| - 1]), run[|run| - 1].tid, run[|run| - 1].act);
    }
  }

  /**
   * Refinement: in every run the pushes and pops that took effect, in that order, are a run of a plain deque that
   * ends with the contents of the chain; and the effects of each thread are exactly those of its finished calls
   * plus that of the call in progress, none missing and none repeated.
   */
  lemma DequeRefined(s: State, run: seq<Sched>)
    requires Init(s) && Run(s, run)
    ensures Replay(Exec(s, run).events) == Some(Abs(Exec(s, run).h))
    ensures forall t :: 0 <= t < |Exec(s, run).th| ==>
              Accounted(Exec(s, run).events, Exec(s, run).calls, t, Exec(s, run).th[t].lin)
  {
    RunInv(s, run);
    var z := Exec(s, run);
    forall t | 0 <= t < |z.th| ensures Accounted(z.events, z.calls, t, z.th[t].lin) {
      assert CallOk(z, t);
    }
  }

  /**
   * The only steps that change the deque are successful second swaps of a push or pop; each adds or removes exactly
   * one value at its own end, and the pop answers with it.
   */
  lemma StepRefines(s: State, t: nat, a: Act)
    requires Inv(s) && CanStep(s, t, a)
    ensures var T, s' := s.th[t], Step(s, t, a);
            if T.pc.Target? && Live(s.h, T) && T.pc.kind in {KPush, KAppend, KStraddle}
            then T.op.Push? && Abs(s'.h) == Add(T.op.side, Abs(s.h), T.op.value) && s'.th[t].pc == Return(None)
            else if T.pc.Target? && Live(s.h, T) && T.pc.kind == KPop
            then T.op.Pop? && s'.th[t].pc == Return(Some(T.near.word)) && Abs(s.h) == Add(T.op.side, Abs(s'.h), T.near.word)
            else Abs(s'.h) == Abs(s.h)
  {
    var T := s.th[t];
    assert CallOk(s, t);
    OwnStepOk(s.h, T, t, s.clock, a);
    if T.pc.Target? { assert KindOk(s.h, T, T.pc.kind); }
  }

  /** The crossing lemma, in every reachable state. */
  lemma NeverBothComplete(s: State, run: seq<Sched>, t: nat, u: nat)
    requires Init(s) && Run(s, run) && t < |Exec(s, run).th| && u < |Exec(s, run).th| && t != u
    requires Crossed(Exec(s, run).th[t], Exec(s, run).th[u])
    ensures !Live(Exec(s, run).h, Exec(s, run).th[t]) || !Live(Exec(s, run).h, Exec(s, run).th[u])
  {
    RunInv(s, run);
    assert CrossOk(Exec(s, run).h, Exec(s, run).th[t], Exec(s, run).th[u]);
  }

  /** With a single buffer in the chain its slots read LEFT+ VALUE* RIGHT+, and the deque is the values in between. */
  lemma SingleBufferShape(s: State, run: seq<Sched>) returns (b: int, l: int, r: int)
    requires Init(s) && Run(s, run) && Exec(s, run).h.lo == Exec(s, run).h.hi
    ensures b in Exec(s, run).h.bufs && Split(Exec(s, run).h.mem, b, l, r)
    ensures Abs(Exec(s, run).h) == Segment(Exec(s, run).h.mem, b, l, r)
  {
    RunInv(s, run);
    b, l, r := SingleBuffer(Exec(s, run).h);
  }

  lemma SealedStep(s: State, t: nat, a: Act, S: Side, b: int)
    requires Inv(s) && CanStep(s, t, a) && b in s.h.bufs && Typ(s.h.mem, b, NearValue(S)) == SEALED
    ensures b in Step(s, t, a).h.bufs && Typ(Step(s, t, a).h.mem, b, NearValue(S)) == SEALED
  {
    assert CallOk(s, t);
    OwnStepOk(s.h, s.th[t], t, s.clock, a);
    assert SlotEvolves(s.h, Step(s, t, a).h, b, NearValue(S));
  }

  /** Once sealed, a value slot stays sealed and its buffer never holds a value again, whatever happens afterwards. */
  lemma {:induction false} SealedForever(s: State, run: seq<Sched>, S: Side, b: int)
    requires Inv(s) && Run(s, run) && b in s.h.bufs && Typ(s.h.mem, b, NearValue(S)) == SEALED
    ensures Inv(Exec(s, run)) && b in Exec(s, run).h.bufs
    ensures Typ(Exec(s, run).h.mem, b, NearValue(S)) == SEALED && Segment(Exec(s, run).h.mem, b, 1, N - 1) == []
    decreases |run|
  {
    if run != [] {
      var p := Exec(s, run[..|run| - 1]);
      var x := run[|run| - 1];
      SealedForever(s, run[..|run| - 1], S, b);
      StepInv(p, x.tid, x.act);
      SealedStep(p, x.tid, x.act, S, b);
    }
    SealedHoldsNothing(Exec(s, run).h, S, b);
  }

  lemma UnlinksOnce(z: State, t: nat, a: Act)
    requires Inv(z) && CanStep(z, t, a)
    ensures var z' := Step(z, t, a);
            && (forall i, j :: 0 <= i < j < |z'.unlinked| ==> z'.unlinked[i] != z'.unlinked[j])
            && (forall c :: c in z'.unlinked ==> c !in z'.h.pos)
            && (z'.unlinked == z.unlinked || exists c :: z'.unlinked == z.unlinked + [c] && SpentEnd(z.h, z.th[t].op.side, c))
  {
    assert CallOk(z, t);
    StepUnlinked(z.h, z.th[t], t, z.clock, a, z.unlinked);
    MicroUnlinked(z.h, z.th[t], t, z.clock, a);
    var o := Micro(z.h, z.th[t], t, z.clock, a);
    assert z.unlinked + [] == z.unlinked;
    if o.unlinked != [] {
      assert o.unlinked == [o.unlinked[0]];
    }
  }

  /** Every buffer is unlinked at most once; when it is, it is the last of the chain, sealed and without values. */
  lemma UnlinkedOnce(s: State, run: seq<Sched>, t: nat, a: Act)
    requires Init(s) && Run(s, run) && CanStep(Exec(s, run), t, a)
    ensures var z' := Step(Exec(s, run), t, a);
            && (forall i, j :: 0 <= i < j < |z'.unlinked| ==> z'.unlinked[i] != z'.unlinked[j])
            && (forall c :: c in z'.unlinked ==> c !in z'.h.pos)
    ensures var z, z' := Exec(s, run), Step(Exec(s, run), t, a);
            z'.unlinked == z.unlinked ||
            (exists c :: z'.unlinked == z.unlinked + [c] && SpentEnd(z.h, z.th[t].op.side, c))
  {
    RunInv(s, run);
    UnlinksOnce(Exec(s, run), t, a);
  }

  /** No two neighbouring buffers of the chain are ever sealed against each other. */
  lemma NeverMutuallySealed(s: State, run: seq<Sched>, b: int, c: int, S: Side)
    requires Init(s) && Run(s, run) && b in Exec(s, run).h.pos && IsLink(Exec(s, run).h.mem, b, FarLink(S), c)
    ensures Typ(Exec(s, run).h.mem, b, FarValue(S)) != SEALED || Typ(Exec(s, run).h.mem, c, NearValue(S)) != SEALED
  {
    RunInv(s, run);
    LinkedNeighbour(Exec(s, run).h, S, b, c);
    assert NodeOk(Exec(s, run).h, b);
  }

  lemma {:induction false} LastEmptyInstant(s: State, run: seq<Sched>)
    requires Init(s) && Run(s, run)
    ensures Exec(s, run).lastEmpty <= |run| && Abs(Exec(s, run[..Exec(s, run).lastEmpty]).h) == []
    decreases |run|
  {
    RunInv(s, run);
    if run == [] {
      InitWF(s);
      assert run[..0] == run;
    } else {
      var r := run[..|run| - 1];
      LastEmptyInstant(s, r);
      RunInv(s, r);
      if Abs(Exec(s, run).h) == [] {
        assert run[..|run|] == run;
      } else {
        assert run[..Exec(s, r).lastEmpty] == r[..Exec(s, r).lastEmpty];
      }
    }
  }

  /** The instant at which thread t invoked its latest call. */
  function InvokedAt(s: State, run: seq<Sched>, t: nat): nat {
    if run == [] then 0
    else
      var p, x := Exec(s, run[..|run| - 1]), run[|run| - 1];
      if x.tid == t && t < |p.th| && p.th[t].pc == Idle then |run| else InvokedAt(s, run[..|run| - 1], t)
  }

  lemma StartStep(h: Heap, T: Thread, t: nat, clock: nat, a: Act)
    requires Enabled(h, T, a)
    ensures Micro(h, T, t, clock, a).T.start == if T.pc == Idle then clock + 1 else T.start
  {
    if T.pc.Target? { assert Hit(h, T, t, T.pc.kind, a).T.start == T.start; }
  }

  lemma {:induction false} StartIs(s: State, run: seq<Sched>, t: nat)
    requires Init(s) && Run(s, run) && t < |Exec(s, run).th|
    ensures Exec(s, run).th[t].start == InvokedAt(s, run, t)
    decreases |run|
  {
    if run != [] {
      var r, x := run[..|run| - 1], run[|run| - 1];
      RunInv(s, r);
      StartIs(s, r, t);
      var y := Exec(s, r);
      StartStep(y.h, y.th[x.tid], x.tid, y.clock, x.act);
    }
  }

  /**
   * Honest empty: a pop answers empty only if the deque was empty after some step of its own call, unless the very test
   * that led to this answer took the stale word of a slot that is no link for the back link of the neighbour.
   */
  lemma HonestEmpty(s: State, run: seq<Sched>, t: nat) returns (k: nat)
    requires Init(s) && Run(s, run) && t < |Exec(s, run).th|
    requires Exec(s, run).th[t].op.Pop? && Exec(s, run).th[t].pc == Return(None) && !Exec(s, run).th[t].fooled
    ensures InvokedAt(s, run, t) <= k <= |run| && Abs(Exec(s, run[..k]).h) == []
  {
    RunInv(s, run);
    StartIs(s, run, t);
    assert CallOk(Exec(s, run), t);
    LastEmptyInstant(s, run);
    k := Exec(s, run).lastEmpty;
  }
}
