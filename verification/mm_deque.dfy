/** MMDeque.hpp with hazard pointers as a deque: the results over every run of any number of threads. */
module MMDeque {
  import opened DequeSpec
  import opened MMMachine
  import opened MMInv
  import opened MMStable
  import opened MMSteps
  import opened MMOwn

  // ---------------------------------------------------------------- contents

  lemma {:induction false} ContentsSplit(data: map<int, int>, at: map<int, int>, lo: int, mid: int, hi: int)
    requires lo <= mid <= hi + 1
    ensures Contents(data, at, lo, hi) == Contents(data, at, lo, mid - 1) + Contents(data, at, mid, hi)
    decreases mid - lo
  {
    if lo < mid { ContentsSplit(data, at, lo + 1, mid, hi); }
  }

  lemma {:induction false} ContentsSame(s: State, s': State, lo: int, hi: int)
    requires forall p :: lo <= p <= hi ==> p in s.at && p in s'.at && s.at[p] == s'.at[p] && Data(s, s.at[p]) == Data(s', s.at[p])
    ensures Contents(s.data, s.at, lo, hi) == Contents(s'.data, s'.at, lo, hi)
    decreases hi - lo
  {
    if lo <= hi { ContentsSame(s, s', lo + 1, hi); }
  }

  lemma ContentsEnds(s: State)
    requires Positions(s) && s.lo <= s.hi
    ensures Abs(s) == [Data(s, s.at[s.lo])] + Contents(s.data, s.at, s.lo + 1, s.hi)
    ensures Abs(s) == Contents(s.data, s.at, s.lo, s.hi - 1) + [Data(s, s.at[s.hi])]
  {
    ContentsSplit(s.data, s.at, s.lo, s.hi, s.hi);
    assert Contents(s.data, s.at, s.hi + 1, s.hi) == [];
  }

  /** The step's events, read off the lengthened history. */
  function NewEvents(s: State, t: nat, a: Act): seq<Event>
    requires t < |s.th|
  {
    var T := s.th[t];
    var S := T.op.side;
    if (T.pc == CasFirst || T.pc == CasPush) && Hits(s, T, a) then [Pushed(t, S, if T.op.Push? then T.op.value else 0)]
    else if (T.pc == CasLast || T.pc == CasPop) && Hits(s, T, a) then [Popped(t, S, Data(s, End(T.a, S)))]
    else []
  }

  lemma GrownContents(s: State, s': State, D: Side, n: int, v: int)
    requires Positions(s) && Positions(s') && Data(s', n) == v && s'.data == s.data
    requires s'.at == s.at[(if D == LeftSide then s.lo - 1 else s.hi + 1) := n]
    requires if D == LeftSide then s'.lo == s.lo - 1 && s'.hi == s.hi else s'.hi == s.hi + 1 && s'.lo == s.lo
    ensures Abs(s') == Add(D, Abs(s), v)
  {
    ContentsEnds(s');
    forall p | s.lo <= p <= s.hi ensures p in s'.at && s'.at[p] == s.at[p] {}
    ContentsSame(s, s', s.lo, s.hi);
    assert if D == LeftSide then Abs(s') == [v] + Abs(s) else Abs(s') == Abs(s) + [v];
  }

  lemma PushEffect(s: State, s': State, t: nat)
    requires PushCase(s, s', t) && Positions(s')
    ensures Abs(s') == Add(s.th[t].op.side, Abs(s), s.th[t].op.value)
  {
    GrownContents(s, s', s.th[t].op.side, s.th[t].node, s.th[t].op.value);
  }

  lemma ShrunkContents(s: State, s': State, D: Side)
    requires Positions(s) && s.lo <= s.hi && s'.data == s.data
    requires if D == LeftSide then s'.lo == s.lo + 1 && s'.hi == s.hi else s'.hi == s.hi - 1 && s'.lo == s.lo
    requires forall p :: s'.lo <= p <= s'.hi ==> p in s'.at && s'.at[p] == s.at[p]
    ensures Abs(s) == Add(D, Abs(s'), Data(s, s.at[Edge(s, D)]))
  {
    ContentsEnds(s);
    ContentsSame(s, s', s'.lo, s'.hi);
  }

  lemma PopEffect(s: State, s': State, t: nat)
    requires PopCase(s, s', t) && Positions(s')
    ensures Abs(s) == Add(s.th[t].op.side, Abs(s'), Data(s, End(s.anchor, s.th[t].op.side)))
  {
    assert s.at[Edge(s, s.th[t].op.side)] == End(s.anchor, s.th[t].op.side);
    ShrunkContents(s, s', s.th[t].op.side);
  }

  lemma KeptEffect(s: State, s': State, t: nat)
    requires Core(s) && Core(s') && Evolves(s, s', t) && s'.lo == s.lo && s'.hi == s.hi && s'.at == s.at
    ensures Abs(s') == Abs(s)
  {
    forall p | s.lo <= p <= s.hi ensures Data(s', s.at[p]) == Data(s, s.at[p]) {
      assert OwnerOf(s, s.at[p]) == Linked;
    }
    ContentsSame(s, s', s.lo, s.hi);
  }

  /** What a step outside an anchor swap of a push or pop leaves alone. */
  ghost predicate Still(s: State, s': State) {
    s'.events == s.events && s'.lo == s.lo && s'.hi == s.hi && s'.at == s.at
  }

  ghost predicate Framed(s: State, t: nat, a: Act)
    requires t < |s.th|
  {
    var s' := Step(s, t, a);
    && s'.events == s.events + NewEvents(s, t, a)
    && (NewEvents(s, t, a) == [] ==> Still(s, s') && (!s.th[t].pc.Stab? || s.th[t].pc.stage < 9 ==> s'.anchor == s.anchor))
    && (s.th[t].pc != Alloc && s.th[t].pc != InitLink && !s.th[t].pc.AtStab(8) ==> s'.link == s.link)
    && s'.th[t].lin == if NewEvents(s, t, a) != [] then Some(NewEvents(s, t, a)[0])
                       else if s.th[t].pc.Idle? || s.th[t].pc.Return? then (if a.Invoke? || s.th[t].pc.Return? then None else s.th[t].lin)
                       else s.th[t].lin
  }

  /** A stabiliser's step does nothing to the shared state but reserve, swap the link or settle the anchor. */
  lemma StabCases(s: State, T: Thread, t: nat, a: Act)
    requires T.pc.Stab?
    ensures StabStep(s, T, t, a).T.lin == T.lin
    ensures var z := StabStep(s, T, t, a).s;
            || z == s || z == SetSlot(s, SLOTS * t, T.a.left) || z == SetSlot(s, SLOTS * t + 1, T.a.right) || z == SetSlot(s, SLOTS * t + 2, T.prev)
            || (T.pc.AtStab(8) && z == SetLink(s, T.prev, StabSide(T), Cptr(End(T.a, StabSide(T)), T.seen.sn + 1)))
            || (T.pc.stage >= 9 && z == s.(anchor := T.a.(status := Stable)))
  {
  }

  lemma StabStill(s: State, T: Thread, t: nat, a: Act)
    requires T.pc.Stab?
    ensures StabStep(s, T, t, a).T.lin == T.lin
    ensures var z := StabStep(s, T, t, a).s;
            Still(s, z) && (!T.pc.AtStab(8) ==> z.link == s.link) && (T.pc.stage < 9 ==> z.anchor == s.anchor)
  {
    StabCases(s, T, t, a);
  }

  lemma StabFrame(s: State, t: nat, a: Act)
    requires t < |s.th| && s.th[t].pc.Stab?
    ensures Framed(s, t, a)
  {
    var s' := StabStep(s, s.th[t], t, a).s;
    StabStill(s, s.th[t], t, a);
    assert s.events + [] == s.events;
    assert Step(s, t, a) == s'.(th := Step(s, t, a).th);
  }

  lemma PopReads(s: State, T: Thread, t: nat, a: Act)
    requires T.pc in {ReadPop, PopReserve0, PopReserve1, PopCheck, PopPrev, TakeData}
    ensures PopStep(s, T, t, a).T.lin == T.lin
    ensures var s' := PopStep(s, T, t, a).s; Still(s, s') && s'.link == s.link && s'.anchor == s.anchor
  {
  }

  lemma PopStill(s: State, t: nat, a: Act)
    requires t < |s.th| && s.th[t].pc in {ReadPop, PopReserve0, PopReserve1, PopCheck, PopPrev, TakeData}
    ensures Framed(s, t, a)
  {
    assert s.events + [] == s.events;
    PopReads(s, s.th[t], t, a);
    assert Micro(s, t, a) == PopStep(s, s.th[t], t, a);
  }

  lemma PopFrame(s: State, t: nat, a: Act)
    requires t < |s.th| && s.th[t].pc in {CasLast, CasPop}
    ensures Framed(s, t, a)
  {
    assert s.events + [] == s.events;
  }

  lemma PushStill(s: State, t: nat, a: Act)
    requires t < |s.th| && s.th[t].pc in {Alloc, ReadPush, InitLink}
    ensures Framed(s, t, a)
  {
    assert s.events + [] == s.events;
    PushReads(s, s.th[t], t, a);
    assert Micro(s, t, a) == PushStep(s, s.th[t], t, a);
  }

  lemma PushReads(s: State, T: Thread, t: nat, a: Act)
    requires T.pc == Alloc || T.pc == ReadPush || T.pc == InitLink
    ensures var o := PushStep(s, T, t, a);
            Still(s, o.s) && o.T.lin == T.lin && o.s.anchor == s.anchor && (T.pc == ReadPush ==> o.s.link == s.link)
  {
  }

  lemma PushFrame(s: State, t: nat, a: Act)
    requires t < |s.th| && s.th[t].pc in {CasFirst, CasPush}
    ensures Framed(s, t, a)
  {
    assert s.events + [] == s.events;
  }

  lemma ScanStill(s: State, T: Thread, t: nat)
    ensures ScanStep(s, T, t).T.lin == T.lin
    ensures var s' := ScanStep(s, T, t).s; Still(s, s') && s'.link == s.link && s'.anchor == s.anchor
  {
  }

  lemma RetireStill(s: State, T: Thread, t: nat)
    ensures RetireStep(s, T, t).T.lin == T.lin
    ensures var s' := RetireStep(s, T, t).s; Still(s, s') && s'.link == s.link && s'.anchor == s.anchor
  {
  }

  lemma ScanFrame(s: State, t: nat, a: Act)
    requires t < |s.th| && (s.th[t].pc.Retire? || s.th[t].pc.Scan?)
    ensures Framed(s, t, a)
  {
    assert s.events + [] == s.events;
    if s.th[t].pc.Scan? {
      ScanStill(s, s.th[t], t);
      assert Micro(s, t, a) == ScanStep(s, s.th[t], t);
    } else {
      RetireStill(s, s.th[t], t);
      assert Micro(s, t, a) == RetireStep(s, s.th[t], t);
    }
  }

  lemma ClearFrame(s: State, t: nat, a: Act)
    requires t < |s.th| && s.th[t].pc.Clear?
    ensures Framed(s, t, a)
  {
    assert s.events + [] == s.events;
    assert Step(s, t, a) == s.(hz := Step(s, t, a).hz, th := Step(s, t, a).th);
  }

  lemma RestFrame(s: State, t: nat, a: Act)
    requires t < |s.th| && (s.th[t].pc.Idle? || s.th[t].pc.Return?)
    ensures Framed(s, t, a)
  {
    assert s.events + [] == s.events;
    assert Step(s, t, a) == s.(calls := Step(s, t, a).calls, th := Step(s, t, a).th);
  }

  /** Only a successful anchor swap of a push or pop touches the positions and the history of effects. */
  lemma StepFrame(s: State, t: nat, a: Act)
    requires t < |s.th|
    ensures Framed(s, t, a)
  {
    match s.th[t].pc
    case Alloc | ReadPush | InitLink => PushStill(s, t, a);
    case CasFirst | CasPush => PushFrame(s, t, a);
    case ReadPop | PopReserve0 | PopReserve1 | PopCheck | PopPrev | TakeData => PopStill(s, t, a);
    case CasLast | CasPop => PopFrame(s, t, a);
    case Retire | Scan(_, _) => ScanFrame(s, t, a);
    case Clear(_, _) => ClearFrame(s, t, a);
    case Idle | Return(_) => RestFrame(s, t, a);
    case Stab(_, _) => StabFrame(s, t, a);
  }

  lemma StepEffect(s: State, t: nat, a: Act)
    requires Ready(s, t, a)
    ensures Effect(Abs(s), Abs(Step(s, t, a)), NewEvents(s, t, a))
  {
    var T := s.th[t];
    var s' := Step(s, t, a);
    StepFrame(s, t, a);
    StepGood(s, t, a);
    if (T.pc == CasFirst || T.pc == CasPush) && Hits(s, T, a) {
      AnchorEnds(s, T);
      PushEffect(s, s', t);
    } else if (T.pc == CasLast || T.pc == CasPop) && Hits(s, T, a) {
      PopGood(s, t, a);
      PopEffect(s, s', t);
    } else {
      KeptEffect(s, s', t);
    }
  }

  // ---------------------------------------------------------------- the link a late stabiliser swaps

  /** Settling the anchor: whoever still waits to swap the last link has an outdated snapshot of it. */
  lemma LateSettle(s: State, t: nat, a: Act, u: nat)
    requires Inv(s) && Ready(s, t, a) && s.th[t].pc.AtStab(9) && Hits(s, s.th[t], a) && u < |s.th| && u != t
    ensures Late(Step(s, t, a), s.th[u])
  {
    assert ThreadAt(s, u);
    var U := s.th[u];
    assert Link(Step(s, t, a), U.prev, StabSide(U)) == Link(s, U.prev, StabSide(U));
  }

  /** A repair swaps one link at most, and nothing that other threads read besides. */
  lemma RepairStep(s: State, t: nat, a: Act, n: int, S: Side)
    requires t < |s.th| && s.th[t].pc.AtStab(8)
    ensures var T, s' := s.th[t], Step(s, t, a);
            && s'.anchor == s.anchor && (forall u :: 0 <= u < |s.th| && u != t ==> s'.th[u] == s.th[u])
            && Link(s', n, S) == if n == T.prev && S == StabSide(T) && Link(s, n, S) == T.seen then Cptr(End(T.a, S), T.seen.sn + 1) else Link(s, n, S)
  {
    assert Micro(s, t, a) == StabStep(s, s.th[t], t, a);
  }

  /** A repair writes what every other stabiliser of the current anchor wants to see. */
  lemma LateRepair(s: State, t: nat, a: Act, u: nat)
    requires Inv(s) && Ready(s, t, a) && s.th[t].pc.AtStab(8) && u < |s.th| && u != t
    ensures Late(Step(s, t, a), s.th[u])
  {
    assert ThreadAt(s, u) && ThreadAt(s, t);
    RepairStep(s, t, a, s.th[u].prev, StabSide(s.th[u]));
  }

  /** Any other step leaves the anchor, or moves it from one that no stabiliser is working on. */
  lemma LateOther(s: State, t: nat, a: Act, u: nat)
    requires Inv(s) && Ready(s, t, a) && Good(s, t, a) && !s.th[t].pc.AtStab(8) && !(s.th[t].pc.Stab? && s.th[t].pc.stage >= 9) && u < |s.th| && u != t
    ensures Late(Step(s, t, a), s.th[u])
  {
    if s.th[u].pc.AtStab(8) { LateLink(s, t, a, u); }
    if s.th[u].pc.AtStab(9) { LateAnchor(s, t, a, u); }
  }

  lemma LateLink(s: State, t: nat, a: Act, u: nat)
    requires Inv(s) && Ready(s, t, a) && !s.th[t].pc.AtStab(8) && !(s.th[t].pc.Stab? && s.th[t].pc.stage >= 9)
    requires u < |s.th| && u != t && s.th[u].pc.AtStab(8)
    ensures Late(Step(s, t, a), s.th[u])
  {
    assert ThreadAt(s, u);
    LinkKept(s, t, a, s.th[u].prev, StabSide(s.th[u]));
    AnchorKept(s, t, a, s.th[u].a);
  }

  /** The anchor does not come back to the one that was read: its end was reserved then, so it is not the node of a new push. */
  lemma LateAnchor(s: State, t: nat, a: Act, u: nat)
    requires Inv(s) && Ready(s, t, a) && Good(s, t, a) && !s.th[t].pc.AtStab(8) && !(s.th[t].pc.Stab? && s.th[t].pc.stage >= 9)
    requires u < |s.th| && u != t && s.th[u].pc.AtStab(9)
    ensures Late(Step(s, t, a), s.th[u])
  {
    assert ThreadAt(s, u);
    LinkKept(s, t, a, s.th[u].prev, StabSide(s.th[u]));
    AnchorKept(s, t, a, s.th[u].a);
  }

  /** Outside a repair the links of nodes that are neither free nor private to t stay. */
  lemma LinkKept(s: State, t: nat, a: Act, n: int, S: Side)
    requires Ready(s, t, a) && !s.th[t].pc.AtStab(8)
    ensures OwnerOf(s, n) != Free && OwnerOf(s, n) != Private(t) ==> Link(Step(s, t, a), n, S) == Link(s, n, S)
  {
    StepFrame(s, t, a);
  }

  lemma AnchorKept(s: State, t: nat, a: Act, b: Anchor)
    requires Ready(s, t, a) && !(s.th[t].pc.Stab? && s.th[t].pc.stage >= 9) && b.status.Pushing?
    ensures s.anchor == b ==> Step(s, t, a).anchor == b
  {
    StepFrame(s, t, a);
    if s.anchor == b && Hits(s, s.th[t], a) { AnchorEnds(s, s.th[t]); }
  }

  lemma LateMiss(s: State, t: nat, a: Act, u: nat)
    requires Inv(s) && Ready(s, t, a) && s.th[t].pc.AtStab(9) && !Hits(s, s.th[t], a) && u < |s.th| && u != t
    ensures Late(Step(s, t, a), s.th[u])
  {
    assert ThreadAt(s, u);
    assert Step(s, t, a) == s.(th := Step(s, t, a).th);
    assert Link(Step(s, t, a), s.th[u].prev, StabSide(s.th[u])) == Link(s, s.th[u].prev, StabSide(s.th[u]));
  }

  lemma StepLate(s: State, t: nat, a: Act, u: nat)
    requires Inv(s) && Ready(s, t, a) && Good(s, t, a) && u < |s.th| && u != t
    ensures Late(Step(s, t, a), s.th[u])
  {
    if s.th[t].pc.AtStab(8) {
      LateRepair(s, t, a, u);
    } else if s.th[t].pc.AtStab(9) {
      if Hits(s, s.th[t], a) { LateSettle(s, t, a, u); } else { LateMiss(s, t, a, u); }
    } else {
      LateOther(s, t, a, u);
    }
  }

  // ---------------------------------------------------------------- one step of the whole machine

  ghost predicate CanStep(s: State, t: nat, a: Act) { t < |s.th| && Enabled(s, t, a) }

  function Finished(T: Thread, t: nat): seq<Call> { if T.pc.Return? then [Call(t, T.op, T.pc.result)] else [] }

  lemma PushCalls(s: State, T: Thread, t: nat, a: Act)
    ensures PushStep(s, T, t, a).s.calls == s.calls
  {
  }

  lemma PopCalls(s: State, T: Thread, t: nat, a: Act)
    ensures PopStep(s, T, t, a).s.calls == s.calls
  {
  }

  lemma StabCalls(s: State, T: Thread, t: nat, a: Act)
    ensures StabStep(s, T, t, a).s.calls == s.calls
  {
    if T.pc.Stab? { StabCases(s, T, t, a); }
  }

  lemma ScanCalls(s: State, T: Thread, t: nat)
    ensures RetireStep(s, T, t).s.calls == s.calls && ScanStep(s, T, t).s.calls == s.calls
  {
  }

  lemma StepCalls(s: State, t: nat, a: Act)
    requires t < |s.th|
    ensures Step(s, t, a).calls == s.calls + Finished(s.th[t], t)
  {
    assert s.calls + [] == s.calls;
    var T := s.th[t];
    match T.pc
    case Alloc | ReadPush | CasFirst | InitLink | CasPush => PushCalls(s, T, t, a);
    case ReadPop | CasLast | PopReserve0 | PopReserve1 | PopCheck | PopPrev | CasPop | TakeData => PopCalls(s, T, t, a);
    case Retire | Scan(_, _) => ScanCalls(s, T, t);
    case Clear(_, _) | Idle | Return(_) => RestCalls(s, t, a);
    case Stab(_, _) => StabCalls(s, T, t, a);
  }

  lemma RestCalls(s: State, t: nat, a: Act)
    requires t < |s.th| && (s.th[t].pc.Clear? || s.th[t].pc.Idle? || s.th[t].pc.Return?)
    ensures Step(s, t, a).calls == s.calls + Finished(s.th[t], t)
  {
    assert s.calls + [] == s.calls;
  }

  lemma StepLin(s: State, t: nat, a: Act)
    requires Ready(s, t, a)
    ensures Effects(Finished(s.th[t], t)) + Pending(Step(s, t, a).th[t].lin) == Pending(s.th[t].lin) + NewEvents(s, t, a)
  {
    StepFrame(s, t, a);
  }

  lemma StepAccount(s: State, t: nat, a: Act, u: nat)
    requires Inv(s) && Ready(s, t, a) && u < |s.th|
    ensures Accounted(Step(s, t, a).events, Step(s, t, a).calls, u, Step(s, t, a).th[u].lin)
  {
    assert ThreadAt(s, u);
    StepFrame(s, t, a);
    StepCalls(s, t, a);
    StepLin(s, t, a);
    StepAccounted(s.events, NewEvents(s, t, a), s.calls, Finished(s.th[t], t), t, u, s.th[t].lin, Step(s, t, a).th[t].lin, s.th[u].lin);
  }

  lemma StepThread(s: State, t: nat, a: Act, u: nat)
    requires Inv(s) && Ready(s, t, a) && Good(s, t, a) && u < |s.th|
    ensures ThreadAt(Step(s, t, a), u)
  {
    StepAccount(s, t, a, u);
    if u == t {
      StepOwn(s, t, a);
    } else {
      assert ThreadAt(s, u);
      StepLate(s, t, a, u);
      OtherStable(s, Step(s, t, a), t, u);
    }
  }

  lemma StepInv(s: State, t: nat, a: Act)
    requires Inv(s) && CanStep(s, t, a)
    ensures Inv(Step(s, t, a))
  {
    var s' := Step(s, t, a);
    assert ThreadAt(s, t);
    StepGood(s, t, a);
    forall u | 0 <= u < |s'.th| ensures ThreadAt(s', u) { StepThread(s, t, a, u); }
    StepFrame(s, t, a);
    StepEffect(s, t, a);
    EffectReplays(Abs(s), Abs(s'), s.events, NewEvents(s, t, a));
  }

  lemma InitInv(s: State)
    requires Init(s)
    ensures Inv(s)
  {
    assert forall n :: OwnerOf(s, n) == Free;
    forall S: Side, p ensures NeighbourOk(s, S, p) {}
    forall t | 0 <= t < |s.retired| ensures TrashOk(s, t) {}
    forall t | 0 <= t < |s.th| ensures ThreadAt(s, t) {}
  }

  // ---------------------------------------------------------------- every run

  datatype Sched = Sched(tid: nat, act: Act)

  function Exec(s: State, run: seq<Sched>): State {
    if run == [] then s
    else
      var p := Exec(s, run[..|run| - 1]);
      var x := run[|run| - 1];
      if x.tid < |p.th| then Step(p, x.tid, x.act) else p
  }

  /** A run: any interleaving of enabled steps. */
  ghost predicate Run(s: State, run: seq<Sched>) {
    run == [] || (Run(s, run[..|run| - 1]) && CanStep(Exec(s, run[..|run| - 1]), run[|run| - 1].tid, run[|run| - 1].act))
  }

  lemma {:induction false} RunInv(s: State, run: seq<Sched>)
    requires Init(s) && Run(s, run)
    ensures Inv(Exec(s, run))
    decreases |run|
  {
    if run == [] {
      InitInv(s);
    } else {
      RunInv(s, run[..|run| - 1]);
      StepInv(Exec(s, run[..|run| - 1]), run[|run| - 1].tid, run[|run| - 1].act);
    }
  }

  /** Refinement: the successful pushes and pops of any run, in order, are a run of a plain deque ending in the linked nodes' data. */
  lemma DequeRefined(s: State, run: seq<Sched>)
    requires Init(s) && Run(s, run)
    ensures Replay(Exec(s, run).events) == Some(Abs(Exec(s, run)))
    ensures forall t :: 0 <= t < |Exec(s, run).th| ==>
              Accounted(Exec(s, run).events, Exec(s, run).calls, t, Exec(s, run).th[t].lin)
  {
    RunInv(s, run);
    var z := Exec(s, run);
    forall t | 0 <= t < |z.th| ensures Accounted(z.events, z.calls, t, z.th[t].lin) { assert ThreadAt(z, t); }
  }

  /** Each successful anchor swap of a push or pop is exactly one push or pop at its own end; no other step changes the deque. */
  lemma StepRefines(s: State, t: nat, a: Act)
    requires Inv(s) && CanStep(s, t, a)
    ensures var T, q, q' := s.th[t], Abs(s), Abs(Step(s, t, a));
            if (T.pc == CasFirst || T.pc == CasPush) && Hits(s, T, a) then T.op.Push? && q' == Add(T.op.side, q, T.op.value)
            else if (T.pc == CasLast || T.pc == CasPop) && Hits(s, T, a)
            then T.op.Pop? && q == Add(T.op.side, q', Data(s, End(T.a, T.op.side)))
            else q' == q
  {
    assert ThreadAt(s, t);
    StepEffect(s, t, a);
  }

  /** No step of any run touches a node that is back in the pool. */
  lemma NeverTouchesFreed(s: State, run: seq<Sched>, t: nat, a: Act)
    requires Init(s) && Run(s, run) && CanStep(Exec(s, run), t, a)
    ensures forall n :: n in Touched(Exec(s, run), t) ==> n != NULL && OwnerOf(Exec(s, run), n) != Free
  {
    RunInv(s, run);
    assert ThreadAt(Exec(s, run), t);
  }

  /** A validated reservation keeps its node out of the pool until the reserving thread itself changes the slot. */
  lemma ReservedNotFreed(s: State, t: nat, a: Act, u: nat, j: nat, n: int)
    requires Inv(s) && CanStep(s, t, a) && t != u && Held(s, u, j, n)
    ensures Held(Step(s, t, a), u, j, n) && OwnerOf(Step(s, t, a), n) != Free
  {
    assert ThreadAt(s, t);
    StepGood(s, t, a);
    assert Held(Step(s, t, a), u, j, n);
  }

  /** Nodes n and m are neighbours in the deque, n on the left. */
  ghost predicate Adjacent(s: State, n: int, m: int) { n in s.pos && m in s.pos && s.pos[m] == s.pos[n] + 1 }

  lemma AdjacentLinks(s: State, n: int, m: int)
    requires Core(s) && Adjacent(s, n, m)
    ensures Link(s, n, RightSide).ptr == m || (s.anchor.status == Pushing(RightSide) && m == s.anchor.right)
    ensures Link(s, m, LeftSide).ptr == n || (s.anchor.status == Pushing(LeftSide) && n == s.anchor.left)
  {
    assert NeighbourOk(s, RightSide, s.pos[n]) && NeighbourOk(s, LeftSide, s.pos[m]);
  }

  /** All neighbour links agree, except the one pointer to the end that the anchor's status names. */
  lemma LinksAgree(s: State, run: seq<Sched>, n: int, m: int)
    requires Init(s) && Run(s, run) && Adjacent(Exec(s, run), n, m)
    ensures var z := Exec(s, run);
            && (Link(z, n, RightSide).ptr == m || (z.anchor.status == Pushing(RightSide) && m == z.anchor.right))
            && (Link(z, m, LeftSide).ptr == n || (z.anchor.status == Pushing(LeftSide) && n == z.anchor.left))
  {
    RunInv(s, run);
    AdjacentLinks(Exec(s, run), n, m);
  }

  lemma SmallIsStable(s: State, run: seq<Sched>)
    requires Init(s) && Run(s, run) && Exec(s, run).hi <= Exec(s, run).lo
    ensures Exec(s, run).anchor.status == Stable
  {
    RunInv(s, run);
  }

  /** A late stabiliser's swap of the link succeeds only while the anchor it read is still current. */
  lemma LateSwapsAreCurrent(s: State, run: seq<Sched>, t: nat)
    requires Init(s) && Run(s, run) && t < |Exec(s, run).th| && Exec(s, run).th[t].pc.AtStab(8)
    requires var T := Exec(s, run).th[t]; Link(Exec(s, run), T.prev, StabSide(T)) == T.seen
    ensures Exec(s, run).anchor == Exec(s, run).th[t].a
  {
    RunInv(s, run);
    assert ThreadAt(Exec(s, run), t);
  }
}
