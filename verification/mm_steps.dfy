/** Each atomic step of MMDeque keeps the deque well formed, and what it looks like to the other threads. */
module MMSteps {
  import opened DequeSpec
  import opened MMMachine
  import opened MMInv

  ghost predicate Ready(s: State, t: nat, a: Act) {
    Core(s) && t < |s.th| && ThreadOk(s, t, s.th[t]) && Enabled(s, t, a)
  }

  ghost predicate Good(s: State, t: nat, a: Act)
    requires t < |s.th|
  {
    Core(Step(s, t, a)) && Evolves(s, Step(s, t, a), t)
  }

  /** Only locals, finished calls and reservations of thread t change, and t is not scanning afterwards. */
  ghost predicate Calm(s: State, s': State, t: nat) {
    && s' == s.(th := s'.th, calls := s'.calls, hz := s'.hz)
    && |s'.th| == |s.th| && |s'.hz| == |s.hz|
    && (forall u :: 0 <= u < |s.th| && u != t ==> s'.th[u] == s.th[u])
    && (t < |s.th| && !s'.th[t].pc.Scan?)
    && (forall i :: 0 <= i < |s.hz| && !(SLOTS * t <= i < SLOTS * t + SLOTS) ==> s'.hz[i] == s.hz[i])
  }

  /** What the others have reserved stays reserved when node ownership and the scan of t respect it. */
  lemma HeldKept(s: State, s': State, t: nat)
    requires forall i {:trigger Slot(s', i)} :: !(SLOTS * t <= i < SLOTS * t + SLOTS) ==> Slot(s', i) == Slot(s, i)
    requires |s'.th| == |s.th| && forall u :: 0 <= u < |s.th| && u != t ==> s'.th[u] == s.th[u]
    requires forall u :: 0 <= u < |s.th| && u != t ==> u < |s.retired| && u < |s'.retired| && s'.retired[u] == s.retired[u]
    requires forall n {:trigger OwnerOf(s', n)} :: OwnerEvolves(s, s', t, n)
    requires forall u: nat, j: nat, n :: u != t && Held(s, u, j, n) ==> OwnerOf(s', n) != Free
    requires forall u: nat, j: nat, n :: u != t && Held(s, u, j, n) && Scanning(s', t, n) ==> s'.th[t].pc.k <= SLOTS * u + j
    ensures forall u: nat, j: nat, n {:trigger Held(s', u, j, n)} :: u != t && Held(s, u, j, n) ==> Held(s', u, j, n)
  {
    forall u: nat, j: nat, n | u != t && Held(s, u, j, n) ensures Held(s', u, j, n) {
      assert OwnerEvolves(s, s', t, n);
      assert !(SLOTS * t <= SLOTS * u + j < SLOTS * t + SLOTS);
      forall v: nat | Scanning(s', v, n) ensures s'.th[v].pc.k <= SLOTS * u + j {
        if v != t { assert Scanning(s, v, n); }
      }
    }
  }

  lemma CalmCore(s: State, s': State, t: nat)
    requires Core(s) && Calm(s, s', t)
    ensures Core(s')
  {
    forall S: Side, p ensures NeighbourOk(s', S, p) { assert NeighbourOk(s, S, p); }
    forall u | 0 <= u < |s'.retired| ensures TrashOk(s', u) { assert TrashOk(s, u); }
    assert Positions(s') by { assert forall n :: OwnerOf(s', n) == OwnerOf(s, n); }
  }

  lemma CalmEvolves(s: State, s': State, t: nat)
    requires Core(s) && Calm(s, s', t)
    ensures Evolves(s, s', t)
  {
    forall n ensures OwnerEvolves(s, s', t, n) { assert OwnerOf(s', n) == OwnerOf(s, n); }
    HeldKept(s, s', t);
    forall n ensures PosEvolves(s, s', t, n) {}
    forall n, S: Side ensures LinkEvolves(s, s', t, n, S) { assert Link(s', n, S) == Link(s, n, S); }
  }

  lemma CalmGood(s: State, t: nat, a: Act)
    requires Ready(s, t, a) && Calm(s, Step(s, t, a), t)
    ensures Good(s, t, a)
  {
    CalmCore(s, Step(s, t, a), t);
    CalmEvolves(s, Step(s, t, a), t);
  }

  // ---------------------------------------------------------------- allocation and the private link

  /** Positions and anchor stay; the contents of a node that is not in the deque change. */
  lemma OutsideCore(s: State, s': State, t: nat, n: int)
    requires Core(s) && t < |s.th|
    requires s' == s.(th := s'.th, link := s'.link, data := s'.data, owner := s'.owner) && |s'.th| == |s.th|
    requires OwnerOf(s, n) == Free || OwnerOf(s, n) == Private(t)
    requires forall m {:trigger OwnerOf(s', m)} :: OwnerOf(s', m) == if m == n then Private(t) else OwnerOf(s, m)
    requires forall m, S: Side {:trigger Link(s', m, S)} :: m != n ==> Link(s', m, S) == Link(s, m, S)
    ensures Core(s')
  {
    assert n !in s.pos;
    assert Positions(s');
    forall S: Side, p ensures NeighbourOk(s', S, p) { assert NeighbourOk(s, S, p); }
    forall u | 0 <= u < |s'.retired| ensures TrashOk(s', u) { assert TrashOk(s, u); }
  }

  lemma OutsideEvolves(s: State, s': State, t: nat, n: int)
    requires Core(s) && t < |s.th|
    requires s' == s.(th := s'.th, link := s'.link, data := s'.data, owner := s'.owner) && |s'.th| == |s.th|
    requires !s'.th[t].pc.Scan? && forall u :: 0 <= u < |s.th| && u != t ==> s'.th[u] == s.th[u]
    requires OwnerOf(s, n) == Free || OwnerOf(s, n) == Private(t)
    requires forall m {:trigger OwnerOf(s', m)} :: OwnerOf(s', m) == if m == n then Private(t) else OwnerOf(s, m)
    requires forall m, S: Side {:trigger Link(s', m, S)} :: m != n ==> Link(s', m, S) == Link(s, m, S)
    requires forall m {:trigger Data(s', m)} :: OwnerOf(s, m) != Free ==> Data(s', m) == Data(s, m)
    ensures Evolves(s, s', t)
  {
    forall m ensures OwnerEvolves(s, s', t, m) { assert OwnerOf(s', m) == if m == n then Private(t) else OwnerOf(s, m); }
    HeldKept(s, s', t);
    forall m ensures PosEvolves(s, s', t, m) {}
    forall m, S: Side ensures LinkEvolves(s, s', t, m, S) { assert m != n ==> Link(s', m, S) == Link(s, m, S); }
  }

  lemma AllocGood(s: State, t: nat, a: Act)
    requires Ready(s, t, a) && s.th[t].pc == Alloc
    ensures Good(s, t, a)
  {
    var s' := Step(s, t, a);
    OutsideCore(s, s', t, a.n);
    OutsideEvolves(s, s', t, a.n);
  }

  lemma InitLinkGood(s: State, t: nat, a: Act)
    requires Ready(s, t, a) && s.th[t].pc == InitLink
    ensures Good(s, t, a)
  {
    var s' := Step(s, t, a);
    OutsideCore(s, s', t, s.th[t].node);
    OutsideEvolves(s, s', t, s.th[t].node);
  }

  // ---------------------------------------------------------------- the anchor swaps of a push

  /** The state after a successful push, and the conditions under which it happens. */
  ghost predicate PushCase(s: State, s': State, t: nat) {
    && Core(s) && t < |s.th| && s.anchor == s.th[t].a
    && OwnsNode(s, t, s.th[t])
    && (if s.anchor.left == NULL then s' == Pushes(s, s.th[t], t, Anchor(s.th[t].node, s.th[t].node, s.anchor.status)).(th := s'.th)
        else && s.anchor.status == Stable
             && Link(s, s.th[t].node, Opp(s.th[t].op.side)).ptr == End(s.anchor, s.th[t].op.side)
             && s' == Pushes(s, s.th[t], t, SetEnd(s.anchor, s.th[t].op.side, s.th[t].node, Pushing(s.th[t].op.side))).(th := s'.th))
    && |s'.th| == |s.th| && !s'.th[t].pc.Scan? && forall u :: 0 <= u < |s.th| && u != t ==> s'.th[u] == s.th[u]
  }

  /** One place more at end S, for a node that was not in the deque. */
  lemma GrownPositions(s: State, s': State, S: Side, n: int)
    requires Positions(s) && n != NULL && n !in s.pos
    requires if S == LeftSide then s'.lo == s.lo - 1 && s'.hi == s.hi else s'.hi == s.hi + 1 && s'.lo == s.lo
    requires var p := if S == LeftSide then s.lo - 1 else s.hi + 1; s'.at == s.at[p := n] && s'.pos == s.pos[n := p]
    requires forall m {:trigger OwnerOf(s', m)} :: OwnerOf(s', m) == if m == n then Linked else OwnerOf(s, m)
    ensures Positions(s')
  {
    forall m {:trigger OwnerOf(s', m)} ensures m in s'.pos <==> OwnerOf(s', m) == Linked { assert m in s.pos <==> OwnerOf(s, m) == Linked; }
  }

  /** One place less at end S. */
  lemma ShrunkPositions(s: State, s': State, S: Side, n: int)
    requires Positions(s) && s.lo <= s.hi && n == s.at[Edge(s, S)]
    requires if S == LeftSide then s'.lo == s.lo + 1 && s'.hi == s.hi else s'.hi == s.hi - 1 && s'.lo == s.lo
    requires s'.at == s.at - {Edge(s, S)} && s'.pos == s.pos - {n}
    requires forall m {:trigger OwnerOf(s', m)} :: if m == n then OwnerOf(s', m) != Linked else OwnerOf(s', m) == OwnerOf(s, m)
    ensures Positions(s')
  {
    forall m {:trigger OwnerOf(s', m)} ensures m in s'.pos <==> OwnerOf(s', m) == Linked { assert m in s.pos <==> OwnerOf(s, m) == Linked; }
  }

  lemma PushPositions(s: State, s': State, t: nat)
    requires PushCase(s, s', t)
    ensures Positions(s') && AnchorOk(s')
  {
    var n := s.th[t].node;
    assert OwnerOf(s, n) == Private(t);
    GrownPositions(s, s', s.th[t].op.side, n);
  }

  /** Links after a push on side D: the new node points back, and only the pointer to it may be missing. */
  lemma GrownNeighbours(s: State, s': State, D: Side, n: int, S: Side, p: int)
    requires Positions(s) && AnchorOk(s) && Positions(s') && NeighbourOk(s, S, p) && s.lo <= s.hi
    requires s'.at == s.at[Edge(s, D) + Dir(D) := n] && Edge(s', D) == Edge(s, D) + Dir(D) && Edge(s', Opp(D)) == Edge(s, Opp(D))
    requires s.anchor.status == Stable && s'.anchor.status == Pushing(D) && s'.link == s.link
    requires Link(s, n, Opp(D)).ptr == End(s.anchor, D)
    ensures NeighbourOk(s', S, p)
  {
    assert Link(s', n, Opp(D)) == Link(s, n, Opp(D));
    if s'.lo <= p <= s'.hi { assert Link(s', s'.at[p], S) == Link(s, s'.at[p], S); }
  }

  lemma PushNeighbours(s: State, s': State, t: nat, S: Side, p: int)
    requires PushCase(s, s', t) && Positions(s')
    ensures NeighbourOk(s', S, p)
  {
    if s.anchor.left == NULL {
      assert s'.lo == s'.hi;
    } else {
      assert NeighbourOk(s, S, p);
      GrownNeighbours(s, s', s.th[t].op.side, s.th[t].node, S, p);
    }
  }

  lemma PushCore(s: State, s': State, t: nat)
    requires PushCase(s, s', t)
    ensures Core(s')
  {
    PushPositions(s, s', t);
    forall S: Side, p ensures NeighbourOk(s', S, p) { PushNeighbours(s, s', t, S, p); }
    forall u | 0 <= u < |s'.retired| ensures TrashOk(s', u) {
      assert TrashOk(s, u);
      assert forall m :: OwnerOf(s', m) == if m == s.th[t].node then Linked else OwnerOf(s, m);
    }
  }

  lemma PushEvolves(s: State, s': State, t: nat)
    requires PushCase(s, s', t)
    ensures Evolves(s, s', t)
  {
    var n := s.th[t].node;
    forall m ensures OwnerEvolves(s, s', t, m) { assert OwnerOf(s', m) == if m == n then Linked else OwnerOf(s, m); }
    HeldKept(s, s', t);
    forall m ensures PosEvolves(s, s', t, m) {}
    forall m, S: Side ensures LinkEvolves(s, s', t, m, S) { assert Link(s', m, S) == Link(s, m, S); }
  }

  // ---------------------------------------------------------------- the anchor swaps of a pop

  ghost predicate PopCase(s: State, s': State, t: nat) {
    && Core(s) && t < |s.th| && s.anchor == s.th[t].a && s.lo <= s.hi
    && (if s.lo == s.hi then s' == Pops(s, s.th[t], t, Anchor(NULL, NULL, s.anchor.status)).(th := s'.th)
        else var S := s.th[t].op.side;
          && s.anchor.status == Stable
          && s' == Pops(s, s.th[t], t, SetEnd(s.anchor, S, s.at[Edge(s, S) - Dir(S)], Stable)).(th := s'.th))
    && |s'.th| == |s.th| && !s'.th[t].pc.Scan? && forall u :: 0 <= u < |s.th| && u != t ==> s'.th[u] == s.th[u]
  }

  lemma PopPositions(s: State, s': State, t: nat)
    requires PopCase(s, s', t)
    ensures Positions(s') && AnchorOk(s')
  {
    ShrunkPositions(s, s', s.th[t].op.side, End(s.anchor, s.th[t].op.side));
  }

  lemma PopCore(s: State, s': State, t: nat)
    requires PopCase(s, s', t)
    ensures Core(s')
  {
    PopPositions(s, s', t);
    var n := End(s.anchor, s.th[t].op.side);
    assert n in s.pos;
    forall S: Side, p ensures NeighbourOk(s', S, p) { assert NeighbourOk(s, S, p); }
    forall u | 0 <= u < |s'.retired| ensures TrashOk(s', u) {
      assert TrashOk(s, u);
      assert forall m :: OwnerOf(s', m) == if m == n then Removed(t) else OwnerOf(s, m);
    }
  }

  lemma PopEvolves(s: State, s': State, t: nat)
    requires PopCase(s, s', t)
    ensures Evolves(s, s', t)
  {
    var n := End(s.anchor, s.th[t].op.side);
    assert n in s.pos;
    forall m ensures OwnerEvolves(s, s', t, m) { assert OwnerOf(s', m) == if m == n then Removed(t) else OwnerOf(s, m); }
    HeldKept(s, s', t);
    forall m ensures PosEvolves(s, s', t, m) {}
    forall m, S: Side ensures LinkEvolves(s, s', t, m, S) { assert Link(s', m, S) == Link(s, m, S); }
  }

  // ---------------------------------------------------------------- retiring and scanning

  ghost predicate TrashCase(s: State, s': State, t: nat) {
    && Core(s) && t < |s.th|
    && s' == s.(th := s'.th, retired := s'.retired, count := s'.count, owner := s'.owner)
    && |s'.th| == |s.th| && |s'.retired| == |s.retired| && |s'.count| == |s.count|
    && (forall u :: 0 <= u < |s.th| && u != t ==> s'.th[u] == s.th[u] && s'.retired[u] == s.retired[u])
  }

  /** Only node n changes hands, between thread t's removed or retired nodes and the pool. */
  ghost predicate Handed(s: State, s': State, t: nat, n: int) {
    && (if OwnerOf(s, n) == Removed(t) then OwnerOf(s', n) == Retired(t) else OwnerOf(s, n) == Retired(t) && OwnerOf(s', n) == Free)
    && (forall m {:trigger OwnerOf(s', m)} :: m != n ==> OwnerOf(s', m) == OwnerOf(s, m))
  }

  lemma TrashCore(s: State, s': State, t: nat, n: int)
    requires TrashCase(s, s', t) && Handed(s, s', t, n) && TrashOk(s', t)
    ensures Core(s')
  {
    assert n !in s.pos;
    assert Positions(s');
    forall S: Side, p ensures NeighbourOk(s', S, p) { assert NeighbourOk(s, S, p); }
    forall u | 0 <= u < |s'.retired| ensures TrashOk(s', u) { assert TrashOk(s, u); }
  }

  lemma TrashEvolves(s: State, s': State, t: nat, n: int)
    requires TrashCase(s, s', t) && Handed(s, s', t, n)
    requires forall u: nat, j: nat :: u != t && Held(s, u, j, n) ==> OwnerOf(s', n) != Free
    requires forall u: nat, j: nat, m :: u != t && Held(s, u, j, m) && Scanning(s', t, m) ==> s'.th[t].pc.k <= SLOTS * u + j
    ensures Evolves(s, s', t)
  {
    forall m ensures OwnerEvolves(s, s', t, m) { assert m != n ==> OwnerOf(s', m) == OwnerOf(s, m); }
    HeldKept(s, s', t);
    forall m ensures PosEvolves(s, s', t, m) {}
    forall m, S: Side ensures LinkEvolves(s, s', t, m, S) { assert Link(s', m, S) == Link(s, m, S); }
  }

  /** The node joins the list of its popper. */
  lemma RetireTrash(s: State, s': State, t: nat, n: int)
    requires t < |s.retired| == |s'.retired| && TrashOk(s, t) && s'.retired[t] == s.retired[t] + [n]
    requires OwnerOf(s, n) == Removed(t) && Handed(s, s', t, n)
    ensures TrashOk(s', t)
  {
    forall i | 0 <= i < |s.retired[t]| ensures s'.retired[t][i] == s.retired[t][i] != n {}
  }

  lemma RetireFrame(s: State, t: nat, a: Act)
    requires Ready(s, t, a) && s.th[t].pc == Retire
    ensures var s', n := Step(s, t, a), End(s.th[t].a, s.th[t].op.side);
            TrashCase(s, s', t) && s'.retired[t] == s.retired[t] + [n] && Handed(s, s', t, n)
  {
  }

  lemma RetireGood(s: State, t: nat, a: Act)
    requires Ready(s, t, a) && s.th[t].pc == Retire
    ensures Good(s, t, a)
  {
    var s' := Step(s, t, a);
    var n := End(s.th[t].a, s.th[t].op.side);
    RetireFrame(s, t, a);
    assert TrashOk(s, t);
    RetireTrash(s, s', t, n);
    TrashCore(s, s', t, n);
    TrashEvolves(s, s', t, n);
  }

  /** The scan passes a reservation only after finding another node in it. */
  lemma ScanPasses(s: State, t: nat, a: Act)
    requires Ready(s, t, a) && s.th[t].pc.Scan? && s.th[t].pc.i < |s.retired[t]| && s.th[t].pc.k < |s.hz|
    ensures Good(s, t, a)
  {
    var s' := Step(s, t, a);
    forall u: nat, j: nat, n | u != t && Held(s, u, j, n) && Scanning(s', t, n) ensures s'.th[t].pc.k <= SLOTS * u + j {
      if s'.th[t].pc.k != 0 { assert Scanning(s, t, n); }
    }
    OnlyLocals(s, s', t);
  }

  /** A step of the scan that frees nothing. */
  lemma OnlyLocals(s: State, s': State, t: nat)
    requires Core(s) && t < |s.th| && |s'.th| == |s.th| && s' == s.(th := s.th[t := s'.th[t]])
    requires forall u: nat, j: nat, n :: u != t && Held(s, u, j, n) ==> OwnerOf(s, n) != Free
    requires forall u: nat, j: nat, n :: u != t && Held(s, u, j, n) && Scanning(s', t, n) ==> s'.th[t].pc.k <= SLOTS * u + j
    ensures Core(s') && Evolves(s, s', t)
  {
    forall n ensures OwnerEvolves(s, s', t, n) { assert OwnerOf(s', n) == OwnerOf(s, n); }
    HeldKept(s, s', t);
    forall n ensures PosEvolves(s, s', t, n) {}
    forall n, S: Side ensures LinkEvolves(s, s', t, n, S) { assert Link(s', n, S) == Link(s, n, S); }
    forall S: Side, p ensures NeighbourOk(s', S, p) { assert NeighbourOk(s, S, p); }
    forall u | 0 <= u < |s'.retired| ensures TrashOk(s', u) { assert TrashOk(s, u); }
  }

  /** A node that every reservation was compared with is held by no one. */
  lemma FreeGood(s: State, t: nat, a: Act)
    requires Ready(s, t, a) && s.th[t].pc.Scan? && s.th[t].pc.i < |s.retired[t]| && s.th[t].pc.k >= |s.hz|
    ensures Good(s, t, a)
  {
    var s' := Step(s, t, a);
    var i := s.th[t].pc.i;
    var n := s.retired[t][i];
    assert TrashOk(s, t);
    assert Scanning(s, t, n);
    assert forall u: nat, j: nat :: !Held(s, u, j, n);
    assert TrashOk(s', t) by {
      assert forall x :: 0 <= x < |s'.retired[t]| ==> s'.retired[t][x] == s.retired[t][if x < i then x else x + 1];
    }
    TrashCore(s, s', t, n);
    TrashEvolves(s, s', t, n);
  }

  // ---------------------------------------------------------------- stabilising

  /** A successful swap of the link writes the pointer the anchor's status asks for. */
  lemma RepairGood(s: State, t: nat, a: Act)
    requires Ready(s, t, a) && s.th[t].pc.AtStab(8) && Link(s, s.th[t].prev, StabSide(s.th[t])) == s.th[t].seen
    ensures Good(s, t, a)
  {
    var T := s.th[t];
    var D := StabSide(T);
    var s' := Step(s, t, a);
    assert forall n :: OwnerOf(s', n) == OwnerOf(s, n);
    assert Positions(s') && AnchorOk(s');
    assert T.prev == s.at[Edge(s, D) - Dir(D)];
    forall S: Side, p ensures NeighbourOk(s', S, p) { RepairNeighbour(s, s', t, S, p); }
    forall u | 0 <= u < |s'.retired| ensures TrashOk(s', u) { assert TrashOk(s, u); }
    forall n ensures OwnerEvolves(s, s', t, n) {}
    HeldKept(s, s', t);
    forall n ensures PosEvolves(s, s', t, n) {}
    forall n, S: Side ensures LinkEvolves(s, s', t, n, S) {
      assert n != T.prev || S != D ==> Link(s', n, S) == Link(s, n, S);
    }
  }

  lemma RepairNeighbour(s: State, s': State, t: nat, S: Side, p: int)
    requires Core(s) && t < |s.th| && s.anchor == s.th[t].a && s.anchor.status.Pushing? && StabPrevOk(s, s.th[t])
    requires s' == SetLink(s, s.th[t].prev, StabSide(s.th[t]), Cptr(End(s.anchor, StabSide(s.th[t])), s.th[t].seen.sn + 1)).(th := s'.th)
    requires Positions(s')
    ensures NeighbourOk(s', S, p)
  {
    var D := StabSide(s.th[t]);
    assert NeighbourOk(s, S, p);
    if s.lo <= p <= s.hi && (s.at[p] != s.th[t].prev || S != D) {
      assert Link(s', s.at[p], S) == Link(s, s.at[p], S);
    }
  }

  /** With the last link in place the anchor may become stable. */
  lemma SettleGood(s: State, t: nat, a: Act)
    requires Ready(s, t, a) && s.th[t].pc.AtStab(9) && Hits(s, s.th[t], a)
    ensures Good(s, t, a)
  {
    var T := s.th[t];
    var s' := Step(s, t, a);
    assert forall n :: OwnerOf(s', n) == OwnerOf(s, n);
    assert forall n, S: Side :: Link(s', n, S) == Link(s, n, S);
    assert Positions(s') && AnchorOk(s');
    forall S: Side, p ensures NeighbourOk(s', S, p) { assert NeighbourOk(s, S, p); }
    forall u | 0 <= u < |s'.retired| ensures TrashOk(s', u) { assert TrashOk(s, u); }
    forall n ensures OwnerEvolves(s, s', t, n) {}
    HeldKept(s, s', t);
    forall n ensures PosEvolves(s, s', t, n) {}
    forall n, S: Side ensures LinkEvolves(s, s', t, n, S) {}
  }

  // ---------------------------------------------------------------- all steps

  lemma AnchorEnds(s: State, T: Thread)
    requires Core(s) && s.anchor == T.a
    ensures T.a.left == NULL <==> T.a.right == NULL
    ensures T.a.left == NULL <==> s.lo > s.hi
    ensures T.a.left == T.a.right && T.a.left != NULL <==> s.lo == s.hi
  {
  }

  lemma PushGood(s: State, t: nat, a: Act)
    requires Ready(s, t, a) && (s.th[t].pc == CasFirst || s.th[t].pc == CasPush) && Hits(s, s.th[t], a)
    ensures Good(s, t, a)
  {
    AnchorEnds(s, s.th[t]);
    PushCore(s, Step(s, t, a), t);
    PushEvolves(s, Step(s, t, a), t);
  }

  lemma PopStepCase(s: State, t: nat, a: Act)
    requires Ready(s, t, a) && (s.th[t].pc == CasLast || s.th[t].pc == CasPop) && Hits(s, s.th[t], a)
    ensures PopCase(s, Step(s, t, a), t)
  {
    AnchorEnds(s, s.th[t]);
  }

  lemma PopGood(s: State, t: nat, a: Act)
    requires Ready(s, t, a) && (s.th[t].pc == CasLast || s.th[t].pc == CasPop) && Hits(s, s.th[t], a)
    ensures PopCase(s, Step(s, t, a), t) && Good(s, t, a)
  {
    PopStepCase(s, t, a);
    PopCore(s, Step(s, t, a), t);
    PopEvolves(s, Step(s, t, a), t);
  }

  lemma PushSteps(s: State, t: nat, a: Act)
    requires Ready(s, t, a) && s.th[t].pc in {Alloc, ReadPush, CasFirst, InitLink, CasPush}
    ensures Good(s, t, a)
  {
    var T := s.th[t];
    if T.pc == Alloc { AllocGood(s, t, a); }
    else if T.pc == InitLink { InitLinkGood(s, t, a); }
    else if T.pc != ReadPush && Hits(s, T, a) { PushGood(s, t, a); }
    else { CalmGood(s, t, a); }
  }

  lemma PopCalm(s: State, t: nat, a: Act)
    requires Ready(s, t, a) && s.th[t].pc in {ReadPop, CasLast, PopReserve0, PopReserve1, PopCheck, PopPrev, CasPop, TakeData}
    requires s.th[t].pc == CasLast || s.th[t].pc == CasPop ==> !Hits(s, s.th[t], a)
    ensures Good(s, t, a)
  {
    CalmGood(s, t, a);
  }

  lemma PopSteps(s: State, t: nat, a: Act)
    requires Ready(s, t, a) && s.th[t].pc in {ReadPop, CasLast, PopReserve0, PopReserve1, PopCheck, PopPrev, CasPop, TakeData, Retire}
    ensures Good(s, t, a)
  {
    var T := s.th[t];
    if (T.pc == CasLast || T.pc == CasPop) && Hits(s, T, a) { PopGood(s, t, a); }
    else if T.pc == Retire { RetireGood(s, t, a); }
    else { PopCalm(s, t, a); }
  }

  lemma StabSteps(s: State, t: nat, a: Act)
    requires Ready(s, t, a) && s.th[t].pc.Stab?
    ensures Good(s, t, a)
  {
    var T := s.th[t];
    if T.pc.AtStab(8) && Link(s, T.prev, StabSide(T)) == T.seen { RepairGood(s, t, a); }
    else if T.pc.AtStab(9) && Hits(s, T, a) { SettleGood(s, t, a); }
    else { StabCalm(s, t, a); CalmGood(s, t, a); }
  }

  lemma StabCalm(s: State, t: nat, a: Act)
    requires t < |s.th| && s.th[t].pc.Stab?
    requires s.th[t].pc.AtStab(8) ==> Link(s, s.th[t].prev, StabSide(s.th[t])) != s.th[t].seen
    requires s.th[t].pc.stage >= 9 ==> !Hits(s, s.th[t], a)
    ensures Calm(s, Step(s, t, a), t)
  {
    StabReserves(s, s.th[t], t, a);
    assert Step(s, t, a) == StabStep(s, s.th[t], t, a).s.(th := Step(s, t, a).th);
  }

  lemma StabReserves(s: State, T: Thread, t: nat, a: Act)
    requires T.pc.Stab?
    requires T.pc.AtStab(8) ==> Link(s, T.prev, StabSide(T)) != T.seen
    requires T.pc.stage >= 9 ==> !Hits(s, T, a)
    ensures var o := StabStep(s, T, t, a);
            && o.s == s.(hz := o.s.hz) && |o.s.hz| == |s.hz| && !o.T.pc.Scan?
            && (forall i :: 0 <= i < |s.hz| && !(SLOTS * t <= i < SLOTS * t + SLOTS) ==> o.s.hz[i] == s.hz[i])
  {
  }

  lemma PlainCalm(s: State, t: nat, a: Act)
    requires t < |s.th| && (s.th[t].pc.Idle? || s.th[t].pc.Clear? || s.th[t].pc.Return?)
    ensures Calm(s, Step(s, t, a), t)
  {
  }

  lemma StepGood(s: State, t: nat, a: Act)
    requires Ready(s, t, a)
    ensures Good(s, t, a)
  {
    match s.th[t].pc
    case Alloc | ReadPush | CasFirst | InitLink | CasPush => PushSteps(s, t, a);
    case ReadPop | CasLast | PopReserve0 | PopReserve1 | PopCheck | PopPrev | CasPop | TakeData | Retire => PopSteps(s, t, a);
    case Scan(_, _) => ScanGood(s, t, a);
    case Idle | Clear(_, _) | Return(_) => PlainCalm(s, t, a); CalmGood(s, t, a);
    case Stab(_, _) => StabSteps(s, t, a);
  }

  lemma ScanGood(s: State, t: nat, a: Act)
    requires Ready(s, t, a) && s.th[t].pc.Scan?
    ensures Good(s, t, a)
  {
    if s.th[t].pc.i >= |s.retired[t]| { ScanEnds(s, t, a); }
    else if s.th[t].pc.k >= |s.hz| { FreeGood(s, t, a); }
    else { ScanPasses(s, t, a); }
  }

  lemma ScanEnds(s: State, t: nat, a: Act)
    requires Ready(s, t, a) && s.th[t].pc.Scan? && s.th[t].pc.i >= |s.retired[t]|
    ensures Good(s, t, a)
  {
    var s' := Step(s, t, a);
    var s1 := s.(th := s'.th);
    CalmCore(s, s1, t);
    CalmEvolves(s, s1, t);
    CountCore(s1, s');
    assert forall u: nat, n :: Scanning(s', u, n) <==> Scanning(s1, u, n);
    assert forall n :: OwnerOf(s', n) == OwnerOf(s1, n) && Data(s', n) == Data(s1, n);
    forall n ensures OwnerEvolves(s, s', t, n) { assert OwnerEvolves(s, s1, t, n); }
    HeldKept(s, s', t);
    forall n ensures PosEvolves(s, s', t, n) {}
    forall n, S: Side ensures LinkEvolves(s, s', t, n, S) { assert Link(s', n, S) == Link(s, n, S); }
  }

  lemma CountCore(s: State, s': State)
    requires Core(s) && s' == s.(count := s'.count) && |s'.count| == |s.count|
    ensures Core(s')
  {
    assert forall n :: OwnerOf(s', n) == OwnerOf(s, n);
    forall S: Side, p ensures NeighbourOk(s', S, p) { assert NeighbourOk(s, S, p); assert forall n :: Link(s', n, S) == Link(s, n, S); }
    forall u | 0 <= u < |s'.retired| ensures TrashOk(s', u) { assert TrashOk(s, u); }
  }
}
