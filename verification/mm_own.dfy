/** Each atomic step of MMDeque leaves the stepping thread's own facts true. */
module MMOwn {
  import opened DequeSpec
  import opened MMMachine
  import opened MMInv
  import opened MMSteps

  ghost predicate Own(s: State, t: nat, a: Act)
    requires t < |s.th|
  {
    ThreadOk(Step(s, t, a), t, Step(s, t, a).th[t])
  }

  /** A reservation of thread t survives its own steps that leave the slot, the owners and the scans alone. */
  lemma HeldOwn(s: State, s': State, t: nat, j: nat, n: int)
    requires Held(s, t, j, n) && s' == s.(th := s'.th, link := s'.link, hz := s'.hz, anchor := s'.anchor)
    requires Slot(s', SLOTS * t + j) == n && |s'.th| == |s.th|
    requires t < |s.th| && !s'.th[t].pc.Scan? && forall u :: 0 <= u < |s.th| && u != t ==> s'.th[u] == s.th[u]
    ensures Held(s', t, j, n)
  {
    assert OwnerOf(s', n) == OwnerOf(s, n);
    forall u: nat | Scanning(s', u, n) ensures s'.th[u].pc.k <= SLOTS * t + j { assert Scanning(s, u, n); }
  }

  /** Validating a reservation: a node of the deque is in nobody's scan. */
  lemma Validate(s: State, t: nat, j: nat, n: int)
    requires Core(s) && n in s.pos && j < SLOTS && Slot(s, SLOTS * t + j) == n
    ensures Held(s, t, j, n)
  {
    assert OwnerOf(s, n) == Linked;
    forall u: nat ensures !Scanning(s, u, n) {
      if u < |s.retired| { assert TrashOk(s, u); }
    }
  }

  lemma EndsInPos(s: State, T: Thread)
    requires Core(s) && s.anchor == T.a && T.a.left != NULL
    ensures s.lo <= s.hi && T.a.left == s.at[s.lo] && T.a.right == s.at[s.hi] && T.a.left in s.pos && T.a.right in s.pos
    ensures T.a.left == T.a.right <==> s.lo == s.hi
    ensures T.a.right != NULL
  {
  }

  lemma PushOwn(s: State, t: nat, a: Act)
    requires Ready(s, t, a) && s.th[t].pc in {Alloc, ReadPush, CasFirst, InitLink, CasPush}
    ensures Own(s, t, a)
  {
    var T := s.th[t];
    var s' := Step(s, t, a);
    var T' := s'.th[t];
    if T.pc == ReadPush {
      if T'.pc.AtStab(0) { EndsInPos(s, T'); }
    } else if T.pc == CasPush && Hits(s, T, a) {
      AnchorEnds(s, T);
      EndsInPos(s, T);
      assert OwnerOf(s, T.node) == Private(t);
    }
  }

  lemma ReadPopOwn(s: State, t: nat, a: Act)
    requires Ready(s, t, a) && s.th[t].pc == ReadPop
    ensures Own(s, t, a)
  {
    var T' := Step(s, t, a).th[t];
    if s.lo <= s.hi { EndsInPos(s, T'); }
  }

  lemma PopCheckOwn(s: State, t: nat, a: Act)
    requires Ready(s, t, a) && s.th[t].pc == PopCheck
    ensures Own(s, t, a)
  {
    var T := s.th[t];
    var s' := Step(s, t, a);
    if s.anchor == T.a {
      EndsInPos(s, T);
      Validate(s, t, 0, T.a.left);
      Validate(s, t, 1, T.a.right);
      HeldOwn(s, s', t, 0, T.a.left);
      HeldOwn(s, s', t, 1, T.a.right);
    }
  }

  lemma PopPrevOwn(s: State, t: nat, a: Act)
    requires Ready(s, t, a) && s.th[t].pc == PopPrev
    ensures Own(s, t, a)
  {
    var T := s.th[t];
    var S := T.op.side;
    var s' := Step(s, t, a);
    var e, o := End(T.a, S), End(T.a, Opp(S));
    HeldOwn(s, s', t, 0, T.a.left);
    HeldOwn(s, s', t, 1, T.a.right);
    if e in s.pos && o in s.pos {
      assert NeighbourOk(s, Opp(S), s.pos[e]);
    }
  }

  lemma CasPopOwn(s: State, t: nat, a: Act)
    requires Ready(s, t, a) && (s.th[t].pc == CasLast || s.th[t].pc == CasPop)
    ensures Own(s, t, a)
  {
    if Hits(s, s.th[t], a) { PoppedOwn(s, t, a); }
  }

  /** The removed node belongs to its popper. */
  lemma PoppedOwn(s: State, t: nat, a: Act)
    requires Ready(s, t, a) && (s.th[t].pc == CasLast || s.th[t].pc == CasPop) && Hits(s, s.th[t], a)
    ensures Own(s, t, a)
  {
    EndsInPos(s, s.th[t]);
    var n := End(s.th[t].a, s.th[t].op.side);
    assert OwnerOf(Step(s, t, a), n) == Removed(t) && Data(Step(s, t, a), n) == Data(s, n);
  }

  lemma ReserveOwn(s: State, t: nat, a: Act)
    requires Ready(s, t, a) && (s.th[t].pc == PopReserve0 || s.th[t].pc == PopReserve1)
    ensures Own(s, t, a)
  {
  }

  lemma RestOwn(s: State, t: nat, a: Act)
    requires Ready(s, t, a) && (s.th[t].pc == Idle || s.th[t].pc == TakeData || s.th[t].pc.Return?)
    ensures Own(s, t, a)
  {
  }

  lemma ScanOwn(s: State, t: nat, a: Act)
    requires Ready(s, t, a) && (s.th[t].pc == Retire || s.th[t].pc.Scan?)
    ensures Own(s, t, a)
  {
  }

  lemma ClearOwn(s: State, t: nat, a: Act)
    requires Ready(s, t, a) && s.th[t].pc.Clear?
    ensures Own(s, t, a)
  {
    var T' := Step(s, t, a).th[t];
    assert T' == s.th[t].(pc := T'.pc);
  }

  // ---------------------------------------------------------------- stabilising

  lemma StabOwn01(s: State, t: nat, a: Act)
    requires Ready(s, t, a) && (s.th[t].pc.AtStab(0) || s.th[t].pc.AtStab(1))
    ensures Own(s, t, a)
  {
  }

  lemma StabOwn2(s: State, t: nat, a: Act)
    requires Ready(s, t, a) && s.th[t].pc.AtStab(2)
    ensures Own(s, t, a)
  {
    var T := s.th[t];
    var s' := Step(s, t, a);
    if s.anchor == T.a {
      EndsInPos(s, T);
      Validate(s, t, 0, T.a.left);
      Validate(s, t, 1, T.a.right);
      HeldOwn(s, s', t, 0, T.a.left);
      HeldOwn(s, s', t, 1, T.a.right);
    }
  }

  lemma StabOwn3(s: State, t: nat, a: Act)
    requires Ready(s, t, a) && s.th[t].pc.AtStab(3)
    ensures Own(s, t, a)
  {
    var T := s.th[t];
    var D := StabSide(T);
    var s' := Step(s, t, a);
    HeldOwn(s, s', t, 0, T.a.left);
    HeldOwn(s, s', t, 1, T.a.right);
    if s.anchor == T.a {
      EndsInPos(s, T);
      assert NeighbourOk(s, Opp(D), Edge(s, D));
    }
  }

  lemma StabOwn4(s: State, t: nat, a: Act)
    requires Ready(s, t, a) && s.th[t].pc.AtStab(4)
    ensures Own(s, t, a)
  {
    var T := s.th[t];
    HeldOwn(s, Step(s, t, a), t, 0, T.a.left);
    HeldOwn(s, Step(s, t, a), t, 1, T.a.right);
  }

  lemma StabOwn5(s: State, t: nat, a: Act)
    requires Ready(s, t, a) && s.th[t].pc.AtStab(5)
    ensures Own(s, t, a)
  {
    var T := s.th[t];
    var s' := Step(s, t, a);
    HeldOwn(s, s', t, 0, T.a.left);
    HeldOwn(s, s', t, 1, T.a.right);
    if s.anchor == T.a {
      Validate(s, t, 2, T.prev);
      HeldOwn(s, s', t, 2, T.prev);
    }
  }

  lemma HeldAll(s: State, s': State, t: nat, T: Thread)
    requires HeldBoth(s, t, T) && Held(s, t, 2, T.prev)
    requires s' == s.(th := s'.th) && |s'.th| == |s.th|
    requires t < |s.th| && !s'.th[t].pc.Scan? && forall u :: 0 <= u < |s.th| && u != t ==> s'.th[u] == s.th[u]
    ensures HeldBoth(s', t, T) && Held(s', t, 2, T.prev)
  {
    HeldOwn(s, s', t, 0, T.a.left);
    HeldOwn(s, s', t, 1, T.a.right);
    HeldOwn(s, s', t, 2, T.prev);
  }

  lemma StabOwn6(s: State, t: nat, a: Act)
    requires Ready(s, t, a) && s.th[t].pc.AtStab(6)
    ensures Own(s, t, a)
  {
    HeldAll(s, Step(s, t, a), t, s.th[t]);
  }

  lemma StabOwn7(s: State, t: nat, a: Act)
    requires Ready(s, t, a) && s.th[t].pc.AtStab(7)
    ensures Own(s, t, a)
  {
    HeldAll(s, Step(s, t, a), t, s.th[t]);
  }

  lemma StabOwn8(s: State, t: nat, a: Act)
    requires Ready(s, t, a) && s.th[t].pc.AtStab(8)
    ensures Own(s, t, a)
  {
    HeldOwn(s, Step(s, t, a), t, 0, s.th[t].a.left);
    HeldOwn(s, Step(s, t, a), t, 1, s.th[t].a.right);
  }

  lemma StabOwn9(s: State, t: nat, a: Act)
    requires Ready(s, t, a) && s.th[t].pc.AtStab(9)
    ensures Own(s, t, a)
  {
  }

  lemma StepOwn(s: State, t: nat, a: Act)
    requires Ready(s, t, a)
    ensures Own(s, t, a)
  {
    match s.th[t].pc
    case Alloc | ReadPush | CasFirst | InitLink | CasPush => PushOwn(s, t, a);
    case ReadPop => ReadPopOwn(s, t, a);
    case PopCheck => PopCheckOwn(s, t, a);
    case PopPrev => PopPrevOwn(s, t, a);
    case CasLast | CasPop => CasPopOwn(s, t, a);
    case PopReserve0 | PopReserve1 => ReserveOwn(s, t, a);
    case Idle | TakeData | Return(_) => RestOwn(s, t, a);
    case Retire | Scan(_, _) => ScanOwn(s, t, a);
    case Clear(_, _) => ClearOwn(s, t, a);
    case Stab(k, _) => StabOwn(s, t, a);
  }

  lemma StabOwn(s: State, t: nat, a: Act)
    requires Ready(s, t, a) && s.th[t].pc.Stab?
    ensures Own(s, t, a)
  {
    var k := s.th[t].pc.stage;
    if k <= 1 { StabOwn01(s, t, a); }
    else if k == 2 { StabOwn2(s, t, a); }
    else if k == 3 { StabOwn3(s, t, a); }
    else if k == 4 { StabOwn4(s, t, a); }
    else if k == 5 { StabOwn5(s, t, a); }
    else if k == 6 { StabOwn6(s, t, a); }
    else if k == 7 { StabOwn7(s, t, a); }
    else if k == 8 { StabOwn8(s, t, a); }
    else { StabOwn9(s, t, a); }
  }
}
