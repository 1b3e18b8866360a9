/** No step of one thread disturbs what another relies on. */
module MMStable {
  import opened DequeSpec
  import opened MMMachine
  import opened MMInv

  /** The facts about the link a stabiliser is about to repair; they rest on what the other stabilisers do. */
  ghost predicate Late(s: State, T: Thread) {
    var S := StabSide(T);
    && (T.pc.AtStab(8) && Link(s, T.prev, S) == T.seen ==> s.anchor == T.a)
    && (T.pc.AtStab(9) && s.anchor == T.a ==> Link(s, T.prev, S).ptr == End(T.a, S))
  }

  ghost predicate Other(s: State, s': State, t: nat, u: nat) {
    && Core(s) && Core(s') && Evolves(s, s', t) && u != t && u < |s.th|
    && ThreadOk(s, u, s.th[u])
  }

  lemma NodeStable(s: State, s': State, t: nat, u: nat)
    requires Other(s, s', t, u) && OwnsNode(s, u, s.th[u])
    ensures OwnsNode(s', u, s.th[u]) && Link(s', s.th[u].node, LeftSide) == Link(s, s.th[u].node, LeftSide)
    ensures Link(s', s.th[u].node, RightSide) == Link(s, s.th[u].node, RightSide)
  {
    var n := s.th[u].node;
    assert OwnerEvolves(s, s', t, n);
    assert LinkEvolves(s, s', t, n, LeftSide) && LinkEvolves(s, s', t, n, RightSide);
  }

  lemma ResumeStable(s: State, s': State, t: nat, u: nat, r: Resume)
    requires Other(s, s', t, u) && ResumeOk(s, u, s.th[u], r)
    ensures ResumeOk(s', u, s.th[u], r)
  {
    if r.ToPush? { NodeStable(s, s', t, u); }
  }

  /** A node in use joins the deque only if it is in it already, and then keeps its place. */
  lemma PlaceStable(s: State, s': State, t: nat, n: int)
    requires Core(s) && Core(s') && Evolves(s, s', t) && InUse(OwnerOf(s, n)) && n in s'.pos
    ensures n in s.pos && s.pos[n] == s'.pos[n]
  {
    assert PosEvolves(s, s', t, n);
  }

  lemma PopStable(s: State, s': State, t: nat, u: nat)
    requires Other(s, s', t, u) && (s.th[u].pc == PopPrev || s.th[u].pc == CasPop)
    ensures ThreadOk(s', u, s.th[u])
  {
    var T := s.th[u];
    var e, o := End(T.a, T.op.side), End(T.a, Opp(T.op.side));
    assert Held(s, u, 0, T.a.left) && Held(s, u, 1, T.a.right);
    assert Held(s', u, 0, T.a.left) && Held(s', u, 1, T.a.right);
    if e in s'.pos && o in s'.pos {
      PlaceStable(s, s', t, e);
      PlaceStable(s, s', t, o);
    }
  }

  /** An anchor with a pending push is never restored while its new end is reserved. */
  lemma AnchorStable(s: State, s': State, t: nat, a: Anchor)
    requires Core(s) && Core(s') && Evolves(s, s', t) && a.status.Pushing? && s'.anchor == a
    requires TwoNodes(a) && InUse(OwnerOf(s, a.left)) && InUse(OwnerOf(s, a.right))
    ensures s.anchor == a && s.lo == s'.lo && s.hi == s'.hi
    ensures forall p :: s.lo <= p <= s.hi ==> s'.at[p] == s.at[p]
  {
    assert InUse(OwnerOf(s, End(a, a.status.side)));
    assert s.lo <= s.hi && s'.lo <= s'.hi;
    PlaceStable(s, s', t, a.left);
    PlaceStable(s, s', t, a.right);
    assert s.lo == s'.lo && s.hi == s'.hi;
    forall p | s.lo <= p <= s.hi ensures s'.at[p] == s.at[p] { assert p in s'.at && p in s.at; }
  }

  lemma StabPrevStable(s: State, s': State, t: nat, u: nat)
    requires Other(s, s', t, u) && HeldBoth(s, u, s.th[u]) && TwoNodes(s.th[u].a) && s.th[u].a.status.Pushing? && StabPrevOk(s, s.th[u])
    ensures HeldBoth(s', u, s.th[u]) && StabPrevOk(s', s.th[u])
  {
    var T := s.th[u];
    assert Held(s, u, 0, T.a.left) && Held(s, u, 1, T.a.right);
    assert Held(s', u, 0, T.a.left) && Held(s', u, 1, T.a.right);
    if s'.anchor == T.a { AnchorStable(s, s', t, T.a); }
  }

  lemma SnapStable(s: State, s': State, t: nat, u: nat)
    requires Other(s, s', t, u) && Held(s, u, 2, s.th[u].prev) && Snap(s, s.th[u])
    ensures Held(s', u, 2, s.th[u].prev) && Snap(s', s.th[u])
  {
    assert LinkEvolves(s, s', t, s.th[u].prev, StabSide(s.th[u]));
    assert Held(s', u, 2, s.th[u].prev);
  }

  lemma StabStable(s: State, s': State, t: nat, u: nat)
    requires Other(s, s', t, u) && Late(s', s.th[u]) && s.th[u].pc.Stab?
    ensures ThreadOk(s', u, s.th[u])
  {
    var T := s.th[u];
    var k := T.pc.stage;
    ResumeStable(s, s', t, u, T.pc.back);
    if k >= 3 {
      assert Held(s, u, 0, T.a.left) && Held(s, u, 1, T.a.right);
      assert Held(s', u, 0, T.a.left) && Held(s', u, 1, T.a.right);
    }
    if k >= 4 { StabPrevStable(s, s', t, u); }
    if k == 6 { assert Held(s', u, 2, T.prev); }
    if 7 <= k <= 8 { SnapStable(s, s', t, u); }
  }

  lemma PlainStable(s: State, s': State, t: nat, u: nat)
    requires Other(s, s', t, u)
    requires s.th[u].pc in {ReadPush, CasFirst, InitLink, CasPush, PopReserve1, PopCheck, TakeData, Retire}
    ensures ThreadOk(s', u, s.th[u])
  {
    var T := s.th[u];
    match T.pc
    case TakeData | Retire => assert OwnerEvolves(s, s', t, End(T.a, T.op.side));
    case PopReserve1 | PopCheck =>
    case _ => NodeStable(s, s', t, u);
  }

  lemma OtherStable(s: State, s': State, t: nat, u: nat)
    requires Other(s, s', t, u) && Late(s', s.th[u])
    ensures ThreadOk(s', u, s.th[u])
  {
    var pc := s.th[u].pc;
    match pc
    case PopPrev | CasPop => PopStable(s, s', t, u);
    case ReadPush | CasFirst | InitLink | CasPush | PopReserve1 | PopCheck | TakeData | Retire => PlainStable(s, s', t, u);
    case Clear(_, r) => ResumeStable(s, s', t, u, r);
    case Stab(_, _) => StabStable(s, s', t, u);
    case Idle | Alloc | ReadPop | CasLast | PopReserve0 | Scan(_, _) | Return(_) =>
  }
}
