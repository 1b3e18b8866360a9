/** What holds between the atomic steps of MMDeque, and what each thread may rely on. */
module MMInv {
  import opened DequeSpec
  import opened MMMachine

  // ---------------------------------------------------------------- the deque

  ghost predicate Sizes(s: State) {
    |s.hz| == SLOTS * |s.th| && |s.retired| == |s.th| && |s.count| == |s.th|
  }

  ghost predicate Positions(s: State) {
    && s.lo <= s.hi + 1
    && (forall p :: p in s.at <==> s.lo <= p <= s.hi)
    && (forall p :: s.lo <= p <= s.hi ==> s.at[p] in s.pos && s.pos[s.at[p]] == p && s.at[p] != NULL)
    && (forall n :: n in s.pos ==> s.lo <= s.pos[n] <= s.hi && s.at[s.pos[n]] == n)
    && (forall n {:trigger OwnerOf(s, n)} {:trigger n in s.pos} :: n in s.pos <==> OwnerOf(s, n) == Linked)
  }

  ghost predicate AnchorOk(s: State)
    requires Positions(s)
  {
    if s.lo > s.hi then s.anchor == Anchor(NULL, NULL, Stable)
    else s.anchor.left == s.at[s.lo] && s.anchor.right == s.at[s.hi] && (s.lo == s.hi ==> s.anchor.status == Stable)
  }

  /** All neighbour links agree except the one named by the anchor's status. */
  ghost predicate NeighbourOk(s: State, S: Side, p: int)
    requires Positions(s)
  {
    s.lo <= p <= s.hi && s.lo <= p + Dir(S) <= s.hi ==>
      Link(s, s.at[p], S).ptr == s.at[p + Dir(S)] || (s.anchor.status == Pushing(S) && p + Dir(S) == Edge(s, S))
  }

  ghost predicate TrashOk(s: State, t: nat)
    requires t < |s.retired|
  {
    && (forall i :: 0 <= i < |s.retired[t]| ==> OwnerOf(s, s.retired[t][i]) == Retired(t))
    && (forall i, j :: 0 <= i < j < |s.retired[t]| ==> s.retired[t][i] != s.retired[t][j])
  }

  ghost predicate Core(s: State) {
    && Sizes(s) && Positions(s) && AnchorOk(s)
    && (forall S: Side, p {:trigger NeighbourOk(s, S, p)} :: NeighbourOk(s, S, p))
    && (forall t {:trigger TrashOk(s, t)} :: 0 <= t < |s.retired| ==> TrashOk(s, t))
  }

  // ---------------------------------------------------------------- hazards

  /** Thread u is about to compare node n with reservation number k. */
  ghost predicate Scanning(s: State, u: nat, n: int) {
    u < |s.th| && u < |s.retired| && s.th[u].pc.Scan? && s.th[u].pc.i < |s.retired[u]| && s.retired[u][s.th[u].pc.i] == n
  }

  ghost predicate InUse(o: Owner) { o.Linked? || o.Removed? || o.Retired? }

  /** Reservation j of thread t holds n, n is not back in the pool, and no scan of n has passed the reservation. */
  ghost predicate Held(s: State, t: nat, j: nat, n: int) {
    && j < SLOTS && n != NULL && Slot(s, SLOTS * t + j) == n
    && InUse(OwnerOf(s, n))
    && (forall u: nat {:trigger Scanning(s, u, n)} :: Scanning(s, u, n) ==> s.th[u].pc.k <= SLOTS * t + j)
  }

  ghost predicate HeldBoth(s: State, t: nat, T: Thread) {
    Held(s, t, 0, T.a.left) && Held(s, t, 1, T.a.right)
  }

  ghost predicate SlotsAre(s: State, t: nat, T: Thread, n: nat) {
    && (n >= 1 ==> Slot(s, SLOTS * t) == T.a.left)
    && (n >= 2 ==> Slot(s, SLOTS * t + 1) == T.a.right)
  }

  // ---------------------------------------------------------------- facts of one thread

  ghost predicate OwnsNode(s: State, t: nat, T: Thread) {
    && T.op.Push? && T.node != NULL && OwnerOf(s, T.node) == Private(t) && Data(s, T.node) == T.op.value
  }

  ghost predicate TwoNodes(a: Anchor) { a.left != NULL && a.right != NULL && a.left != a.right }

  /** The two ends that were validated, as long as both are still in the deque, are in this order. */
  ghost predicate Ordered(s: State, T: Thread) {
    var S := T.op.side;
    var e, o := End(T.a, S), End(T.a, Opp(S));
    e in s.pos && o in s.pos ==> if S == LeftSide then s.pos[e] < s.pos[o] else s.pos[o] < s.pos[e]
  }

  ghost predicate PopPrevOk(s: State, T: Thread) {
    var S := T.op.side;
    var e, o := End(T.a, S), End(T.a, Opp(S));
    e in s.pos && o in s.pos ==> s.pos[e] - Dir(S) in s.at && T.prev == s.at[s.pos[e] - Dir(S)]
  }

  /** While the anchor is the one T read, T.prev is the node before the new end. */
  ghost predicate StabPrevOk(s: State, T: Thread) {
    var p := Edge(s, StabSide(T)) - Dir(StabSide(T));
    s.anchor == T.a ==> p in s.at && T.prev == s.at[p]
  }

  ghost predicate Snap(s: State, T: Thread) {
    var c := Link(s, T.prev, StabSide(T));
    T.seen.sn <= c.sn && (T.seen.sn == c.sn ==> T.seen == c)
  }

  ghost predicate ResumeOk(s: State, t: nat, T: Thread, r: Resume) {
    match r
    case ToPush => OwnsNode(s, t, T) && T.lin == None
    case ToPop => T.op.Pop? && T.lin == None
    case ToReturn(v) => AnswerOk(t, T.op, true, v, T.lin) && (T.op.Pop? ==> v.Some?)
  }

  ghost predicate StabOk(s: State, t: nat, T: Thread, r: Resume) {
    ResumeOk(s, t, T, r) && TwoNodes(T.a) && T.a.status.Pushing?
  }

  /** What a stabiliser knows before its k-th step. */
  ghost predicate StageOk(s: State, t: nat, T: Thread, k: nat) {
    var S := StabSide(T);
    && k <= 9
    && (k <= 2 ==> SlotsAre(s, t, T, k))
    && (k >= 3 ==> HeldBoth(s, t, T))
    && (k >= 4 ==> StabPrevOk(s, T))
    && (k == 5 ==> Slot(s, SLOTS * t + 2) == T.prev)
    && (6 <= k <= 8 ==> Held(s, t, 2, T.prev))
    && (7 <= k <= 8 ==> Snap(s, T) && T.seen.ptr != End(T.a, S))
    // a late swap of the link can succeed only while the anchor is still the one that was read
    && (k == 8 && Link(s, T.prev, S) == T.seen ==> s.anchor == T.a)
    && (k == 9 && s.anchor == T.a ==> Link(s, T.prev, S).ptr == End(T.a, S))
  }

  ghost predicate ThreadOk(s: State, t: nat, T: Thread) {
    var S := T.op.side;
    match T.pc
    case Idle => T.lin == None
    case Alloc => T.op.Push? && T.lin == None
    case ReadPush => OwnsNode(s, t, T) && T.lin == None
    case CasFirst => OwnsNode(s, t, T) && T.lin == None && End(T.a, S) == NULL
    case InitLink => OwnsNode(s, t, T) && T.lin == None && End(T.a, S) != NULL && T.a.status == Stable
    case CasPush =>
      && OwnsNode(s, t, T) && T.lin == None && End(T.a, S) != NULL && T.a.status == Stable
      && Link(s, T.node, Opp(S)).ptr == End(T.a, S)
    case ReadPop => T.op.Pop? && T.lin == None
    case CasLast => T.op.Pop? && T.lin == None && T.a.left == T.a.right && T.a.left != NULL
    case PopReserve0 => T.op.Pop? && T.lin == None && TwoNodes(T.a) && T.a.status == Stable
    case PopReserve1 => T.op.Pop? && T.lin == None && TwoNodes(T.a) && T.a.status == Stable && SlotsAre(s, t, T, 1)
    case PopCheck => T.op.Pop? && T.lin == None && TwoNodes(T.a) && T.a.status == Stable && SlotsAre(s, t, T, 2)
    case PopPrev =>
      && T.op.Pop? && T.lin == None && TwoNodes(T.a) && T.a.status == Stable && HeldBoth(s, t, T) && Ordered(s, T)
      && !(s.anchor.status == Pushing(Opp(S)) && End(s.anchor, Opp(S)) == End(T.a, Opp(S)))
    case CasPop =>
      T.op.Pop? && T.lin == None && TwoNodes(T.a) && T.a.status == Stable && HeldBoth(s, t, T) && Ordered(s, T) && PopPrevOk(s, T)
    case TakeData =>
      T.op.Pop? && End(T.a, S) != NULL && OwnerOf(s, End(T.a, S)) == Removed(t) && T.lin == Some(Popped(t, S, Data(s, End(T.a, S))))
    case Retire =>
      T.op.Pop? && End(T.a, S) != NULL && OwnerOf(s, End(T.a, S)) == Removed(t) && T.lin == Some(Popped(t, S, T.data))
    case Scan(i, k) => T.op.Pop? && T.lin == Some(Popped(t, S, T.data))
    case Clear(_, r) => ResumeOk(s, t, T, r)
    case Stab(k, r) => StabOk(s, t, T, r) && StageOk(s, t, T, k)
    case Return(v) => AnswerOk(t, T.op, true, v, T.lin)
  }

  ghost predicate ThreadAt(s: State, t: nat)
    requires t < |s.th|
  {
    ThreadOk(s, t, s.th[t]) && Accounted(s.events, s.calls, t, s.th[t].lin)
  }

  ghost predicate Inv(s: State) {
    && Core(s)
    && (forall t {:trigger ThreadAt(s, t)} :: 0 <= t < |s.th| ==> ThreadAt(s, t))
    && Replay(s.events) == Some(Abs(s))
  }

  // ---------------------------------------------------------------- how a step of thread t looks to the others

  ghost predicate OwnerEvolves(s: State, s': State, t: nat, n: int) {
    var o, o' := OwnerOf(s, n), OwnerOf(s', n);
    o == o' || (o == Free && o' == Private(t)) || (o == Private(t) && o' == Linked) || (o == Linked && o' == Removed(t))
    || (o == Removed(t) && o' == Retired(t)) || (o == Retired(t) && o' == Free)
  }

  ghost predicate LinkEvolves(s: State, s': State, t: nat, n: int, S: Side) {
    var c, c' := Link(s, n, S), Link(s', n, S);
    && (OwnerOf(s, n) != Free && OwnerOf(s, n) != Private(t) ==> c.sn <= c'.sn && (c.sn == c'.sn ==> c == c'))
    && (OwnerOf(s, n).Private? && OwnerOf(s, n) != Private(t) ==> c == c')
  }

  ghost predicate PosEvolves(s: State, s': State, t: nat, n: int) {
    && (n in s.pos && n in s'.pos ==> s.pos[n] == s'.pos[n])
    && (n !in s.pos && n in s'.pos ==> OwnerOf(s, n) == Private(t))
  }

  ghost predicate Evolves(s: State, s': State, t: nat) {
    && |s'.th| == |s.th| && (forall u :: 0 <= u < |s.th| && u != t ==> s'.th[u] == s.th[u])
    && (forall i {:trigger Slot(s', i)} :: !(SLOTS * t <= i < SLOTS * t + SLOTS) ==> Slot(s', i) == Slot(s, i))
    && (forall n {:trigger OwnerOf(s', n)} :: OwnerEvolves(s, s', t, n))
    && (forall n {:trigger Data(s', n)} :: OwnerOf(s, n) != Free ==> Data(s', n) == Data(s, n))
    && (forall n, S: Side {:trigger Link(s', n, S)} :: LinkEvolves(s, s', t, n, S))
    && (forall n {:trigger n in s'.pos} :: PosEvolves(s, s', t, n))
    && (forall p {:trigger p in s'.at} :: p in s.at && p in s'.at ==> s'.at[p] == s.at[p])
    && (s'.anchor != s.anchor && s'.anchor.status.Pushing? ==> OwnerOf(s, End(s'.anchor, s'.anchor.status.side)) == Private(t))
    && (forall u: nat, j: nat, n {:trigger Held(s', u, j, n)} :: u != t && Held(s, u, j, n) ==> Held(s', u, j, n))
  }
}
