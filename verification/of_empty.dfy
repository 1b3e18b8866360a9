/** Why an empty answer of `doPop` is honest: the deque was empty at some instant of the call. */
module OFEmpty {
  import opened DequeSpec
  import opened OFHeap
  import opened OFMoves
  import opened OFMachine
  import opened OFInv
  import opened OFSteps

  /** `saw`: the deque was empty at some instant since T's call began. */
  ghost predicate EmptyFact(h: Heap, T: Thread, saw: bool) {
    var S := T.op.side;
    T.op.Pop? ==>
      match T.pc
      case LoadReach => T.near.typ == NearType(S) && !Stale(h, T) ==> saw || Load(h, ReachLoc(T)).typ == VALUE
      case LoadBack => !Stale(h, T) ==>
        && (T.near.typ == NearType(S) && T.reach.typ != VALUE ==> saw)
        && (T.near.typ != VALUE && T.reach.typ == FarType(S) ==> saw || !IsLink(h.mem, T.far.word, NearLink(S), T.b))
      case Check(_) => !Stale(h, T) ==> saw || T.fooled
      case Return(r) => r == None ==> saw || T.fooled
      case _ => true
  }

  /** A step of thread T makes no link between two published buffers. */
  ghost predicate NoNewLinks(h: Heap, h': Heap) {
    forall c, b, S: Side {:trigger IsLink(h'.mem, c, NearLink(S), b)} ::
      c in h.bufs && b in h.bufs && IsLink(h'.mem, c, NearLink(S), b) ==> IsLink(h.mem, c, NearLink(S), b)
  }

  lemma HitLinks(h: Heap, T: Thread, t: nat, k: Kind, a: Act)
    requires Fires(h, T, k, a)
    ensures NoNewLinks(h, Hit(h, T, t, k, a).h)
  {
  }

  lemma MicroLinks(h: Heap, T: Thread, t: nat, clock: nat, a: Act)
    requires WF(h) && ThreadOk(h, T) && Enabled(h, T, a)
    ensures NoNewLinks(h, Micro(h, T, t, clock, a).h)
  {
    if T.pc.Target? && Live(h, T) { HitLinks(h, T, t, T.pc.kind, a); }
  }

  // ---------------------------------------------------------------- other threads' steps

  lemma ReachEmptied(h: Heap, h': Heap, T: Thread)
    requires WF(h) && WF(h') && Evolves(h, h') && ThreadOk(h, T) && T.pc == LoadReach
    requires T.near.typ == NearType(T.op.side) && !Stale(h', T)
    requires Load(h, ReachLoc(T)).typ == VALUE && Load(h', ReachLoc(T)).typ != VALUE
    ensures Abs(h') == []
  {
    var S := T.op.side;
    var c := T.far.word;
    assert LinkEvolves(h, h', S, T.b, c);
    assert SlotEvolves(h, h', T.b, T.i);
    NearInChain(h', S, T.b);
    LinkedNeighbour(h', S, T.b, c);
    assert NodeOk(h', c);
    assert PairOk(h'.mem, c, if S == LeftSide then NearValue(S) else NearLink(S));
    EmptyAcross(h', S, T.b, c);
  }

  lemma EmptyStable(h: Heap, h': Heap, T: Thread, saw: bool, saw': bool)
    requires WF(h) && WF(h') && Evolves(h, h') && NoNewLinks(h, h') && ThreadOk(h, T)
    requires EmptyFact(h, T, saw) && (saw ==> saw') && (Abs(h') == [] ==> saw')
    ensures EmptyFact(h', T, saw')
  {
    if T.op.Pop? && (T.pc == LoadReach || T.pc == LoadBack || T.pc.Check?) {
      assert SlotEvolves(h, h', T.b, T.i);
      if T.pc == LoadReach && T.near.typ == NearType(T.op.side) && !Stale(h', T)
         && Load(h, ReachLoc(T)).typ == VALUE && Load(h', ReachLoc(T)).typ != VALUE {
        ReachEmptied(h, h', T);
      }
    }
  }

  // ---------------------------------------------------------------- the thread's own steps

  lemma FarEmpty(h: Heap, T: Thread)
    requires WF(h) && ThreadOk(h, T) && T.pc == LoadFar && T.op.Pop?
    ensures var T' := T.(far := Load(h, FarLoc(T))); EmptyFact(h, T'.(pc := AfterFar(T')), Abs(h) == [])
  {
    var S := T.op.side;
    var T' := T.(far := Load(h, FarLoc(T)));
    assert NodeOk(h, T.b);
    if !Stale(h, T) && T.near.typ == NearType(S) {
      if T'.far.typ == FarType(S) {
        EmptyInside(h, S, T.b, T.i);
      } else if AfterFar(T') == LoadReach && Load(h, ReachLoc(T')).typ != VALUE {
        var c := T'.far.word;
        NearInChain(h, S, T.b);
        LinkedNeighbour(h, S, T.b, c);
        assert NodeOk(h, c);
        assert PairOk(h.mem, c, if S == LeftSide then NearValue(S) else NearLink(S));
        EmptyAcross(h, S, T.b, c);
      }
    }
  }

  lemma ReachEmpty(h: Heap, T: Thread, saw: bool)
    requires WF(h) && ThreadOk(h, T) && T.pc == LoadReach && T.op.Pop? && EmptyFact(h, T, saw)
    ensures EmptyFact(h, T.(reach := Load(h, ReachLoc(T)), pc := LoadBack), saw || Abs(h) == [])
  {
    var S := T.op.side;
    var c := T.far.word;
    if !Stale(h, T) && T.near.typ != VALUE && Load(h, ReachLoc(T)).typ == FarType(S) && Load(h, BackLoc(T)).word == T.b {
      assert NodeOk(h, c);
      assert NodeOk(h, T.b);
      if Load(h, BackLoc(T)).typ == VALUE {
        EmptyAcross(h, S, T.b, c);
      } else {
        EmptyInside(h, S, c, NearLink(S));
      }
    }
  }

  lemma OwnEmpty(h: Heap, T: Thread, t: nat, clock: nat, a: Act, saw: bool, saw': bool)
    requires WF(h) && ThreadOk(h, T) && Enabled(h, T, a) && EmptyFact(h, T, saw)
    requires saw ==> saw'
    requires Abs(Micro(h, T, t, clock, a).h) == [] ==> saw'
    ensures EmptyFact(Micro(h, T, t, clock, a).h, Micro(h, T, t, clock, a).T, saw')
  {
    if T.op.Pop? {
      match T.pc
      case LoadFar => FarEmpty(h, T);
      case LoadReach => ReachEmpty(h, T, saw);
      case _ => RestEmpty(h, T, t, clock, a, saw, saw');
    }
  }

  /** The other steps of a pop conclude nothing new about emptiness. */
  lemma RestEmpty(h: Heap, T: Thread, t: nat, clock: nat, a: Act, saw: bool, saw': bool)
    requires WF(h) && ThreadOk(h, T) && Enabled(h, T, a) && EmptyFact(h, T, saw) && T.op.Pop? && T.pc != LoadFar && T.pc != LoadReach
    requires saw ==> saw'
    ensures EmptyFact(Micro(h, T, t, clock, a).h, Micro(h, T, t, clock, a).T, saw')
  {
  }
}
