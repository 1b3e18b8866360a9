/** Obstruction-freedom of OFDeque.hpp: a thread that runs alone ends its call within a fixed number of steps. */
module OFAlone {
  import opened DequeSpec
  import opened OFHeap
  import opened OFMoves
  import opened OFMachine
  import opened OFInv
  import opened OFSteps
  import opened OFEdge
  import opened OFDeque

  // ---------------------------------------------------------------- a pass that began at the far edge, with nobody else at work

  ghost predicate NearSeen(h: Heap, T: Thread) { T.near == Load(h, NearLoc(T)) }

  ghost predicate BothSeen(h: Heap, T: Thread) { NearSeen(h, T) && T.far == Load(h, FarLoc(T)) }

  /** The far slot has been left far-typed by the own unlink; its word need not be the one in the copy. */
  ghost predicate FarLeft(h: Heap, T: Thread) { T.far.typ == Load(h, FarLoc(T)).typ && T.far.count == Load(h, FarLoc(T)).count }

  ghost predicate AtInner(h: Heap, T: Thread) { InnerEdge(h, T.op.side, T.b, T.i) }

  ghost predicate AtBorder(h: Heap, T: Thread) { BorderEdge(h, T.op.side, T.b, T.i) }

  ghost predicate AtEdge(h: Heap, T: Thread) { FarEdge(h, T.op.side, T.b, T.i) }

  predicate Across(k: Kind) { k == KStraddle || k == KSeal || k == KUnlink }

  /** Where a guarded operation takes place. */
  ghost predicate InPlace(h: Heap, T: Thread, k: Kind) {
    if Across(k) then AtBorder(h, T) && (if k == KUnlink then T.reach.typ == SEALED else T.reach == Load(h, ReachLoc(T))) else AtInner(h, T)
  }

  /** The second swap will succeed. */
  ghost predicate SwapReady(h: Heap, T: Thread, k: Kind) {
    && Load(h, TargetLoc(T, k)) == TargetSlot(T, k) && Load(h, GuardLoc(T, k)) == Bumped(GuardSlot(T, k))
    && (if Across(k) then AtBorder(h, T) else AtInner(h, T)) && (k == KSeal ==> T.far == Load(h, FarLoc(T)))
  }

  /** What the thread has seen is still so, and it is where its operation belongs. */
  ghost predicate Fresh(h: Heap, T: Thread) {
    match T.pc
    case LoadNear => AtEdge(h, T)
    case LoadFar => AtEdge(h, T) && NearSeen(h, T)
    case LoadReach => AtBorder(h, T) && BothSeen(h, T)
    case LoadBack => AtBorder(h, T) && BothSeen(h, T) && T.reach == Load(h, ReachLoc(T))
    case Check(k) => BothSeen(h, T) && InPlace(h, T, k)
    case Guard(k) => BothSeen(h, T) && InPlace(h, T, k)
    case Target(k) => SwapReady(h, T, k)
    case _ => true
  }

  /** A pop that has unlinked a buffer in this pass. */
  ghost predicate Unlinked(h: Heap, T: Thread) {
    (T.pc == Check(KPop) || T.pc == Guard(KPop)) && AtInner(h, T) && NearSeen(h, T) && FarLeft(h, T)
  }

  // ---------------------------------------------------------------- how far it is to the end

  /** The steps from here to the end of a pass. */
  function Stage(p: PC): nat {
    match p
    case Idle => 0
    case Return(_) => 1
    case Target(k) => if k == KSeal then 8 else if k == KUnlink then 5 else 2
    case Guard(k) => if k == KSeal then 9 else if k == KUnlink then 6 else 3
    case Check(k) => if k == KSeal then 10 else if k == KUnlink then 7 else 4
    case LoadBack => 11
    case LoadReach => 12
    case LoadFar => 13
    case LoadNear => 14
    case Oracle => 15
  }

  /** The passes still to come after this one. */
  ghost function More(h: Heap, T: Thread): nat {
    var S := T.op.side;
    match T.pc
    case Idle | Return(_) => 0
    case Oracle => if EmptyEnd(h, S) then 1 else 0
    case LoadNear | LoadFar => if !Fresh(h, T) then 2 else if AtBorder(h, T) then 1 else 0
    case LoadReach | LoadBack => if !Fresh(h, T) then 2 else 1
    case Check(k) => if Fresh(h, T) then (if k == KSeal || k == KUnlink then 1 else 0) else if Unlinked(h, T) then 1 else 2
    case Guard(k) => if Fresh(h, T) then (if k == KSeal || k == KUnlink then 1 else 0) else if Unlinked(h, T) then 1 else 2
    case Target(k) => if !Fresh(h, T) then 2 else if k == KSeal || k == KUnlink then 1 else 0
  }

  ghost function Rank(h: Heap, T: Thread): nat { 15 * More(h, T) + Stage(T.pc) }

  /** The oracle names the far edge. */
  ghost predicate Aimed(h: Heap, T: Thread, a: Act) { T.pc == Oracle ==> a.Aim? && FarEdge(h, T.op.side, a.b, a.i) }

  /** Between the steps of a call nothing but the shared slots and the thread's own locals matters. */
  ghost predicate CanGo(h: Heap, T: Thread, a: Act) {
    WF(h) && ThreadOk(h, T) && Enabled(h, T, a) && Aimed(h, T, a) && T.pc != Idle
  }

  // ---------------------------------------------------------------- the steps of a pass

  lemma OracleStep(h: Heap, T: Thread, t: nat, clock: nat, a: Act)
    requires CanGo(h, T, a) && T.pc == Oracle
    ensures var o := Micro(h, T, t, clock, a); Rank(o.h, o.T) < Rank(h, T)
  {
    BorderMeansEmptyEnd(h, T.op.side, a.b, a.i);
  }

  /** At the far edge the two loads lead on to an operation of the pass. */
  lemma FarStep(h: Heap, T: Thread, t: nat, clock: nat, a: Act)
    requires CanGo(h, T, a) && T.pc == LoadFar && Fresh(h, T)
    ensures var o := Micro(h, T, t, clock, a); o.h == h && Fresh(h, o.T) && o.T.pc != Oracle && Rank(h, o.T) < Rank(h, T)
  {
    var S := T.op.side;
    assert NodeOk(h, T.b);
    var T' := T.(far := Load(h, FarLoc(T)));
    if AtInner(h, T) {
      InnerPass(h, T');
    } else {
      assert PairOk(h.mem, T.b, if S == LeftSide then 0 else N - 2);
      assert AfterFar(T') == LoadReach;
    }
  }

  lemma InnerPass(h: Heap, T: Thread)
    requires AtInner(h, T) && BothSeen(h, T)
    ensures if T.op.Push? then AfterFar(T) == Guard(if T.i == FarValue(T.op.side) then KAppend else KPush) else AfterFar(T) == PopAt(T)
  {
  }

  /** At the border the neighbour links back, so the loads lead on to an operation across it. */
  lemma BackStep(h: Heap, T: Thread, t: nat, clock: nat, a: Act)
    requires CanGo(h, T, a) && T.pc == LoadBack && Fresh(h, T)
    ensures var o := Micro(h, T, t, clock, a); o.h == h && Fresh(h, o.T) && o.T.pc != Oracle && Rank(h, o.T) < Rank(h, T)
  {
    BorderAtEnd(h, T.op.side, T.b, T.i);
  }

  /** A counter that moves leaves the edge where it is. */
  lemma BumpKeepsEdge(h: Heap, S: Side, b: int, i: int, l: Loc, s: Slot)
    requires s.typ == Load(h, l).typ && s.word == Load(h, l).word
    ensures var h' := Put(h, l, s);
            && (InnerEdge(h', S, b, i) <==> InnerEdge(h, S, b, i)) && (BorderEdge(h', S, b, i) <==> BorderEdge(h, S, b, i))
  {
    var h' := Put(h, l, s);
    assert forall c, j :: Typ(h'.mem, c, j) == Typ(h.mem, c, j) || Loc(c, j) == l;
    assert forall c, j :: Loc(c, j) == l ==> At(h'.mem, c, j) == s && At(h.mem, c, j) == Load(h, l);
  }

  lemma Elsewhere(T: Thread, k: Kind)
    requires Across(k) ==> T.i == FarValue(T.op.side)
    ensures TargetLoc(T, k) != GuardLoc(T, k) && FarLoc(T) != NearLoc(T)
  {
  }

  lemma GuardHits(h: Heap, T: Thread, t: nat, clock: nat, a: Act, k: Kind)
    requires T.pc == Guard(k) && Load(h, GuardLoc(T, k)) == GuardSlot(T, k)
    requires Load(h, TargetLoc(T, k)) == TargetSlot(T, k) && (if Across(k) then AtBorder(h, T) else AtInner(h, T))
    requires k == KSeal ==> T.far == Load(h, FarLoc(T))
    ensures var o := Micro(h, T, t, clock, a); o.T == T.(pc := Target(k)) && Fresh(o.h, o.T)
  {
    var l := GuardLoc(T, k);
    BumpKeepsEdge(h, T.op.side, T.b, T.i, l, Bumped(GuardSlot(T, k)));
    Elsewhere(T, k);
    assert SwapReady(Put(h, l, Bumped(GuardSlot(T, k))), T, k);
  }

  lemma GuardRank(h: Heap, T: Thread, t: nat, clock: nat, a: Act, k: Kind)
    requires CanGo(h, T, a) && T.pc == Guard(k)
    ensures var o := Micro(h, T, t, clock, a); Rank(o.h, o.T) < Rank(h, T)
    ensures Fresh(h, T) ==> Micro(h, T, t, clock, a).T.pc != Oracle
  {
    if Fresh(h, T) {
      GuardHits(h, T, t, clock, a, k);
    } else if Unlinked(h, T) {
      InnerLeft(h, T.op.side, T.b, T.i);
    }
  }

  lemma InnerLeft(h: Heap, S: Side, b: int, i: int)
    requires WF(h) && InnerEdge(h, S, b, i)
    ensures !EmptyEnd(h, S)
  {
    BorderMeansEmptyEnd(h, S, b, i);
  }

  /** After the seal the thread goes on to unlink what it has sealed. */
  lemma SealRank(h: Heap, T: Thread, t: nat, clock: nat, a: Act)
    requires CanGo(h, T, a) && T.pc == Target(KSeal) && Fresh(h, T)
    ensures var o := Micro(h, T, t, clock, a); Fresh(o.h, o.T) && o.T.pc in {Check(KUnlink), Guard(KUnlink)}
  {
    BorderAtEnd(h, T.op.side, T.b, T.i);
  }

  /** After an unlink the edge is inside the buffer, in reach of the same pass. */
  lemma UnlinkRank(h: Heap, T: Thread, t: nat, clock: nat, a: Act)
    requires CanGo(h, T, a) && T.pc == Target(KUnlink) && Fresh(h, T)
    ensures var o := Micro(h, T, t, clock, a);
            && WF(o.h) && InnerEdge(o.h, T.op.side, T.b, T.i)
            && (if T.op.Push? then o.T.pc == Oracle else Unlinked(o.h, o.T))
  {
    var S := T.op.side;
    var s := NewSlot(T, KUnlink, a.word);
    HitUnlink(h, T, t, a);
    AfterUnlink(h, S, T.b, T.far.word, s);
    UnlinkMove(h, S, T.b, T.far.word, s);
    assert Typ(h.mem, T.b, FarValue(S)) == T.near.typ && T.near.typ != FarType(S);
    assert Micro(h, T, t, clock, a) == Hit(h, T, t, KUnlink, a);
    UnlinkSeen(h, T, t, a);
  }

  lemma UnlinkSeen(h: Heap, T: Thread, t: nat, a: Act)
    requires T.pc == Target(KUnlink) && a.Go? && SwapReady(h, T, KUnlink)
    ensures var o := Hit(h, T, t, KUnlink, a);
            o.h == Shrink(h, T.op.side, T.b, T.far.word, NewSlot(T, KUnlink, a.word)) && NearSeen(o.h, o.T) && FarLeft(o.h, o.T)
    ensures Hit(h, T, t, KUnlink, a).T.op == T.op && Hit(h, T, t, KUnlink, a).T.b == T.b && Hit(h, T, t, KUnlink, a).T.i == T.i
  {
  }

  lemma TargetRank(h: Heap, T: Thread, t: nat, clock: nat, a: Act, k: Kind)
    requires CanGo(h, T, a) && T.pc == Target(k)
    ensures var o := Micro(h, T, t, clock, a); Rank(o.h, o.T) < Rank(h, T)
    ensures Fresh(h, T) && Micro(h, T, t, clock, a).T.pc == Oracle ==> k == KUnlink && T.op.Push?
  {
    if !Fresh(h, T) { StaleTarget(h, T, t, clock, a, k); }
    else if k == KSeal { SealRank(h, T, t, clock, a); }
    else if k == KUnlink {
      UnlinkRank(h, T, t, clock, a);
      InnerLeft(Micro(h, T, t, clock, a).h, T.op.side, T.b, T.i);
    } else { assert Micro(h, T, t, clock, a).T.pc.Return?; }
  }

  lemma StaleTarget(h: Heap, T: Thread, t: nat, clock: nat, a: Act, k: Kind)
    requires T.pc == Target(k) && !Fresh(h, T)
    ensures var o := Micro(h, T, t, clock, a); Rank(o.h, o.T) < Rank(h, T)
  {
    var o := Micro(h, T, t, clock, a);
    assert More(o.h, o.T) <= 2 && (o.T.pc == Oracle ==> More(o.h, o.T) <= 1);
    assert o.T.pc == Oracle || Stage(o.T.pc) < Stage(T.pc);
  }

  lemma LoadRank(h: Heap, T: Thread, t: nat, clock: nat, a: Act)
    requires CanGo(h, T, a) && (T.pc == LoadNear || T.pc == LoadFar || T.pc == LoadReach || T.pc == LoadBack)
    ensures var o := Micro(h, T, t, clock, a); Rank(o.h, o.T) < Rank(h, T)
    ensures Fresh(h, T) ==> Micro(h, T, t, clock, a).T.pc != Oracle
  {
    if Fresh(h, T) {
      if T.pc == LoadFar { FarStep(h, T, t, clock, a); }
      if T.pc == LoadBack { BackStep(h, T, t, clock, a); }
    }
  }

  /** Alone, in a fresh pass, the test of the counter succeeds: the pop answers empty. */
  lemma CheckRank(h: Heap, T: Thread, t: nat, clock: nat, a: Act, k: Kind)
    requires CanGo(h, T, a) && T.pc == Check(k)
    ensures var o := Micro(h, T, t, clock, a); Rank(o.h, o.T) < Rank(h, T)
    ensures Fresh(h, T) || Unlinked(h, T) ==> Micro(h, T, t, clock, a).T.pc == Return(None)
  {
  }

  /** The pass that ends here goes back to the oracle only because of an unlink. */
  ghost predicate GoesBack(h: Heap, T: Thread, a: Act) {
    (T.pc == Target(KUnlink) && T.op.Push?) || (T.pc == Guard(KPop) && Unlinked(h, T) && T.far.word != Load(h, FarLoc(T)).word)
  }

  /**
   * Every step of a running call that nobody disturbs, with an oracle that names the far edge, brings its end nearer. And a pass
   * that began at the far edge ends the call, unless a push had to remove a buffer in it, or the removal of a buffer by a pop
   * has left another word in the link slot than it held before.
   */
  lemma RankFalls(h: Heap, T: Thread, t: nat, clock: nat, a: Act)
    requires CanGo(h, T, a)
    ensures var o := Micro(h, T, t, clock, a); Rank(o.h, o.T) < Rank(h, T)
    ensures (Fresh(h, T) || Unlinked(h, T)) && T.pc != Oracle && Micro(h, T, t, clock, a).T.pc == Oracle ==> GoesBack(h, T, a)
  {
    match T.pc
    case Oracle => OracleStep(h, T, t, clock, a);
    case LoadNear | LoadFar | LoadReach | LoadBack => LoadRank(h, T, t, clock, a);
    case Check(k) => CheckRank(h, T, t, clock, a, k);
    case Guard(k) => GuardRank(h, T, t, clock, a, k);
    case Target(k) => TargetRank(h, T, t, clock, a, k);
    case Return(_) =>
  }

  // ---------------------------------------------------------------- every run

  /** From run[..from] on only thread t has moved, always in one call, and each oracle's answer was the far edge. */
  ghost predicate Alone(s: State, run: seq<Sched>, t: nat, from: nat) {
    && from <= |run|
    && (|run| == from ||
          var p, x := Exec(s, run[..|run| - 1]), run[|run| - 1];
          && Alone(s, run[..|run| - 1], t, from)
          && x.tid == t && t < |p.th| && p.th[t].pc != Idle && Aimed(p.h, p.th[t], x.act))
  }

  lemma StepFalls(y: State, t: nat, a: Act)
    requires OFDeque.Inv(y) && CanStep(y, t, a) && Aimed(y.h, y.th[t], a) && y.th[t].pc != Idle
    ensures var z := Step(y, t, a); |z.th| == |y.th| && Rank(z.h, z.th[t]) < Rank(y.h, y.th[t])
  {
    assert CallOk(y, t);
    RankFalls(y.h, y.th[t], t, y.clock, a);
  }

  lemma {:induction false} AloneFalls(s: State, run: seq<Sched>, t: nat, from: nat)
    requires Init(s) && from <= |run| && Run(s, run) && Run(s, run[..from]) && Alone(s, run, t, from) && t < |Exec(s, run[..from]).th|
    ensures var y, z := Exec(s, run[..from]), Exec(s, run);
            t < |z.th| && |run| - from + Rank(z.h, z.th[t]) <= Rank(y.h, y.th[t])
    decreases |run|
  {
    if |run| == from {
      assert run[..from] == run;
    } else {
      var r, x := run[..|run| - 1], run[|run| - 1];
      assert r[..from] == run[..from];
      AloneFalls(s, r, t, from);
      RunInv(s, r);
      StepFalls(Exec(s, r), t, x.act);
    }
  }

  lemma RankBound(h: Heap, T: Thread)
    ensures Rank(h, T) <= 45 && (T.pc == Oracle ==> Rank(h, T) <= 30)
  {
  }

  /**
   * Obstruction-freedom, from every reachable state: a thread in a call that runs alone from then on, with an oracle that names
   * the far edge, makes at most 45 steps before its call returns. A call that begins alone takes at most 30.
   */
  lemma ObstructionFree(s: State, run: seq<Sched>, t: nat, from: nat)
    requires Init(s) && from <= |run| && Run(s, run) && Run(s, run[..from]) && Alone(s, run, t, from) && t < |Exec(s, run[..from]).th|
    ensures |run| - from <= 45
    ensures Exec(s, run[..from]).th[t].pc == Oracle ==> |run| - from <= 30
  {
    AloneFalls(s, run, t, from);
    RankBound(Exec(s, run[..from]).h, Exec(s, run[..from]).th[t]);
  }
}
