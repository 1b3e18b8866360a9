/**
 * When empty answers of OFDeque.hpp are honest: exactly when `casType` leaves no address of a buffer in the payload it does
 * not set. If it does leave one, a pop can answer empty although the deque holds a value all the time.
 */
module OFStale {
  import opened DequeSpec
  import opened OFHeap
  import opened OFMoves
  import opened OFMachine
  import opened OFInv
  import opened OFSteps
  import opened OFEdge
  import opened OFSearch
  import opened OFDeque
  import opened OFTidy
  import opened OFHints
  import opened OFOps

  // ---------------------------------------------------------------- what the operations of the run do to the slots

  /** LEFT below l, VALUE from l on, RIGHT from r on. */
  ghost predicate Band(h: Heap, b: int, l: int, r: int) {
    b in h.bufs && forall i :: 0 <= i < N ==> At(h.mem, b, i).typ == if i < l then LEFT else if i < r then VALUE else RIGHT
  }

  /** Sealed by a left operation, with a link to c. */
  ghost predicate Shut(h: Heap, b: int, c: int) {
    && b in h.bufs && Typ(h.mem, b, N - 2) == SEALED && IsLink(h.mem, b, N - 1, c)
    && forall i :: 0 <= i < N - 2 ==> At(h.mem, b, i).typ == LEFT
  }

  ghost predicate Kept(h: Heap, h': Heap, b: int) { forall i :: At(h'.mem, b, i) == At(h.mem, b, i) }

  function NewBuffer(S: Side, b: int, d: int, v: int): Mem {
    map i | 0 <= i < N :: Loc(d, i) := if i == NearLink(S) then Slot(VALUE, b, 0) else if i == NearValue(S) then Slot(VALUE, v, 0) else Slot(FarType(S), 0, 0)
  }

  lemma NewBufferPrepared(S: Side, b: int, d: int, v: int)
    ensures Prepared(NewBuffer(S, b, d, v), S, b, d, v)
  {
  }

  /** The slots after the two swaps of an operation that appends no buffer. */
  lemma SwappedAt(h: Heap, T: Thread, t: nat, k: Kind, word: int)
    requires k != KAppend && (k == KUnlink ==> T.i == FarValue(T.op.side))
    ensures forall b, i {:trigger At(Swapped(h, T, t, k, Go(word)).h.mem, b, i)} ::
              At(Swapped(h, T, t, k, Go(word)).h.mem, b, i) ==
              if Loc(b, i) == TargetLoc(T, k) then NewSlot(T, k, word)
              else if Loc(b, i) == GuardLoc(T, k) then Bumped(GuardSlot(T, k)) else At(h.mem, b, i)
  {
  }

  /** The slots after an append. */
  lemma AppendedAt(h: Heap, T: Thread, t: nat, d: int, nb: Mem)
    requires T.i == FarValue(T.op.side) && forall l :: l in nb <==> l.buf == d && 0 <= l.idx < N
    ensures forall b, i {:trigger At(Swapped(h, T, t, KAppend, Attach(d, nb)).h.mem, b, i)} ::
              At(Swapped(h, T, t, KAppend, Attach(d, nb)).h.mem, b, i) ==
              if b == d && 0 <= i < N then At(nb, b, i)
              else if Loc(b, i) == FarLoc(T) then NewSlot(T, KAppend, d)
              else if Loc(b, i) == NearLoc(T) then Bumped(T.near) else At(h.mem, b, i)
  {
  }

  lemma PushRight(h: Heap, T: Thread, t: nat, start: nat, b: int, l: int, r: int, v: int, word: int)
    requires Band(h, b, l, r) && 1 <= l <= r && 2 <= r <= N - 2
    ensures var T' := Aimed(h, T, Push(RightSide, v), b, r - 1, start); var h' := Swapped(h, T', t, KPush, Go(word)).h;
            CanSwap(h, T', KPush, Go(word)) && h'.bufs == h.bufs && Band(h', b, l, r + 1)
    ensures Found(h.mem, RightSide, b, b, r - 1)
  {
    FoundInside(h.mem, RightSide, b, r - 1);
    SwappedAt(h, Aimed(h, T, Push(RightSide, v), b, r - 1, start), t, KPush, word);
  }

  lemma AppendRight(h: Heap, T: Thread, t: nat, start: nat, a: int, b: int, l: int, v: int)
    requires Band(h, a, l, N - 1) && 1 <= l < N - 1 && h.bufs == {a} && a != b
    ensures var act := Attach(b, NewBuffer(RightSide, a, b, v));
            var T' := Aimed(h, T, Push(RightSide, v), a, N - 2, start); var h' := Swapped(h, T', t, KAppend, act).h;
            && CanSwap(h, T', KAppend, act) && h'.bufs == {a, b}
            && Band(h', a, l, N) && At(h'.mem, a, N - 1).word == b && Band(h', b, 0, 2) && At(h'.mem, b, 0).word == a
  {
    NewBufferPrepared(RightSide, a, b, v);
    AppendedAt(h, Aimed(h, T, Push(RightSide, v), a, N - 2, start), t, b, NewBuffer(RightSide, a, b, v));
  }

  lemma FullEdge(h: Heap, a: int, l: int)
    requires Band(h, a, l, N - 1) && 1 <= l < N - 1
    ensures Found(h.mem, RightSide, a, a, N - 2)
  {
    FoundInside(h.mem, RightSide, a, N - 2);
  }

  lemma PopLeft(h: Heap, T: Thread, t: nat, start: nat, b: int, l: int, word: int)
    requires Band(h, b, l, N) && 2 <= l <= N - 2
    ensures var T' := Aimed(h, T, Pop(LeftSide), b, l, start); var h' := Swapped(h, T', t, KPop, Go(word)).h;
            && CanSwap(h, T', KPop, Go(word)) && h'.bufs == h.bufs && SwapDebt(T', KPop, Go(word)) == Nothing
            && Band(h', b, l + 1, N) && At(h'.mem, b, N - 1) == At(h.mem, b, N - 1) && forall c :: c != b ==> Kept(h, h', c)
    ensures Found(h.mem, LeftSide, b, b, l)
  {
    FoundInside(h.mem, LeftSide, b, l);
    SwappedAt(h, Aimed(h, T, Pop(LeftSide), b, l, start), t, KPop, word);
  }

  lemma PopRight(h: Heap, T: Thread, t: nat, start: nat, a: int, b: int, word: int)
    requires Band(h, b, 1, 2) && Shut(h, a, b) && a != b
    ensures var T' := Aimed(h, T, Pop(RightSide), b, 1, start); var h' := Swapped(h, T', t, KPop, Go(word)).h;
            && CanSwap(h, T', KPop, Go(word)) && h'.bufs == h.bufs && SwapDebt(T', KPop, Go(word)) == Nothing
            && Band(h', b, 1, 1) && Kept(h, h', a)
    ensures Found(h.mem, RightSide, a, b, 1)
  {
    FoundInside(h.mem, RightSide, b, 1);
    FoundAtSeal(h.mem, RightSide, a, b, b, 1, N);
    SwappedAt(h, Aimed(h, T, Pop(RightSide), b, 1, start), t, KPop, word);
  }

  lemma AppendLeft(h: Heap, T: Thread, t: nat, start: nat, a: int, b: int, c: int, v: int)
    requires Band(h, b, 1, 1) && Shut(h, a, b) && h.bufs == {a, b} && a != b && c != a && c != b
    ensures var act := Attach(c, NewBuffer(LeftSide, b, c, v));
            var T' := Aimed(h, T, Push(LeftSide, v), b, 1, start); var h' := Swapped(h, T', t, KAppend, act).h;
            && CanSwap(h, T', KAppend, act) && h'.bufs == {a, b, c}
            && Band(h', b, 0, 1) && At(h'.mem, b, 0).word == c
            && Band(h', c, N - 2, N) && At(h'.mem, c, N - 1).word == b && Kept(h, h', a)
    ensures Found(h.mem, LeftSide, a, b, 1)
  {
    NewBufferPrepared(LeftSide, b, c, v);
    FoundBehindSeal(h.mem, LeftSide, a, b);
    AppendedAt(h, Aimed(h, T, Push(LeftSide, v), b, 1, start), t, c, NewBuffer(LeftSide, b, c, v));
  }

  /** A right push across the border from buffer c into buffer b. */
  lemma PushAcross(h: Heap, T: Thread, t: nat, start: nat, a: int, b: int, c: int, v: int, word: int)
    requires Band(h, c, N - 2, N) && At(h.mem, c, N - 1).word == b && Band(h, b, 0, 1) && At(h.mem, b, 0).word == c
    requires a != b && b != c && c != a
    ensures var T1 := Aimed(h, T, Push(RightSide, v), c, N - 2, start); var T2 := Crossing(h, T1);
            var h' := Swapped(h, T2, t, KStraddle, Go(word)).h;
            && T1.pc == LoadReach && CanSwap(h, T2, KStraddle, Go(word)) && h'.bufs == h.bufs && T2.far.word == b
            && Band(h', c, N - 2, N) && At(h'.mem, c, N - 1).word == b
            && Band(h', b, 0, 2) && At(h'.mem, b, 0).word == c && Kept(h, h', a)
    ensures Found(h.mem, RightSide, b, c, N - 2)
  {
    FoundBehind(h.mem, RightSide, b, c);
    SwappedAt(h, Crossing(h, Aimed(h, T, Push(RightSide, v), c, N - 2, start)), t, KStraddle, word);
  }

  /** A left pop at buffer b seals the empty buffer c before it. */
  lemma SealLeft(h: Heap, T: Thread, t: nat, start: nat, b: int, c: int, word: int)
    requires b != c && Band(h, b, 0, 2) && At(h.mem, b, 0).word == c && Band(h, c, N - 1, N) && At(h.mem, c, N - 1).word == b
    ensures var T1 := Aimed(h, T, Pop(LeftSide), b, 1, start); var o := Swapped(h, Crossing(h, T1), t, KSeal, Go(word));
            && T1.pc == LoadReach && CanSwap(h, Crossing(h, T1), KSeal, Go(word)) && o.h.bufs == h.bufs
            && o.T.pc == Guard(KUnlink) && o.T.op == Pop(LeftSide) && o.T.b == b && o.T.i == 1
            && o.T.near == At(o.h.mem, b, 1) && o.T.far == At(o.h.mem, b, 0)
            && Band(o.h, b, 0, 2) && Shut(o.h, c, b) && forall x :: x != b && x != c ==> Kept(h, o.h, x)
    ensures Found(h.mem, LeftSide, c, b, 1)
  {
    FoundBehind(h.mem, LeftSide, c, b);
    SwappedAt(h, Crossing(h, Aimed(h, T, Pop(LeftSide), b, 1, start)), t, KSeal, word);
  }

  /** Then it unlinks it and leaves a word in the link slot. */
  lemma UnlinkLeft(h: Heap, T: Thread, t: nat, b: int, word: int)
    requires T.pc == Guard(KUnlink) && T.op == Pop(LeftSide) && T.b == b && T.i == 1
    requires T.near == At(h.mem, b, 1) && T.far == At(h.mem, b, 0) && Band(h, b, 0, 2)
    ensures var o := Swapped(h, T, t, KUnlink, Go(word));
            && CanSwap(h, T, KUnlink, Go(word)) && o.h.bufs == h.bufs && o.T.op == T.op
            && Band(o.h, b, 1, 2) && At(o.h.mem, b, 0).word == word && forall x :: x != b ==> Kept(h, o.h, x)
  {
    SwappedAt(h, T, t, KUnlink, word);
  }

  lemma StillShut(h: Heap, h': Heap, b: int, c: int, d: int)
    requires Shut(h, b, c) && h'.bufs == h.bufs && b != d && forall x :: x != d ==> Kept(h, h', x)
    ensures Shut(h', b, c)
  {
    assert Kept(h, h', b);
  }

  lemma CanRemoveLeft(v: View, t: nat, hs: Hints, clock: nat, b: int, c: int, word: int)
    requires v.debt == Nothing && v.T.pc == Idle && hs.left.buf == c
    requires b != c && Band(v.h, b, 0, 2) && At(v.h.mem, b, 0).word == c && Band(v.h, c, N - 1, N) && At(v.h.mem, c, N - 1).word == b
    ensures CanRemove(v, t, hs, Pop(LeftSide), b, 1, clock, word)
  {
    SealLeft(v.h, v.T, t, clock + 1, b, c, word);
    var v1 := SwappedView(CrossedView(v, hs, Pop(LeftSide), b, 1, clock), t, KSeal, Go(word));
    UnlinkLeft(v1.h, v1.T, t, b, word);
  }

  lemma RemoveLeft(v: View, t: nat, hs: Hints, clock: nat, b: int, c: int, word: int)
    requires v.debt == Nothing && v.T.pc == Idle && hs.left.buf == c
    requires b != c && Band(v.h, b, 0, 2) && At(v.h.mem, b, 0).word == c && Band(v.h, c, N - 1, N) && At(v.h.mem, c, N - 1).word == b
    ensures var v' := RemovedView(v, t, hs, Pop(LeftSide), b, 1, clock, word);
            && v'.h.bufs == v.h.bufs && v'.debt == RenewBoth
            && Band(v'.h, b, 1, 2) && At(v'.h.mem, b, 0).word == word && Shut(v'.h, c, b)
            && forall x :: x != b && x != c ==> Kept(v.h, v'.h, x)
  {
    SealLeft(v.h, v.T, t, clock + 1, b, c, word);
    var v1 := SwappedView(CrossedView(v, hs, Pop(LeftSide), b, 1, clock), t, KSeal, Go(word));
    UnlinkLeft(v1.h, v1.T, t, b, word);
    var v2 := RemovedView(v, t, hs, Pop(LeftSide), b, 1, clock, word);
    StillShut(v1.h, v2.h, c, b, b);
    forall x | x != b && x != c ensures Kept(v.h, v2.h, x) { KeptTwice(v.h, v1.h, v2.h, x); }
  }

  lemma KeptTwice(h: Heap, h': Heap, h'': Heap, x: int)
    requires Kept(h, h', x) && Kept(h', h'', x)
    ensures Kept(h, h'', x)
  {
  }

  // ---------------------------------------------------------------- the run

  /** Thread t is idle and owes nothing. */
  ghost predicate Ready(w: World, t: nat) { t < |w.z.th| == |w.debts| && w.z.th[t].pc == Idle && w.debts[t] == Nothing }

  /** Thread 0 has not begun, thread 2 is between two calls, and the hints lie on these buffers. */
  ghost predicate Staged(s: State, ms: seq<Move>, p: Pool, l: int, r: int) { Reached(s, ms, p) && Stage(WorldOf(s, ms), l, r) }

  ghost predicate Stage(w: World, l: int, r: int) { Ready(w, 0) && Ready(w, 2) && w.hints.left.buf == l && w.hints.right.buf == r }

  ghost predicate Idle13(w: World) { Ready(w, 1) && Ready(w, 3) }

  /** One push or pop of thread 2 inside a buffer, from its call to its return. */
  lemma Whole(s: State, ms: seq<Move>, p: Pool, op: Op, b: int, i: int, k: Kind, word: int, from: nat) returns (ms': seq<Move>)
    requires Reached(s, ms, p) && word in p.words && Ready(WorldOf(s, ms), 2) && (k == KPush || k == KPop)
    requires var w := WorldOf(s, ms);
             && b in w.z.h.bufs && 0 <= i < N && 0 <= i + Dir(op.side) < N && Found(w.z.h.mem, op.side, Of(w.hints, op.side).buf, b, i)
             && var T' := Aimed(w.z.h, w.z.th[2], op, b, i, |w.run| + 1);
                CanSwap(w.z.h, T', k, Go(word)) && SwapDebt(T', k, Go(word)) == Nothing
    ensures Reached(s, ms', p) && Onward(s, ms, ms', from)
    ensures var w, w' := WorldOf(s, ms), WorldOf(s, ms');
            && Others(w, w', 2) && Ready(w', 2) && w'.hints == w.hints
            && w'.z.h == Swapped(w.z.h, Aimed(w.z.h, w.z.th[2], op, b, i, |w.run| + 1), 2, k, Go(word)).h
  {
    var r := Inside(s, ms, p, 2, op, b, i, k, word, Go(word), from);
    ms' := Finish(s, r, p, 2, from);
    OnwardTwice(s, ms, r, ms', from);
  }

  /** Only thread t has moved. */
  ghost predicate Others(w: World, w': World, t: nat) {
    && t < |w.z.th| == |w'.z.th| == |w.debts| == |w'.debts|
    && forall u :: 0 <= u < |w.z.th| && u != t ==> w'.z.th[u] == w.z.th[u] && w'.debts[u] == w.debts[u]
  }

  lemma OnwardTwice(s: State, r0: seq<Move>, r1: seq<Move>, r2: seq<Move>, from: nat)
    requires Onward(s, r0, r1, from) && Onward(s, r1, r2, from) && Abs(WorldOf(s, r2).z.h) == Abs(WorldOf(s, r1).z.h)
    ensures Onward(s, r0, r2, from)
  {
  }

  /** The first buffer, with l..r filled, before any other. */
  ghost predicate Filling(w: World, a: int, l: int, r: int) {
    Idle13(w) && Band(w.z.h, a, l, r) && 1 <= l <= r && 2 <= r <= N - 1 && w.z.h.bufs == {a}
  }

  lemma FillOne(s: State, ms: seq<Move>, p: Pool, a: int, l: int, r: int, word: int) returns (ms': seq<Move>)
    requires Staged(s, ms, p, a, a) && Filling(WorldOf(s, ms), a, l, r) && r < N - 1 && word in p.words
    ensures Staged(s, ms', p, a, a) && Filling(WorldOf(s, ms'), a, l, r + 1)
  {
    var w := WorldOf(s, ms);
    CanFill(w, a, l, r, word);
    ms' := Whole(s, ms, p, Push(RightSide, 1), a, r - 1, KPush, word, 0);
    Filled1(w, WorldOf(s, ms'), a, l, r, word);
  }

  lemma CanFill(w: World, a: int, l: int, r: int, word: int)
    requires Filling(w, a, l, r) && Ready(w, 2) && w.hints.right.buf == a && r < N - 1
    ensures Found(w.z.h.mem, RightSide, a, a, r - 1)
    ensures var T' := Aimed(w.z.h, w.z.th[2], Push(RightSide, 1), a, r - 1, |w.run| + 1);
            CanSwap(w.z.h, T', KPush, Go(word)) && SwapDebt(T', KPush, Go(word)) == Nothing
  {
    PushRight(w.z.h, w.z.th[2], 2, |w.run| + 1, a, l, r, 1, word);
  }

  lemma Filled1(w: World, w': World, a: int, l: int, r: int, word: int)
    requires Filling(w, a, l, r) && Stage(w, a, a) && Ready(w', 2) && r < N - 1 && Others(w, w', 2) && w'.hints == w.hints
    requires w'.z.h == Swapped(w.z.h, Aimed(w.z.h, w.z.th[2], Push(RightSide, 1), a, r - 1, |w.run| + 1), 2, KPush, Go(word)).h
    ensures Filling(w', a, l, r + 1) && Stage(w', a, a)
  {
    PushRight(w.z.h, w.z.th[2], 2, |w.run| + 1, a, l, r, 1, word);
  }

  /** Right pushes fill the value slots of the first buffer. */
  lemma {:induction false} Fill(s: State, ms: seq<Move>, p: Pool, a: int, l: int, r: int, word: int) returns (ms': seq<Move>)
    requires Staged(s, ms, p, a, a) && Filling(WorldOf(s, ms), a, l, r) && word in p.words
    ensures Staged(s, ms', p, a, a) && Filling(WorldOf(s, ms'), a, l, N - 1)
    decreases N - r
  {
    if r == N - 1 {
      ms' := ms;
    } else {
      var m := FillOne(s, ms, p, a, l, r, word);
      ms' := Fill(s, m, p, a, l, r + 1, word);
    }
  }

  /** Two linked buffers: LEFT below l in the first, one value in the second. */
  ghost predicate Draining(w: World, a: int, b: int, l: int) {
    && Ready(w, 1) && a != b && w.z.h.bufs == {a, b} && 2 <= l <= N - 1
    && Band(w.z.h, a, l, N) && At(w.z.h.mem, a, N - 1).word == b && Band(w.z.h, b, 0, 2) && At(w.z.h.mem, b, 0).word == a
  }

  lemma DrainOne(s: State, ms: seq<Move>, p: Pool, a: int, b: int, l: int, word: int) returns (ms': seq<Move>)
    requires Staged(s, ms, p, a, a) && Draining(WorldOf(s, ms), a, b, l) && l < N - 1 && word in p.words
    ensures Staged(s, ms', p, a, a) && Draining(WorldOf(s, ms'), a, b, l + 1)
  {
    var w := WorldOf(s, ms);
    PopLeft(w.z.h, w.z.th[2], 2, |w.run| + 1, a, l, word);
    ms' := Whole(s, ms, p, Pop(LeftSide), a, l, KPop, word, 0);
    assert Kept(w.z.h, WorldOf(s, ms').z.h, b);
  }

  /** Left pops empty the first buffer again. */
  lemma {:induction false} Drain(s: State, ms: seq<Move>, p: Pool, a: int, b: int, l: int, word: int) returns (ms': seq<Move>)
    requires Staged(s, ms, p, a, a) && Draining(WorldOf(s, ms), a, b, l) && word in p.words
    ensures Staged(s, ms', p, a, a) && Draining(WorldOf(s, ms'), a, b, N - 1)
    decreases N - l
  {
    if l == N - 1 {
      ms' := ms;
    } else {
      var m := DrainOne(s, ms, p, a, b, l, word);
      ms' := Drain(s, m, p, a, b, l + 1, word);
    }
  }

  /** Thread 3 appends buffer b and is held up before it swings the right hint. */
  lemma Append(s: State, ms: seq<Move>, p: Pool, a: int, b: int, l: int, word: int) returns (ms': seq<Move>)
    requires Staged(s, ms, p, a, a) && Filling(WorldOf(s, ms), a, l, N - 1) && 2 <= l < N - 1
    requires word in p.words && b in p.addresses && a != b
    ensures Staged(s, ms', p, a, a) && Draining(WorldOf(s, ms'), a, b, l)
  {
    var w := WorldOf(s, ms);
    Appending(w, a, b, l);
    ms' := Inside(s, ms, p, 3, Push(RightSide, 2), a, N - 2, KAppend, word, Attach(b, NewBuffer(RightSide, a, b, 2)), 0);
    Appended(w, WorldOf(s, ms'), a, b, l);
  }

  /** The same seen on the worlds before and after. */
  lemma Appending(w: World, a: int, b: int, l: int)
    requires Filling(w, a, l, N - 1) && 2 <= l < N - 1 && a != b && 3 < |w.z.th| == |w.got| == |w.debts| && w.hints.right.buf == a
    ensures CanAim(ViewOf(w, 3), w.hints, Push(RightSide, 2), a, N - 2)
    ensures CanSwap(w.z.h, Aimed(w.z.h, w.z.th[3], Push(RightSide, 2), a, N - 2, |w.run| + 1), KAppend, Attach(b, NewBuffer(RightSide, a, b, 2)))
  {
    FullEdge(w.z.h, a, l);
    AppendRight(w.z.h, w.z.th[3], 3, |w.run| + 1, a, b, l, 2);
  }

  lemma Appended(w: World, w': World, a: int, b: int, l: int)
    requires Filling(w, a, l, N - 1) && 2 <= l < N - 1 && a != b && 3 < |w.z.th| == |w.got| == |w.debts|
    requires var act := Attach(b, NewBuffer(RightSide, a, b, 2));
             Moved(w, w', 3, SwappedView(AimedView(ViewOf(w, 3), w.hints, Push(RightSide, 2), a, N - 2, |w.run|), 3, KAppend, act))
    ensures Draining(w', a, b, l) && w'.hints == w.hints && forall u :: 0 <= u < 3 ==> w'.z.th[u] == w.z.th[u] && w'.debts[u] == w.debts[u]
  {
    AppendRight(w.z.h, w.z.th[3], 3, |w.run| + 1, a, b, l, 2);
  }

  /** The first buffer is out of the chain; l is where the LEFT slots of the second one end. */
  ghost predicate Removed(w: World, a: int, b: int, r: int) {
    |w.debts| > 1 && w.debts[1] == RenewBoth && a != b && w.z.h.bufs == {a, b} && Shut(w.z.h, a, b) && Band(w.z.h, b, 1, r)
  }

  /** Thread 1 seals and unlinks buffer a and is held up in `retire`. */
  lemma Removal(s: State, ms: seq<Move>, p: Pool, a: int, b: int, word: int) returns (ms': seq<Move>)
    requires Staged(s, ms, p, a, a) && Draining(WorldOf(s, ms), a, b, N - 1) && word in p.words
    ensures Staged(s, ms', p, a, a) && Removed(WorldOf(s, ms'), a, b, 2)
  {
    var w := WorldOf(s, ms);
    CanRemoveLeft(ViewOf(w, 1), 1, w.hints, |w.run|, b, a, word);
    ms' := Remove(s, ms, p, 1, Pop(LeftSide), b, 1, word, 0);
    RemovedStage(w, WorldOf(s, ms'), a, b, word);
  }

  lemma RemovedStage(w: World, w': World, a: int, b: int, word: int)
    requires Stage(w, a, a) && Draining(w, a, b, N - 1) && 3 < |w.z.th| == |w.got| == |w.debts|
    requires Moved(w, w', 1, RemovedView(ViewOf(w, 1), 1, w.hints, Pop(LeftSide), b, 1, |w.run|, word))
    ensures Stage(w', a, a) && Removed(w', a, b, 2)
  {
    RemoveLeft(ViewOf(w, 1), 1, w.hints, |w.run|, b, a, word);
  }

  /** The remaining value leaves on the right. */
  lemma Emptying(s: State, ms: seq<Move>, p: Pool, a: int, b: int, word: int) returns (ms': seq<Move>)
    requires Staged(s, ms, p, a, a) && Removed(WorldOf(s, ms), a, b, 2) && word in p.words
    ensures Staged(s, ms', p, a, a) && Removed(WorldOf(s, ms'), a, b, 1)
  {
    var w := WorldOf(s, ms);
    PopRight(w.z.h, w.z.th[2], 2, |w.run| + 1, a, b, word);
    ms' := Whole(s, ms, p, Pop(RightSide), b, 1, KPop, word, 0);
    assert Kept(w.z.h, WorldOf(s, ms').z.h, a);
  }

  /** Where the unlucky pop begins: buffer a is sealed and out of the chain, b is empty, and c on its left holds a value. */
  ghost predicate Trap(h: Heap, a: int, b: int, c: int) {
    && a != b && b != c && c != a && h.bufs == {a, b, c} && Shut(h, a, b)
    && Band(h, b, 0, 1) && At(h.mem, b, 0).word == c && Band(h, c, N - 2, N) && At(h.mem, c, N - 1).word == b
  }

  /** A left push comes to lie in a new buffer c. */
  lemma Setting(s: State, ms: seq<Move>, p: Pool, a: int, b: int, c: int, word: int) returns (ms': seq<Move>)
    requires Staged(s, ms, p, a, a) && Removed(WorldOf(s, ms), a, b, 1) && word in p.words && c in p.addresses && c != a && c != b
    ensures Staged(s, ms', p, c, a) && WorldOf(s, ms').debts[1] == RenewBoth && Trap(WorldOf(s, ms').z.h, a, b, c)
  {
    var w := WorldOf(s, ms);
    CanSet(w, a, b, c);
    var r1 := Inside(s, ms, p, 2, Push(LeftSide, 3), b, 1, KAppend, word, Attach(c, NewBuffer(LeftSide, b, c, 3)), 0);
    TrapSet(w, WorldOf(s, r1), a, b, c);
    SwingLeft(WorldOf(s, r1), 2, c);
    var r2 := Update(s, r1, p, 2, c, 0);
    ms' := Finish(s, r2, p, 2, 0);
  }

  /** The update of the left hint that thread t owes. */
  lemma SwingLeft(w: World, t: nat, c: int)
    requires t < |w.z.th| == |w.got| == |w.debts| && w.debts[t] == Swing(c) && w.z.th[t].op.side == LeftSide && w.got[t] == w.hints.left
    ensures May(w, Pay(t, c))
    ensures var w' := Next(w, Pay(t, c));
            && w'.z == w.z && w'.got == w.got && w'.debts == w.debts[t := Nothing]
            && w'.hints.left.buf == c && w'.hints.right == w.hints.right
  {
  }

  lemma CanSet(w: World, a: int, b: int, c: int)
    requires Removed(w, a, b, 1) && Stage(w, a, a) && |w.got| == |w.debts| && c != a && c != b
    ensures CanAim(ViewOf(w, 2), w.hints, Push(LeftSide, 3), b, 1)
    ensures CanSwap(w.z.h, Aimed(w.z.h, w.z.th[2], Push(LeftSide, 3), b, 1, |w.run| + 1), KAppend, Attach(c, NewBuffer(LeftSide, b, c, 3)))
  {
    AppendLeft(w.z.h, w.z.th[2], 2, |w.run| + 1, a, b, c, 3);
  }

  lemma TrapSet(w: World, w': World, a: int, b: int, c: int)
    requires Removed(w, a, b, 1) && Stage(w, a, a) && |w.got| == |w.debts| && c != a && c != b
    requires var act := Attach(c, NewBuffer(LeftSide, b, c, 3));
             Moved(w, w', 2, SwappedView(AimedView(ViewOf(w, 2), w.hints, Push(LeftSide, 3), b, 1, |w.run|), 2, KAppend, act))
    ensures Trap(w'.z.h, a, b, c) && Ready(w', 0) && |w'.debts| > 2 && w'.debts[1] == RenewBoth && w'.debts[2] == Swing(c)
    ensures w'.z.th[2].pc.Return? && w'.z.th[2].op == Push(LeftSide, 3) && w'.hints.right.buf == a && w'.got[2] == w'.hints.left
  {
    AppendLeft(w.z.h, w.z.th[2], 2, |w.run| + 1, a, b, c, 3);
  }

  lemma Something(s: State, ms: seq<Move>, b: int, j: int)
    requires Init(s) && Legal(s, ms) && b in WorldOf(s, ms).z.h.bufs && 1 <= j < N - 1 && At(WorldOf(s, ms).z.h.mem, b, j).typ == VALUE
    ensures Abs(WorldOf(s, ms).z.h) != []
  {
    var w := WorldOf(s, ms);
    LegalRun(s, ms);
    RunInv(s, w.run);
    ValueInChain(w.z.h, b, j);
    ValueMeansNonEmpty(w.z.h, b, j);
  }

  lemma BusyStart(s: State, run: seq<Sched>)
    requires Abs(Exec(s, run).h) != []
    ensures BusyRun(s, run, |run|)
  {
    assert run[..|run|] == run;
  }

  lemma BusyFrom(s: State, ms: seq<Move>, b: int, j: int)
    requires Init(s) && Legal(s, ms) && b in WorldOf(s, ms).z.h.bufs && 1 <= j < N - 1 && At(WorldOf(s, ms).z.h.mem, b, j).typ == VALUE
    ensures Busy(s, ms, |WorldOf(s, ms).run|) && Abs(WorldOf(s, ms).z.h) != []
  {
    Something(s, ms, b, j);
    LegalRun(s, ms);
    BusyStart(s, WorldOf(s, ms).run);
  }

  /** The pop has seen buffer a sealed and slot 1 of buffer b empty, and goes on to look at the back link of buffer b. */
  ghost predicate Waiting(h: Heap, T: Thread, a: int, b: int) {
    && T.pc == LoadBack && T.op == Pop(RightSide) && T.b == a && T.i == N - 2
    && T.near == At(h.mem, a, N - 2) && T.near.typ == SEALED && T.far.word == b && T.reach.typ == RIGHT
  }

  lemma Deception(v: View, clock: nat, hs: Hints, a: int, b: int, c: int, word: int)
    requires Trap(v.h, a, b, c) && v.T.pc == Idle && v.debt == Nothing && hs.right.buf == a
    ensures var acts := Aiming(Pop(RightSide), a, N - 2, word) + [Go(word)]; var v' := Play(v, 0, clock, hs, acts);
            && Playable(v, 0, clock, hs, acts) && v'.h == v.h && v'.debt == Nothing && Waiting(v.h, v'.T, a, b) && v'.T.start == clock + 1
  {
    FoundAtSeal(v.h.mem, RightSide, a, b, a, N - 2, 0);
    PlayCons(AimedView(v, hs, Pop(RightSide), a, N - 2, clock), 0, clock + 4, hs, Go(word), []);
    assert [Go(word)] + [] == [Go(word)];
    Approach(v, 0, clock, hs, Pop(RightSide), a, N - 2, word, [Go(word)]);
  }

  /** The right hint is still on buffer a. */
  lemma Deceived(s: State, ms: seq<Move>, p: Pool, a: int, b: int, c: int, word: int) returns (ms': seq<Move>)
    requires Staged(s, ms, p, c, a) && Trap(WorldOf(s, ms).z.h, a, b, c) && word in p.words
    ensures Reached(s, ms', p) && Busy(s, ms', |WorldOf(s, ms).run|) && Others(WorldOf(s, ms), WorldOf(s, ms'), 0)
    ensures WorldOf(s, ms').z.h == WorldOf(s, ms).z.h && WorldOf(s, ms').hints == WorldOf(s, ms).hints
    ensures var w := WorldOf(s, ms'); Waiting(w.z.h, w.z.th[0], a, b) && w.z.th[0].start == |WorldOf(s, ms).run| + 1 && w.debts[0] == Nothing
  {
    var w := WorldOf(s, ms);
    Deception(ViewOf(w, 0), |w.run|, w.hints, a, b, c, word);
    BusyFrom(s, ms, c, N - 2);
    ms' := Perform(s, ms, p, 0, Aiming(Pop(RightSide), a, N - 2, word) + [Go(word)], |w.run|);
  }

  lemma HintsFound(m: Mem, h: Heap, a: int, b: int, c: int)
    requires Trap(h, a, b, c) && m == h.mem
    ensures Active(m, LeftSide, c, c) && Active(m, RightSide, a, b)
  {
    assert Walks(m, LeftSide, c, c, 0);
    assert Walks(m, RightSide, b, b, 0);
    assert Walks(m, RightSide, a, b, 1);
  }

  /** Thread 1 finishes its `retire`: the right hint moves on to buffer b. */
  lemma Renewal(s: State, ms: seq<Move>, p: Pool, a: int, b: int, c: int, from: nat) returns (ms': seq<Move>)
    requires Reached(s, ms, p) && WorldOf(s, ms).debts[1] == RenewBoth && Trap(WorldOf(s, ms).z.h, a, b, c) && Busy(s, ms, from)
    requires WorldOf(s, ms).hints.left.buf == c && WorldOf(s, ms).hints.right.buf == a
    ensures Reached(s, ms', p) && Busy(s, ms', from)
    ensures WorldOf(s, ms').z == WorldOf(s, ms).z && WorldOf(s, ms').run == WorldOf(s, ms).run
    ensures WorldOf(s, ms').debts == WorldOf(s, ms).debts[1 := Nothing]
    ensures WorldOf(s, ms').hints.left.buf == c && WorldOf(s, ms').hints.right.buf == b
  {
    HintsFound(WorldOf(s, ms).z.h.mem, WorldOf(s, ms).z.h, a, b, c);
    var r := Update(s, ms, p, 1, c, from);
    ms' := Update(s, r, p, 1, b, from);
  }

  /** Two linked buffers with a value in the second. */
  ghost predicate Border(h: Heap, a: int, b: int, c: int, l: int) {
    && a != b && b != c && c != a && h.bufs == {a, b, c}
    && Band(h, c, l, N) && At(h.mem, c, N - 1).word == b && Band(h, b, 0, 2) && At(h.mem, b, 0).word == c
  }

  /** Thread 2 pushes on the right, across the border. */
  lemma Across(s: State, ms: seq<Move>, p: Pool, a: int, b: int, c: int, word: int, from: nat) returns (ms': seq<Move>)
    requires Reached(s, ms, p) && Ready(WorldOf(s, ms), 2) && Trap(WorldOf(s, ms).z.h, a, b, c) && word in p.words
    requires WorldOf(s, ms).hints.right.buf == b
    ensures Reached(s, ms', p) && Others(WorldOf(s, ms), WorldOf(s, ms'), 2) && Onward(s, ms, ms', from)
    ensures var w, w' := WorldOf(s, ms), WorldOf(s, ms');
            && w'.hints == w.hints && Kept(w.z.h, w'.z.h, a) && Border(w'.z.h, a, b, c, N - 2)
            && w'.z.th[2].pc == Return(None) && w'.z.th[2].op.side == RightSide && w'.debts[2] == Swing(b)
  {
    var w := WorldOf(s, ms);
    PushAcross(w.z.h, w.z.th[2], 2, |w.run| + 1, a, b, c, 4, word);
    ms' := Straddle(s, ms, p, 2, Push(RightSide, 4), c, N - 2, word, from);
  }

  lemma Settled(s: State, ms: seq<Move>, p: Pool, b: int, from: nat) returns (ms': seq<Move>)
    requires Reached(s, ms, p) && Busy(s, ms, from)
    requires var w := WorldOf(s, ms); w.z.th[2].pc == Return(None) && w.z.th[2].op.side == RightSide && w.debts[2] == Swing(b)
    ensures Reached(s, ms', p) && Others(WorldOf(s, ms), WorldOf(s, ms'), 2) && Busy(s, ms', from)
    ensures Ready(WorldOf(s, ms'), 2) && WorldOf(s, ms').z.h == WorldOf(s, ms).z.h && WorldOf(s, ms').hints.left == WorldOf(s, ms).hints.left
  {
    BusyNow(s, ms, from);
    var r := Update(s, ms, p, 2, b, from);
    ms' := Finish(s, r, p, 2, from);
  }

  /** Then it pops on the left. */
  lemma Off(s: State, ms: seq<Move>, p: Pool, a: int, b: int, c: int, word: int, from: nat) returns (ms': seq<Move>)
    requires Reached(s, ms, p) && Ready(WorldOf(s, ms), 2) && Busy(s, ms, from) && word in p.words
    requires WorldOf(s, ms).hints.left.buf == c && Border(WorldOf(s, ms).z.h, a, b, c, N - 2)
    ensures Reached(s, ms', p) && Others(WorldOf(s, ms), WorldOf(s, ms'), 2) && Busy(s, ms', from) && Ready(WorldOf(s, ms'), 2)
    ensures WorldOf(s, ms').hints.left.buf == c && Border(WorldOf(s, ms').z.h, a, b, c, N - 1) && Kept(WorldOf(s, ms).z.h, WorldOf(s, ms').z.h, a)
  {
    var w := WorldOf(s, ms);
    PopLeft(w.z.h, w.z.th[2], 2, |w.run| + 1, c, N - 2, word);
    ms' := Whole(s, ms, p, Pop(LeftSide), c, N - 2, KPop, word, from);
    assert Kept(w.z.h, WorldOf(s, ms').z.h, b);
    StillThere(s, ms, ms', p, b, from);
  }

  lemma StillThere(s: State, ms: seq<Move>, ms': seq<Move>, p: Pool, b: int, from: nat)
    requires Reached(s, ms', p) && Onward(s, ms, ms', from) && Busy(s, ms, from)
    requires b in WorldOf(s, ms').z.h.bufs && At(WorldOf(s, ms').z.h.mem, b, 1).typ == VALUE
    ensures Busy(s, ms', from)
  {
    Something(s, ms', b, 1);
  }

  /** Then it removes buffer c, and leaves the stale word. */
  lemma Uncovered(s: State, ms: seq<Move>, p: Pool, a: int, b: int, c: int, word: int, from: nat) returns (ms': seq<Move>)
    requires Reached(s, ms, p) && Ready(WorldOf(s, ms), 2) && Busy(s, ms, from) && word in p.words
    requires WorldOf(s, ms).hints.left.buf == c && Border(WorldOf(s, ms).z.h, a, b, c, N - 1)
    ensures Reached(s, ms', p) && Others(WorldOf(s, ms), WorldOf(s, ms'), 2) && Busy(s, ms', from)
    ensures Kept(WorldOf(s, ms).z.h, WorldOf(s, ms').z.h, a) && At(WorldOf(s, ms').z.h.mem, b, 0).word == word
  {
    var w := WorldOf(s, ms);
    CanRemoveLeft(ViewOf(w, 2), 2, w.hints, |w.run|, b, c, word);
    ms' := Remove(s, ms, p, 2, Pop(LeftSide), b, 1, word, from);
    Bared(w, WorldOf(s, ms'), a, b, c, word);
    Something(s, ms', b, 1);
  }

  /** The same seen on the worlds before and after. */
  lemma Bared(w: World, w': World, a: int, b: int, c: int, word: int)
    requires Ready(w, 2) && w.hints.left.buf == c && Border(w.z.h, a, b, c, N - 1) && |w.got| == |w.debts|
    requires Moved(w, w', 2, RemovedView(ViewOf(w, 2), 2, w.hints, Pop(LeftSide), b, 1, |w.run|, word))
    ensures Others(w, w', 2) && Kept(w.z.h, w'.z.h, a) && At(w'.z.h.mem, b, 0).word == word && Band(w'.z.h, b, 1, 2)
  {
    RemoveLeft(ViewOf(w, 2), 2, w.hints, |w.run|, b, c, word);
  }

  lemma Conclusion(v: View, clock: nat, hs: Hints, a: int, b: int, word: int)
    requires v.debt == Nothing && Waiting(v.h, v.T, a, b) && At(v.h.mem, b, 0).word == a
    ensures var acts := [Go(word), Go(word)]; var v' := Play(v, 0, clock, hs, acts);
            && Playable(v, 0, clock, hs, acts) && v'.h == v.h && v'.T.pc == Return(None) && v'.T.op == v.T.op && v'.T.start == v.T.start
  {
    var fooled := Fooled(v.T, Load(v.h, BackLoc(v.T)));
    PlayCons(v.(T := v.T.(pc := Check(KSeal), fooled := fooled)), 0, clock + 1, hs, Go(word), []);
    PlayCons(v, 0, clock, hs, Go(word), [Go(word)]);
    assert [Go(word), Go(word)] == [Go(word)] + [Go(word)] && [Go(word)] + [] == [Go(word)];
  }

  /** The stale address makes the pop conclude that both buffers are empty. */
  lemma Concluded(s: State, ms: seq<Move>, p: Pool, a: int, b: int, word: int, from: nat) returns (ms': seq<Move>)
    requires Reached(s, ms, p) && word in p.words && Busy(s, ms, from) && WorldOf(s, ms).debts[0] == Nothing
    requires var w := WorldOf(s, ms); Waiting(w.z.h, w.z.th[0], a, b) && At(w.z.h.mem, b, 0).word == a
    ensures Reached(s, ms', p) && Busy(s, ms', from)
    ensures var T, T' := WorldOf(s, ms).z.th[0], WorldOf(s, ms').z.th[0]; T'.pc == Return(None) && T'.op == T.op && T'.start == T.start
  {
    var w := WorldOf(s, ms);
    Conclusion(ViewOf(w, 0), |w.run|, w.hints, a, b, word);
    BusyNow(s, ms, from);
    ms' := Perform(s, ms, p, 0, [Go(word), Go(word)], from);
  }

  /** The whole interlude, while the pop of thread 0 waits. */
  lemma Meanwhile(s: State, ms: seq<Move>, p: Pool, a: int, b: int, c: int, word: int, from: nat) returns (ms': seq<Move>)
    requires Reached(s, ms, p) && WorldOf(s, ms).debts[1] == RenewBoth && Trap(WorldOf(s, ms).z.h, a, b, c) && Busy(s, ms, from)
    requires WorldOf(s, ms).hints.left.buf == c && WorldOf(s, ms).hints.right.buf == a && Ready(WorldOf(s, ms), 2) && word in p.words
    ensures Reached(s, ms', p) && Busy(s, ms', from)
    ensures var w, w' := WorldOf(s, ms), WorldOf(s, ms');
            w'.z.th[0] == w.z.th[0] && w'.debts[0] == w.debts[0] && Kept(w.z.h, w'.z.h, a) && At(w'.z.h.mem, b, 0).word == word
  {
    var r1 := Renewal(s, ms, p, a, b, c, from);
    var r2 := Across(s, r1, p, a, b, c, word, from);
    Something(s, r2, b, 1);
    var r3 := Settled(s, r2, p, b, from);
    var r4 := Off(s, r3, p, a, b, c, word, from);
    ms' := Uncovered(s, r4, p, a, b, c, word, from);
  }

  /** Four idle threads and one buffer. */
  lemma Beginning(p: Pool, a: int) returns (s: State)
    requires a in p.addresses
    ensures Staged(s, [], p, a, a) && Filling(WorldOf(s, []), a, N / 2, N / 2)
  {
    var T := Thread(Pop(LeftSide), Idle, 0, 0, Slot(LEFT, 0, 0), Slot(LEFT, 0, 0), Slot(LEFT, 0, 0), 0, None, false);
    var m: Mem := map i | 0 <= i < N :: Loc(a, i) := Slot(if i < N / 2 then LEFT else RIGHT, 0, 0);
    s := State(Heap(m, {a}, map[a := 0], map[0 := a], 0, 0), [T, T, T, T], [], [], [], 0, 0);
    assert Filled(m, a, N / 2);
  }

  /** Every empty answer that is about to be given has an instant inside its call at which the deque was empty. */
  ghost predicate Honest(s: State, run: seq<Sched>) {
    forall t :: 0 <= t < |Exec(s, run).th| && Exec(s, run).th[t].op.Pop? && Exec(s, run).th[t].pc == Return(None) ==>
      exists k {:trigger run[..k]} :: InvokedAt(s, run, t) <= k <= |run| && Abs(Exec(s, run[..k]).h) == []
  }

  /**
   * If the word that `casType` leaves may be the address of a buffer, a pop can answer empty although the deque held a
   * value at every instant of its call. Each answer of the oracle in this run is that of `findEdge`, whatever the local hints.
   */
  lemma EmptyNotHonest(p: Pool, a: int, b: int, c: int) returns (s: State, ms: seq<Move>)
    requires a in p.addresses && b in p.addresses && c in p.addresses && a != b && b != c && c != a && a in p.words
    ensures Init(s) && Legal(s, ms) && Using(s, WorldOf(s, ms).run, p) && !Honest(s, WorldOf(s, ms).run)
  {
    s := Beginning(p, a);
    var r1 := Fill(s, [], p, a, N / 2, N / 2, a);
    var r2 := Append(s, r1, p, a, b, N / 2, a);
    var r3 := Drain(s, r2, p, a, b, N / 2, a);
    var r4 := Removal(s, r3, p, a, b, a);
    var r5 := Emptying(s, r4, p, a, b, a);
    var r6 := Setting(s, r5, p, a, b, c, a);
    ms := Unlucky(s, r6, p, a, b, c);
  }

  lemma NotHonest(s: State, run: seq<Sched>, t: nat, from: nat)
    requires Init(s) && Run(s, run) && BusyRun(s, run, from) && t < |Exec(s, run).th|
    requires var T := Exec(s, run).th[t]; T.op.Pop? && T.pc == Return(None) && T.start == from + 1
    ensures !Honest(s, run)
  {
    StartIs(s, run, t);
  }

  /** The interlude and the answer. */
  lemma Unlucky(s: State, r6: seq<Move>, p: Pool, a: int, b: int, c: int) returns (ms: seq<Move>)
    requires Staged(s, r6, p, c, a) && WorldOf(s, r6).debts[1] == RenewBoth && Trap(WorldOf(s, r6).z.h, a, b, c) && a in p.words
    ensures Reached(s, ms, p) && !Honest(s, WorldOf(s, ms).run)
  {
    var r7 := Deceived(s, r6, p, a, b, c, a);
    var from := |WorldOf(s, r6).run|;
    var r8 := Meanwhile(s, r7, p, a, b, c, a, from);
    ms := Concluded(s, r8, p, a, b, a, from);
    LegalRun(s, ms);
    NotHonest(s, WorldOf(s, ms).run, 0, from);
  }

  /** Words that are no addresses: the theorem about single answers applies to all of them. */
  lemma TidyHonest(s: State, run: seq<Sched>, p: Pool)
    requires Init(s) && Run(s, run) && Using(s, run, p) && Apart(p)
    ensures Honest(s, run)
  {
    NeverFooled(s, run, p);
    forall t | 0 <= t < |Exec(s, run).th| && Exec(s, run).th[t].op.Pop? && Exec(s, run).th[t].pc == Return(None)
      ensures exists k {:trigger run[..k]} :: InvokedAt(s, run, t) <= k <= |run| && Abs(Exec(s, run[..k]).h) == []
    {
      var k := HonestEmpty(s, run, t);
      assert Abs(Exec(s, run[..k]).h) == [];
    }
  }

  ghost predicate AlwaysHonest(p: Pool) {
    forall s, ms {:trigger Legal(s, ms)} :: Init(s) && Legal(s, ms) && Using(s, WorldOf(s, ms).run, p) ==> Honest(s, WorldOf(s, ms).run)
  }

  /**
   * Honest empty, exactly: with room for three buffers, all empty answers of all runs are honest if and only if no word that
   * `casType` may leave is an address that a buffer may have.
   */
  lemma HonestIff(p: Pool)
    requires exists a, b, c :: a in p.addresses && b in p.addresses && c in p.addresses && a != b && b != c && c != a
    ensures AlwaysHonest(p) <==> Apart(p)
  {
    if Apart(p) {
      forall s, ms {:trigger Legal(s, ms)} | Init(s) && Legal(s, ms) && Using(s, WorldOf(s, ms).run, p) ensures Honest(s, WorldOf(s, ms).run) {
        LegalRun(s, ms);
        TidyHonest(s, WorldOf(s, ms).run, p);
      }
    } else {
      var a :| a in p.addresses && a in p.words;
      var x, y, z :| x in p.addresses && y in p.addresses && z in p.addresses && x != y && y != z && z != x;
      var b := if a == x then y else x;
      var c := if a == z || b == z then y else z;
      var s, ms := EmptyNotHonest(p, a, b, c);
    }
  }
}
