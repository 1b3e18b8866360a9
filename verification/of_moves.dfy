/** What each kind of successful compare-and-swap of OFDeque.hpp does to the chain and to the deque it stands for. */
module OFMoves {
  import opened DequeSpec
  import opened OFHeap

  function Put(h: Heap, l: Loc, s: Slot): Heap { h.(mem := h.mem[l := s]) }

  // ---------------------------------------------------------------- contents around one slot

  function Before(h: Heap, p: int, j: int): seq<int>
    requires p in h.at
  {
    Contents(h.mem, h.at, h.lo, p - 1) + Segment(h.mem, h.at[p], 1, j)
  }

  function After(h: Heap, p: int, j: int): seq<int>
    requires p in h.at
  {
    Segment(h.mem, h.at[p], j + 1, N - 1) + Contents(h.mem, h.at, p + 1, h.hi)
  }

  lemma AbsAround(h: Heap, p: int, j: int)
    requires Positions(h) && h.lo <= p <= h.hi && 1 <= j < N - 1
    ensures Abs(h) == Before(h, p, j) + Item(At(h.mem, h.at[p], j)) + After(h, p, j)
  {
    ContentsSplit(h.mem, h.at, h.lo, p, h.hi);
    SegmentSplit(h.mem, h.at[p], 1, j, N - 1);
    Regroup(Contents(h.mem, h.at, h.lo, p - 1), Segment(h.mem, h.at[p], 1, j), Item(At(h.mem, h.at[p], j)),
            Segment(h.mem, h.at[p], j + 1, N - 1), Contents(h.mem, h.at, p + 1, h.hi));
  }

  lemma Regroup(a: seq<int>, l: seq<int>, i: seq<int>, r: seq<int>, z: seq<int>)
    ensures a + ((l + (i + r)) + z) == (a + l) + i + (r + z)
  {
  }

  /** A change of slot j of the buffer at place p leaves the contents before and after it alone. */
  lemma AroundSame(h: Heap, p: int, j: int, s: Slot)
    requires Positions(h) && h.lo <= p <= h.hi && 1 <= j < N - 1
    ensures var h' := Put(h, Loc(h.at[p], j), s); Before(h', p, j) == Before(h, p, j) && After(h', p, j) == After(h, p, j)
  {
    var b := h.at[p];
    var h' := Put(h, Loc(b, j), s);
    ContentsSame(h.mem, h'.mem, h.at, h.at, h.lo, p - 1);
    ContentsSame(h.mem, h'.mem, h.at, h.at, p + 1, h.hi);
    SegmentSame(h.mem, h'.mem, b, b, 1, j);
    SegmentSame(h.mem, h'.mem, b, b, j + 1, N - 1);
  }

  lemma AbsPut(h: Heap, p: int, j: int, s: Slot)
    requires Positions(h) && h.lo <= p <= h.hi && 1 <= j < N - 1
    ensures Abs(h) == Before(h, p, j) + Item(At(h.mem, h.at[p], j)) + After(h, p, j)
    ensures Abs(Put(h, Loc(h.at[p], j), s)) == Before(h, p, j) + Item(s) + After(h, p, j)
  {
    var b := h.at[p];
    var h' := Put(h, Loc(b, j), s);
    AbsAround(h, p, j);
    AbsAround(h', p, j);
    AroundSame(h, p, j, s);
  }

  lemma NothingBeyond(h: Heap, S: Side, p: int, j: int)
    requires WF(h) && p == End(h, S) && 1 <= j < N - 1
    requires Typ(h.mem, h.at[p], j + Dir(S)) == FarType(S)
    ensures S == RightSide ==> After(h, p, j) == []
    ensures S == LeftSide ==> Before(h, p, j) == []
  {
    var b := h.at[p];
    assert NodeOk(h, b);
    FarAll(h.mem, S, b, j + Dir(S));
    if S == RightSide {
      SegmentEmpty(h.mem, b, j + 1, N - 1);
    } else {
      SegmentEmpty(h.mem, b, 1, j);
    }
  }

  /** With nothing beyond it, a value stands at the end. */
  lemma EndOfAll(S: Side, before: seq<int>, after: seq<int>, v: int)
    requires (S == RightSide ==> after == []) && (S == LeftSide ==> before == [])
    ensures before + [v] + after == Add(S, before + [] + after, v)
  {
  }

  /** Slots of the far type reach to the link slot, so the buffer is the last one on that side. */
  lemma FarTypeAtEnd(h: Heap, S: Side, b: int, j: int)
    requires WF(h) && b in h.pos && 0 <= j < N && Typ(h.mem, b, j) == FarType(S)
    ensures h.pos[b] == End(h, S) && Typ(h.mem, b, FarLink(S)) == FarType(S)
  {
    assert NodeOk(h, b);
    FarAll(h.mem, S, b, j);
  }

  // ---------------------------------------------------------------- guard: only a counter moves

  /** A change of one slot that is neither a link nor a seal, before or after. */
  ghost predicate PlainPut(h: Heap, l: Loc, s: Slot) {
    && l.buf in h.bufs && 0 <= l.idx < N
    && (l.idx == 0 || l.idx == N - 1 ==> s.typ == At(h.mem, l.buf, l.idx).typ && s.word == At(h.mem, l.buf, l.idx).word)
    && (s.typ == SEALED <==> At(h.mem, l.buf, l.idx).typ == SEALED)
  }

  lemma LinkFrame(h: Heap, l: Loc, s: Slot, S: Side, b: int)
    requires Positions(h) && b in h.bufs && PlainPut(h, l, s) && LinkOk(h, S, b)
    ensures LinkOk(Put(h, l, s), S, b)
  {
  }

  lemma KeepChain(h: Heap, l: Loc, s: Slot)
    requires WF(h) && PlainPut(h, l, s) && BufferOk(Put(h, l, s).mem, l.buf)
    ensures WF(Put(h, l, s))
  {
    var h' := Put(h, l, s);
    forall b | b in h.bufs ensures NodeOk(h', b) {
      assert NodeOk(h, b);
      LinkFrame(h, l, s, LeftSide, b);
      LinkFrame(h, l, s, RightSide, b);
      if b != l.buf {
        BufferFrame(h.mem, h'.mem, b);
      }
    }
  }

  lemma BufferFrame(m: Mem, m': Mem, b: int)
    requires BufferOk(m, b)
    requires forall i :: 0 <= i < N ==> Loc(b, i) in m' && Typ(m', b, i) == Typ(m, b, i)
    ensures BufferOk(m', b)
  {
    forall i | 0 <= i < N - 1 ensures PairOk(m', b, i) { assert PairOk(m, b, i); }
  }

  lemma BumpMove(h: Heap, l: Loc, s: Slot)
    requires WF(h) && l.buf in h.bufs && 0 <= l.idx < N
    requires s.typ == At(h.mem, l.buf, l.idx).typ && s.word == At(h.mem, l.buf, l.idx).word
    ensures WF(Put(h, l, s)) && Abs(Put(h, l, s)) == Abs(h)
  {
    var h' := Put(h, l, s);
    assert NodeOk(h, l.buf);
    BufferFrame(h.mem, h'.mem, l.buf);
    KeepChain(h, l, s);
    ContentsSame(h.mem, h'.mem, h.at, h.at, h.lo, h.hi);
  }

  // ---------------------------------------------------------------- push into a value slot

  lemma PushShape(m: Mem, S: Side, b: int, j: int, s: Slot)
    requires BufferOk(m, b) && 1 <= j < N - 1 && s.typ == VALUE
    requires Typ(m, b, j) == FarType(S)
    requires Typ(m, b, j - Dir(S)) != FarType(S) && Typ(m, b, j - Dir(S)) != SEALED
    ensures BufferOk(m[Loc(b, j) := s], b)
  {
    var m' := m[Loc(b, j) := s];
    forall i | 0 <= i < N - 1 ensures PairOk(m', b, i) { assert PairOk(m, b, i); }
    assert PairOk(m, b, j) && PairOk(m, b, j - 1);
  }

  lemma PushInChain(h: Heap, S: Side, b: int, j: int, s: Slot)
    requires WF(h) && b in h.bufs && 1 <= j < N - 1 && s.typ == VALUE
    requires Typ(h.mem, b, j) == FarType(S)
    requires Typ(h.mem, b, j - Dir(S)) != FarType(S) && Typ(h.mem, b, j - Dir(S)) != SEALED
    ensures WF(Put(h, Loc(b, j), s)) && b in h.pos
  {
    assert NodeOk(h, b);
    PushShape(h.mem, S, b, j, s);
    FarAll(h.mem, S, b, j);
    if Typ(h.mem, b, NearValue(S)) == SEALED {
      FarAll(h.mem, S, b, NearValue(S) + Dir(S));
    }
    KeepChain(h, Loc(b, j), s);
  }

  lemma PushMove(h: Heap, S: Side, b: int, j: int, s: Slot)
    requires WF(h) && b in h.bufs && 1 <= j < N - 1 && s.typ == VALUE
    requires Typ(h.mem, b, j) == FarType(S)
    requires Typ(h.mem, b, j - Dir(S)) != FarType(S) && Typ(h.mem, b, j - Dir(S)) != SEALED
    ensures WF(Put(h, Loc(b, j), s)) && Abs(Put(h, Loc(b, j), s)) == Add(S, Abs(h), s.word)
  {
    PushInChain(h, S, b, j, s);
    assert Typ(h.mem, b, j + Dir(S)) == FarType(S) by {
      assert NodeOk(h, b);
      FarAll(h.mem, S, b, j);
    }
    FarTypeAtEnd(h, S, b, j);
    AbsPut(h, h.pos[b], j, s);
    NothingBeyond(h, S, h.pos[b], j);
    EndOfAll(S, Before(h, h.pos[b], j), After(h, h.pos[b], j), s.word);
  }

  // ---------------------------------------------------------------- pop from a value slot

  lemma PopShape(m: Mem, S: Side, b: int, j: int, s: Slot)
    requires BufferOk(m, b) && 1 <= j < N - 1 && s.typ == FarType(S)
    requires Typ(m, b, j) == VALUE && Typ(m, b, j + Dir(S)) == FarType(S)
    ensures BufferOk(m[Loc(b, j) := s], b)
  {
    var m' := m[Loc(b, j) := s];
    forall i | 0 <= i < N - 1 ensures PairOk(m', b, i) { assert PairOk(m, b, i); }
    assert PairOk(m, b, j) && PairOk(m, b, j - 1);
  }

  /** A retired buffer holds no value. */
  lemma ValueInChain(h: Heap, b: int, j: int)
    requires WF(h) && b in h.bufs && 1 <= j < N - 1 && Typ(h.mem, b, j) == VALUE
    ensures b in h.pos
  {
    assert NodeOk(h, b);
    if Typ(h.mem, b, 1) == SEALED { FarAll(h.mem, RightSide, b, 2); }
    if Typ(h.mem, b, N - 2) == SEALED { FarAll(h.mem, LeftSide, b, N - 3); }
  }

  lemma PopInChain(h: Heap, S: Side, b: int, j: int, s: Slot)
    requires WF(h) && b in h.bufs && 1 <= j < N - 1 && s.typ == FarType(S)
    requires Typ(h.mem, b, j) == VALUE && Typ(h.mem, b, j + Dir(S)) == FarType(S)
    ensures WF(Put(h, Loc(b, j), s)) && b in h.pos
  {
    assert NodeOk(h, b);
    PopShape(h.mem, S, b, j, s);
    ValueInChain(h, b, j);
    KeepChain(h, Loc(b, j), s);
  }

  lemma PopMove(h: Heap, S: Side, b: int, j: int, s: Slot)
    requires WF(h) && b in h.bufs && 1 <= j < N - 1 && s.typ == FarType(S)
    requires Typ(h.mem, b, j) == VALUE && Typ(h.mem, b, j + Dir(S)) == FarType(S)
    ensures WF(Put(h, Loc(b, j), s)) && Abs(h) == Add(S, Abs(Put(h, Loc(b, j), s)), At(h.mem, b, j).word)
  {
    PopInChain(h, S, b, j, s);
    FarTypeAtEnd(h, S, b, j + Dir(S));
    AbsPut(h, h.pos[b], j, s);
    NothingBeyond(h, S, h.pos[b], j);
    EndOfAll(S, Before(h, h.pos[b], j), After(h, h.pos[b], j), At(h.mem, b, j).word);
  }

  // ---------------------------------------------------------------- append a buffer

  /** The private buffer prepared by a push: a back link, the value, and far-typed slots with any contents. */
  ghost predicate Prepared(nb: Mem, S: Side, b: int, d: int, v: int) {
    && (forall l :: l in nb <==> l.buf == d && 0 <= l.idx < N)
    && IsLink(nb, d, NearLink(S), b)
    && IsLink(nb, d, NearValue(S), v)
    && (forall i :: 0 <= i < N && i != NearLink(S) && i != NearValue(S) ==> Typ(nb, d, i) == FarType(S))
  }

  function Grow(h: Heap, S: Side, b: int, d: int, s: Slot, nb: Mem): Heap {
    var p := End(h, S) + Dir(S);
    Heap(h.mem[Loc(b, FarLink(S)) := s] + nb, h.bufs + {d}, h.pos[d := p], h.at[p := d],
         if S == LeftSide then p else h.lo, if S == LeftSide then h.hi else p)
  }

  lemma PreparedOk(nb: Mem, S: Side, b: int, d: int, v: int)
    requires Prepared(nb, S, b, d, v)
    ensures BufferOk(nb, d) && Segment(nb, d, 1, N - 1) == [v]
  {
    forall i | 0 <= i < N - 1 ensures PairOk(nb, d, i) {}
    var k := NearValue(S);
    SegmentSplit(nb, d, 1, k, N - 1);
    SegmentSplit(nb, d, k, k + 1, N - 1);
    SegmentEmpty(nb, d, 1, k);
    SegmentEmpty(nb, d, k + 1, N - 1);
  }

  ghost predicate CanAppend(h: Heap, S: Side, b: int, d: int, v: int, s: Slot, nb: Mem) {
    && WF(h) && b in h.bufs && d !in h.bufs
    && Typ(h.mem, b, FarLink(S)) == FarType(S) && Typ(h.mem, b, FarValue(S)) != FarType(S)
    && s.typ == VALUE && s.word == d
    && Prepared(nb, S, b, d, v)
  }

  lemma AppendAtEnd(h: Heap, S: Side, b: int, d: int, v: int, s: Slot, nb: Mem)
    requires CanAppend(h, S, b, d, v, s, nb)
    ensures b in h.pos && h.pos[b] == End(h, S)
    ensures Typ(h.mem, b, FarValue(S)) != SEALED
  {
    assert NodeOk(h, b);
    if Typ(h.mem, b, NearValue(S)) == SEALED { FarAll(h.mem, S, b, NearValue(S) + Dir(S)); }
    FarTypeAtEnd(h, S, b, FarLink(S));
  }

  lemma GrowAt(h: Heap, S: Side, b: int, d: int, v: int, s: Slot, nb: Mem, c: int, i: int)
    requires CanAppend(h, S, b, d, v, s, nb) && 0 <= i < N
    ensures var m := Grow(h, S, b, d, s, nb).mem;
            At(m, c, i) == if c == d then At(nb, d, i) else if c == b && i == FarLink(S) then s else At(h.mem, c, i)
  {
  }

  lemma AppendBuffer(h: Heap, S: Side, b: int, d: int, v: int, s: Slot, nb: Mem, a: int)
    requires CanAppend(h, S, b, d, v, s, nb) && a in h.bufs
    ensures BufferOk(Grow(h, S, b, d, s, nb).mem, a)
  {
    var h' := Grow(h, S, b, d, s, nb);
    assert NodeOk(h, a);
    AppendAtEnd(h, S, b, d, v, s, nb);
    forall i | 0 <= i < N ensures At(h'.mem, a, i) == if a == b && i == FarLink(S) then s else At(h.mem, a, i) {
      GrowAt(h, S, b, d, v, s, nb, a, i);
    }
    forall i | 0 <= i < N - 1 ensures PairOk(h'.mem, a, i) { assert PairOk(h.mem, a, i); }
  }

  lemma AppendLink(h: Heap, S: Side, b: int, d: int, v: int, s: Slot, nb: Mem, a: int, T: Side)
    requires CanAppend(h, S, b, d, v, s, nb) && a in h.bufs
    ensures LinkOk(Grow(h, S, b, d, s, nb), T, a)
  {
    AppendAtEnd(h, S, b, d, v, s, nb);
    assert NodeOk(h, a);
    assert LinkOk(h, T, a);
    GrowAt(h, S, b, d, v, s, nb, a, FarLink(T));
    GrowAt(h, S, b, d, v, s, nb, a, FarValue(T));
    GrowAt(h, S, b, d, v, s, nb, At(h.mem, a, FarLink(T)).word, NearLink(T));
    GrowAt(h, S, b, d, v, s, nb, At(h.mem, a, FarLink(T)).word, NearValue(T));
    GrowAt(h, S, b, d, v, s, nb, d, NearValue(S));
  }

  lemma AppendNode(h: Heap, S: Side, b: int, d: int, v: int, s: Slot, nb: Mem, a: int)
    requires CanAppend(h, S, b, d, v, s, nb) && a in h.bufs
    ensures NodeOk(Grow(h, S, b, d, s, nb), a)
  {
    assert NodeOk(h, a);
    AppendBuffer(h, S, b, d, v, s, nb, a);
    AppendLink(h, S, b, d, v, s, nb, a, LeftSide);
    AppendLink(h, S, b, d, v, s, nb, a, RightSide);
    GrowAt(h, S, b, d, v, s, nb, a, 1);
    GrowAt(h, S, b, d, v, s, nb, a, N - 2);
  }

  lemma AppendNew(h: Heap, S: Side, b: int, d: int, v: int, s: Slot, nb: Mem)
    requires CanAppend(h, S, b, d, v, s, nb)
    ensures NodeOk(Grow(h, S, b, d, s, nb), d)
  {
    var h' := Grow(h, S, b, d, s, nb);
    AppendAtEnd(h, S, b, d, v, s, nb);
    PreparedOk(nb, S, b, d, v);
    assert forall i :: 0 <= i < N ==> At(h'.mem, d, i) == At(nb, d, i);
    BufferFrame(nb, h'.mem, d);
    GrowAt(h, S, b, d, v, s, nb, b, FarLink(S));
    assert LinkOk(h', S, d);
    assert LinkOk(h', Opp(S), d);
  }

  lemma AppendAbs(h: Heap, S: Side, b: int, d: int, v: int, s: Slot, nb: Mem)
    requires CanAppend(h, S, b, d, v, s, nb)
    ensures Abs(Grow(h, S, b, d, s, nb)) == Add(S, Abs(h), v)
  {
    var h' := Grow(h, S, b, d, s, nb);
    var p := End(h', S);
    AppendParts(h, S, b, d, v, s, nb);
    if S == RightSide {
      ContentsSplit(h'.mem, h'.at, h'.lo, p, h'.hi);
    }
    ContentsOne(h', p);
  }

  lemma AppendParts(h: Heap, S: Side, b: int, d: int, v: int, s: Slot, nb: Mem)
    requires CanAppend(h, S, b, d, v, s, nb)
    ensures var h' := Grow(h, S, b, d, s, nb);
            Segment(h'.mem, d, 1, N - 1) == [v] && Contents(h'.mem, h'.at, h.lo, h.hi) == Contents(h.mem, h.at, h.lo, h.hi)
  {
    var h' := Grow(h, S, b, d, s, nb);
    PreparedOk(nb, S, b, d, v);
    SegmentSame(nb, h'.mem, d, d, 1, N - 1);
    forall q, k | h.lo <= q <= h.hi && 1 <= k < N - 1 ensures At(h'.mem, h.at[q], k) == At(h.mem, h.at[q], k) {
      GrowAt(h, S, b, d, v, s, nb, h.at[q], k);
    }
    ContentsSame(h.mem, h'.mem, h.at, h'.at, h.lo, h.hi);
  }

  lemma ContentsOne(h: Heap, p: int)
    requires p in h.at
    ensures Contents(h.mem, h.at, p, p) == Segment(h.mem, h.at[p], 1, N - 1)
  {
    assert Contents(h.mem, h.at, p + 1, p) == [];
  }

  lemma AppendPositions(h: Heap, S: Side, b: int, d: int, v: int, s: Slot, nb: Mem)
    requires CanAppend(h, S, b, d, v, s, nb)
    ensures Positions(Grow(h, S, b, d, s, nb))
  {
  }

  lemma AppendMove(h: Heap, S: Side, b: int, d: int, v: int, s: Slot, nb: Mem)
    requires CanAppend(h, S, b, d, v, s, nb)
    ensures WF(Grow(h, S, b, d, s, nb)) && Abs(Grow(h, S, b, d, s, nb)) == Add(S, Abs(h), v)
  {
    AppendPositions(h, S, b, d, v, s, nb);
    var h' := Grow(h, S, b, d, s, nb);
    forall a | a in h.bufs ensures NodeOk(h', a) { AppendNode(h, S, b, d, v, s, nb, a); }
    AppendNew(h, S, b, d, v, s, nb);
    AppendAbs(h, S, b, d, v, s, nb);
  }

  // ---------------------------------------------------------------- seal an empty neighbour

  ghost predicate CanSeal(h: Heap, S: Side, b: int, c: int, s: Slot) {
    && WF(h) && b in h.pos && IsLink(h.mem, b, FarLink(S), c)
    && Typ(h.mem, b, FarValue(S)) != SEALED
    && c in h.bufs && Typ(h.mem, c, NearValue(S)) == FarType(S)
    && s.typ == SEALED
  }

  lemma LinkedNeighbour(h: Heap, S: Side, b: int, c: int)
    requires WF(h) && b in h.pos && IsLink(h.mem, b, FarLink(S), c)
    ensures c in h.pos && h.pos[c] == h.pos[b] + Dir(S) && h.pos[b] != End(h, S)
    ensures IsLink(h.mem, c, NearLink(S), b) && Neighbour(h, Opp(S), c) == b && Neighbour(h, S, b) == c
  {
    assert NodeOk(h, b);
    assert NodeOk(h, c);
    assert LinkOk(h, Opp(S), c);
  }

  lemma SealBuffer(m: Mem, S: Side, c: int, s: Slot)
    requires BufferOk(m, c) && Typ(m, c, NearValue(S)) == FarType(S) && Typ(m, c, NearLink(S)) == VALUE && s.typ == SEALED
    ensures BufferOk(m[Loc(c, NearValue(S)) := s], c)
  {
    var m' := m[Loc(c, NearValue(S)) := s];
    FarAll(m, S, c, NearValue(S));
    forall i | 0 <= i < N - 1 ensures PairOk(m', c, i) { assert PairOk(m, c, i); }
    assert Typ(m, c, NearValue(S) + Dir(S)) == FarType(S);
    assert Typ(m, c, FarLink(S)) == FarType(S);
  }

  lemma SealLink(h: Heap, S: Side, b: int, c: int, s: Slot, a: int, T: Side)
    requires CanSeal(h, S, b, c, s) && a in h.bufs
    ensures LinkOk(Put(h, Loc(c, NearValue(S)), s), T, a)
  {
    LinkedNeighbour(h, S, b, c);
    assert NodeOk(h, a);
    assert LinkOk(h, T, a);
  }

  lemma SealNode(h: Heap, S: Side, b: int, c: int, s: Slot, a: int)
    requires CanSeal(h, S, b, c, s) && a in h.bufs
    ensures NodeOk(Put(h, Loc(c, NearValue(S)), s), a)
  {
    var h' := Put(h, Loc(c, NearValue(S)), s);
    assert NodeOk(h, a);
    LinkedNeighbour(h, S, b, c);
    if a == c { SealBuffer(h.mem, S, c, s); } else { BufferFrame(h.mem, h'.mem, a); }
    SealLink(h, S, b, c, s, a, LeftSide);
    SealLink(h, S, b, c, s, a, RightSide);
  }

  lemma SealMove(h: Heap, S: Side, b: int, c: int, s: Slot)
    requires CanSeal(h, S, b, c, s)
    ensures WF(Put(h, Loc(c, NearValue(S)), s)) && Abs(Put(h, Loc(c, NearValue(S)), s)) == Abs(h)
  {
    var h' := Put(h, Loc(c, NearValue(S)), s);
    forall a | a in h.bufs ensures NodeOk(h', a) { SealNode(h, S, b, c, s, a); }
    SealAbs(h, S, b, c, s);
  }

  lemma SealAbs(h: Heap, S: Side, b: int, c: int, s: Slot)
    requires CanSeal(h, S, b, c, s)
    ensures Abs(Put(h, Loc(c, NearValue(S)), s)) == Abs(h)
  {
    var m, m' := h.mem, Put(h, Loc(c, NearValue(S)), s).mem;
    assert forall a, k :: Item(At(m', a, k)) == Item(At(m, a, k));
    ContentsSame(m, m', h.at, h.at, h.lo, h.hi);
  }

  // ---------------------------------------------------------------- unlink a sealed neighbour

  ghost predicate CanUnlink(h: Heap, S: Side, b: int, c: int, s: Slot) {
    && WF(h) && b in h.bufs && IsLink(h.mem, b, FarLink(S), c) && IsLink(h.mem, c, NearLink(S), b)
    && Typ(h.mem, c, NearValue(S)) == SEALED
    && s.typ == FarType(S)
  }

  function Shrink(h: Heap, S: Side, b: int, c: int, s: Slot): Heap {
    var p := End(h, S);
    Heap(h.mem[Loc(b, FarLink(S)) := s], h.bufs, h.pos - {c}, h.at - {p},
         if S == LeftSide then p + 1 else h.lo, if S == LeftSide then h.hi else p - 1)
  }

  lemma SealedAtEnd(h: Heap, S: Side, b: int, c: int, s: Slot)
    requires CanUnlink(h, S, b, c, s)
    ensures b in h.pos && c in h.pos && h.pos[c] == End(h, S) && h.pos[b] == h.pos[c] - Dir(S)
    ensures Neighbour(h, S, b) == c && Neighbour(h, Opp(S), c) == b
    ensures Typ(h.mem, b, FarValue(S)) != SEALED
    ensures Segment(h.mem, c, 1, N - 1) == []
    ensures forall k :: 1 <= k < N - 1 && k != NearValue(S) ==> Typ(h.mem, c, k) == FarType(S)
  {
    assert NodeOk(h, b) && NodeOk(h, c);
    LinkedNeighbour(h, S, b, c);
    FarAll(h.mem, S, c, NearValue(S) + Dir(S));
    FarTypeAtEnd(h, S, c, NearValue(S) + Dir(S));
    SegmentEmpty(h.mem, c, 1, N - 1);
  }

  lemma UnlinkBuffer(m: Mem, S: Side, b: int, s: Slot)
    requires BufferOk(m, b) && Typ(m, b, FarLink(S)) == VALUE && Typ(m, b, FarValue(S)) != SEALED && s.typ == FarType(S)
    ensures BufferOk(m[Loc(b, FarLink(S)) := s], b)
  {
    var m' := m[Loc(b, FarLink(S)) := s];
    forall i | 0 <= i < N - 1 ensures PairOk(m', b, i) { assert PairOk(m, b, i); }
    if Typ(m, b, NearValue(S)) == SEALED { FarAll(m, S, b, NearValue(S) + Dir(S)); }
  }

  /** The places of the two buffers. */
  lemma SealedPlace(h: Heap, S: Side, b: int, c: int, s: Slot)
    requires CanUnlink(h, S, b, c, s)
    ensures b in h.pos && c in h.pos && h.pos[c] == End(h, S) && h.pos[b] == h.pos[c] - Dir(S)
    ensures Neighbour(h, S, b) == c && Neighbour(h, Opp(S), c) == b && Segment(h.mem, c, 1, N - 1) == []
  {
    SealedAtEnd(h, S, b, c, s);
  }

  lemma UnlinkLink(h: Heap, S: Side, b: int, c: int, s: Slot, a: int, T: Side)
    requires CanUnlink(h, S, b, c, s) && a in h.bufs
    ensures LinkOk(Shrink(h, S, b, c, s), T, a)
  {
    SealedPlace(h, S, b, c, s);
    if a == b && T == S {
      assert FarLink(S) != NearLink(S);
    } else {
      UnlinkKept(h, S, b, c, s, a, T);
    }
  }

  /** Any other link slot is as it was. */
  lemma UnlinkKept(h: Heap, S: Side, b: int, c: int, s: Slot, a: int, T: Side)
    requires CanUnlink(h, S, b, c, s) && a in h.bufs && !(a == b && T == S)
    ensures LinkOk(Shrink(h, S, b, c, s), T, a)
  {
    UnlinkReach(h, S, b, c, s, a, T);
    UnlinkChain(h, S, b, c, s, a, T);
  }

  /** Two buffers that link to each other are still in the chain. */
  lemma UnlinkReach(h: Heap, S: Side, b: int, c: int, s: Slot, a: int, T: Side)
    requires CanUnlink(h, S, b, c, s) && a in h.bufs && !(a == b && T == S)
    ensures var h' := Shrink(h, S, b, c, s);
            Typ(h'.mem, a, FarLink(T)) == VALUE ==>
              var d := At(h'.mem, a, FarLink(T)).word; d in h'.bufs && (IsLink(h'.mem, d, NearLink(T), a) ==> a in h'.pos && d in h'.pos)
  {
    SealedPlace(h, S, b, c, s);
    assert LinkOk(h, T, a) by { assert NodeOk(h, a); }
    assert LinkOk(h, S, c) by { assert NodeOk(h, c); }
  }

  /** Each buffer still links to its neighbour. */
  lemma UnlinkChain(h: Heap, S: Side, b: int, c: int, s: Slot, a: int, T: Side)
    requires CanUnlink(h, S, b, c, s) && a in h.bufs && !(a == b && T == S)
    ensures var h' := Shrink(h, S, b, c, s);
            && (a in h'.pos && h'.pos[a] == End(h', T) ==> Typ(h'.mem, a, FarLink(T)) == FarType(T))
            && (a in h'.pos && h'.pos[a] != End(h', T) ==>
                  && IsLink(h'.mem, a, FarLink(T), Neighbour(h', T, a))
                  && (Typ(h'.mem, a, FarValue(T)) != SEALED || Typ(h'.mem, Neighbour(h', T, a), NearValue(T)) != SEALED))
  {
    SealedPlace(h, S, b, c, s);
    assert LinkOk(h, T, a) by { assert NodeOk(h, a); }
    if a in h.pos && h.pos[a] != End(h, T) {
      LinkedNeighbour(h, T, a, Neighbour(h, T, a));
    }
  }

  lemma UnlinkNode(h: Heap, S: Side, b: int, c: int, s: Slot, a: int)
    requires CanUnlink(h, S, b, c, s) && a in h.bufs
    ensures NodeOk(Shrink(h, S, b, c, s), a)
  {
    var h' := Shrink(h, S, b, c, s);
    assert NodeOk(h, a);
    SealedAtEnd(h, S, b, c, s);
    if a == b { UnlinkBuffer(h.mem, S, b, s); } else { BufferFrame(h.mem, h'.mem, a); }
    UnlinkLink(h, S, b, c, s, a, LeftSide);
    UnlinkLink(h, S, b, c, s, a, RightSide);
  }

  lemma UnlinkAbs(h: Heap, S: Side, b: int, c: int, s: Slot)
    requires CanUnlink(h, S, b, c, s)
    ensures Abs(Shrink(h, S, b, c, s)) == Abs(h)
  {
    var h' := Shrink(h, S, b, c, s);
    var p := End(h, S);
    SealedPlace(h, S, b, c, s);
    assert forall a, k :: 1 <= k < N - 1 ==> At(h'.mem, a, k) == At(h.mem, a, k);
    ContentsSame(h.mem, h'.mem, h.at, h'.at, h'.lo, h'.hi);
    if S == RightSide {
      ContentsSplit(h.mem, h.at, h.lo, p, h.hi);
    }
    ContentsOne(h, p);
  }

  lemma UnlinkPositions(h: Heap, S: Side, b: int, c: int, s: Slot)
    requires CanUnlink(h, S, b, c, s)
    ensures Positions(Shrink(h, S, b, c, s))
  {
    SealedAtEnd(h, S, b, c, s);
  }

  lemma UnlinkMove(h: Heap, S: Side, b: int, c: int, s: Slot)
    requires CanUnlink(h, S, b, c, s)
    ensures WF(Shrink(h, S, b, c, s)) && Abs(Shrink(h, S, b, c, s)) == Abs(h)
  {
    UnlinkPositions(h, S, b, c, s);
    var h' := Shrink(h, S, b, c, s);
    forall a | a in h.bufs ensures NodeOk(h', a) { UnlinkNode(h, S, b, c, s, a); }
    UnlinkAbs(h, S, b, c, s);
  }

  // ---------------------------------------------------------------- when the deque is empty

  lemma NoValues(h: Heap)
    requires forall p, k :: h.lo <= p <= h.hi && p in h.at && 1 <= k < N - 1 ==> Typ(h.mem, h.at[p], k) != VALUE
    ensures Abs(h) == []
  {
    NoValuesFrom(h, h.lo);
  }

  lemma {:induction false} NoValuesFrom(h: Heap, lo: int)
    requires h.lo <= lo
    requires forall p, k :: h.lo <= p <= h.hi && p in h.at && 1 <= k < N - 1 ==> Typ(h.mem, h.at[p], k) != VALUE
    ensures Contents(h.mem, h.at, lo, h.hi) == []
    decreases h.hi - lo
  {
    if lo <= h.hi {
      if lo in h.at { SegmentEmpty(h.mem, h.at[lo], 1, N - 1); }
      NoValuesFrom(h, lo + 1);
    }
  }

  /** A near-typed slot next to a far-typed slot: nothing lies between the two sides. */
  lemma EmptyInside(h: Heap, S: Side, b: int, i: int)
    requires WF(h) && b in h.bufs && 0 <= i < N && 0 <= i + Dir(S) < N
    requires Typ(h.mem, b, i) == NearType(S) && Typ(h.mem, b, i + Dir(S)) == FarType(S)
    ensures Abs(h) == []
  {
    assert NodeOk(h, b);
    FarAll(h.mem, S, b, i + Dir(S));
    FarAll(h.mem, Opp(S), b, i);
    assert b in h.pos;
    FarTypeAtEnd(h, S, b, i + Dir(S));
    FarTypeAtEnd(h, Opp(S), b, i);
    NoValues(h);
  }

  /** The same across the border between two linked buffers. */
  lemma EmptyAcross(h: Heap, S: Side, b: int, c: int)
    requires WF(h) && b in h.pos && IsLink(h.mem, b, FarLink(S), c)
    requires Typ(h.mem, b, FarValue(S)) == NearType(S) || Typ(h.mem, b, FarValue(S)) == SEALED
    requires Typ(h.mem, c, NearValue(S)) == FarType(S) || Typ(h.mem, c, NearValue(S)) == SEALED
    ensures Abs(h) == []
  {
    LinkedNeighbour(h, S, b, c);
    assert NodeOk(h, b) && NodeOk(h, c);
    var i := if Typ(h.mem, b, FarValue(S)) == SEALED then FarValue(S) - Dir(S) else FarValue(S);
    var j := if Typ(h.mem, c, NearValue(S)) == SEALED then NearValue(S) + Dir(S) else NearValue(S);
    FarAll(h.mem, Opp(S), b, i);
    FarAll(h.mem, S, c, j);
    FarTypeAtEnd(h, Opp(S), b, i);
    FarTypeAtEnd(h, S, c, j);
    NoValues(h);
  }

  /** A live near-typed slot is never in a buffer that left the chain, nor is an unsealed buffer that still has its link. */
  lemma NearInChain(h: Heap, S: Side, b: int)
    requires WF(h) && b in h.bufs && Typ(h.mem, b, FarValue(S)) != SEALED && Typ(h.mem, b, FarLink(S)) == VALUE
    ensures b in h.pos
  {
    assert NodeOk(h, b);
    if Typ(h.mem, b, NearValue(S)) == SEALED { FarAll(h.mem, S, b, NearValue(S) + Dir(S)); }
  }

  // ---------------------------------------------------------------- shapes in plain words

  /** A buffer sealed by side S holds no value. */
  lemma SealedHoldsNothing(h: Heap, S: Side, b: int)
    requires WF(h) && b in h.bufs && Typ(h.mem, b, NearValue(S)) == SEALED
    ensures Segment(h.mem, b, 1, N - 1) == []
  {
    assert NodeOk(h, b);
    FarAll(h.mem, S, b, NearValue(S) + Dir(S));
    SegmentEmpty(h.mem, b, 1, N - 1);
  }

  /** Slots of a buffer without links: LEFT up to l, VALUE up to r, RIGHT from r on. */
  ghost predicate Split(m: Mem, b: int, l: int, r: int) {
    && 1 <= l <= r < N
    && (forall i :: 0 <= i < l ==> Typ(m, b, i) == LEFT)
    && (forall i :: l <= i < r ==> Typ(m, b, i) == VALUE)
    && (forall i :: r <= i < N ==> Typ(m, b, i) == RIGHT)
  }

  lemma UnlinkedBufferSplits(m: Mem, b: int) returns (l: int, r: int)
    requires BufferOk(m, b) && Typ(m, b, 0) == LEFT && Typ(m, b, N - 1) == RIGHT
    ensures Split(m, b, l, r)
  {
    l := 1;
    while l < N - 1 && Typ(m, b, l) == LEFT
      invariant 1 <= l < N && forall i :: 0 <= i < l ==> Typ(m, b, i) == LEFT
    {
      l := l + 1;
    }
    r := l;
    while r < N - 1 && Typ(m, b, r) == VALUE
      invariant l <= r < N && forall i :: l <= i < r ==> Typ(m, b, i) == VALUE
    {
      r := r + 1;
    }
    assert PairOk(m, b, r - 1);
    assert PairOk(m, b, if r < N - 1 then r else 0);
    FarAll(m, RightSide, b, r);
  }

  lemma SplitContents(m: Mem, b: int, l: int, r: int)
    requires Split(m, b, l, r)
    ensures Segment(m, b, 1, N - 1) == Segment(m, b, l, r)
  {
    SegmentSplit(m, b, 1, l, N - 1);
    SegmentSplit(m, b, l, r, N - 1);
    SegmentEmpty(m, b, 1, l);
    SegmentEmpty(m, b, r, N - 1);
  }

  lemma SingleBuffer(h: Heap) returns (b: int, l: int, r: int)
    requires WF(h) && h.lo == h.hi
    ensures b in h.bufs && Split(h.mem, b, l, r) && Abs(h) == Segment(h.mem, b, l, r)
  {
    b := h.at[h.lo];
    assert NodeOk(h, b);
    l, r := UnlinkedBufferSplits(h.mem, b);
    SplitContents(h.mem, b, l, r);
    ContentsOne(h, h.lo);
  }
}
