/** Slots, sides and geometry of OFDeque.hpp, and the chain of buffers its shared slots make up. */
module OFHeap {
  import opened DequeSpec

  datatype Type = LEFT | RIGHT | SEALED | VALUE

  /** One 64-bit slot: `word` is the union of `m_value` and `m_pLink`. */
  datatype Slot = Slot(typ: Type, word: int, count: nat)

  datatype Loc = Loc(buf: int, idx: int)

  type BufferSize = n: nat | n >= 4 witness 4

  const N: BufferSize

  type Mem = map<Loc, Slot>

  function FarLink(S: Side): int { if S == LeftSide then 0 else N - 1 }
  function NearLink(S: Side): int { if S == LeftSide then N - 1 else 0 }
  function FarValue(S: Side): int { if S == LeftSide then 1 else N - 2 }
  function NearValue(S: Side): int { if S == LeftSide then N - 2 else 1 }
  function FarType(S: Side): Type { if S == LeftSide then LEFT else RIGHT }
  function NearType(S: Side): Type { if S == LeftSide then RIGHT else LEFT }

  function At(m: Mem, b: int, i: int): Slot {
    if Loc(b, i) in m then m[Loc(b, i)] else Slot(LEFT, 0, 0)
  }

  function Typ(m: Mem, b: int, i: int): Type { At(m, b, i).typ }

  /** `at[p]` for lo <= p <= hi are the buffers of the deque from left to right. */
  datatype Heap = Heap(mem: Mem, bufs: set<int>, pos: map<int, int>, at: map<int, int>, lo: int, hi: int)

  ghost predicate IsLink(m: Mem, b: int, i: int, c: int) {
    Typ(m, b, i) == VALUE && At(m, b, i).word == c
  }

  /** Neighbouring slots read LEFT* VALUE* RIGHT*; only the first and last value slot may be SEALED. */
  ghost predicate PairOk(m: Mem, b: int, i: int) {
    && (Typ(m, b, i + 1) == LEFT ==> Typ(m, b, i) == LEFT)
    && (Typ(m, b, i) == RIGHT ==> Typ(m, b, i + 1) == RIGHT)
    && (Typ(m, b, i) == SEALED ==> i == 1 || i == N - 2)
  }

  /** A buffer sealed by an operation of side S holds only far-typed slots beyond the seal. */
  ghost predicate SealOk(m: Mem, S: Side, b: int) {
    Typ(m, b, NearValue(S)) == SEALED ==>
      Typ(m, b, NearLink(S)) == VALUE && Typ(m, b, NearValue(S) + Dir(S)) == FarType(S)
  }

  ghost predicate BufferOk(m: Mem, b: int) {
    && (forall i :: 0 <= i < N ==> Loc(b, i) in m)
    && (Typ(m, b, 0) == LEFT || Typ(m, b, 0) == VALUE)
    && (Typ(m, b, N - 1) == RIGHT || Typ(m, b, N - 1) == VALUE)
    && (forall i :: 0 <= i < N - 1 ==> PairOk(m, b, i))
    && SealOk(m, LeftSide, b) && SealOk(m, RightSide, b)
  }

  ghost predicate Positions(h: Heap) {
    && h.lo <= h.hi
    && (forall p :: p in h.at <==> h.lo <= p <= h.hi)
    && (forall p :: h.lo <= p <= h.hi ==> h.at[p] in h.bufs && h.at[p] in h.pos && h.pos[h.at[p]] == p)
    && (forall b :: b in h.pos ==> b in h.bufs && h.lo <= h.pos[b] <= h.hi && h.at[h.pos[b]] == b)
  }

  function End(h: Heap, S: Side): int { if S == LeftSide then h.lo else h.hi }

  function Neighbour(h: Heap, S: Side, b: int): int
    requires b in h.pos
  {
    if h.pos[b] + Dir(S) in h.at then h.at[h.pos[b] + Dir(S)] else 0
  }

  /** What the link slot of b on side S may hold. */
  ghost predicate LinkOk(h: Heap, S: Side, b: int) {
    // every link leads to a published buffer, and two buffers that link to each other are both in the chain
    && (Typ(h.mem, b, FarLink(S)) == VALUE ==>
      var c := At(h.mem, b, FarLink(S)).word;
      c in h.bufs && (IsLink(h.mem, c, NearLink(S), b) ==> b in h.pos && c in h.pos))
    // the chain: the last buffer has no link, any other links to its neighbour
    && (b in h.pos && h.pos[b] == End(h, S) ==> Typ(h.mem, b, FarLink(S)) == FarType(S))
    && (b in h.pos && h.pos[b] != End(h, S) ==>
      && IsLink(h.mem, b, FarLink(S), Neighbour(h, S, b))
      // two neighbours are never sealed against each other
      && (Typ(h.mem, b, FarValue(S)) != SEALED || Typ(h.mem, Neighbour(h, S, b), NearValue(S)) != SEALED))
  }

  ghost predicate NodeOk(h: Heap, b: int) {
    && BufferOk(h.mem, b)
    && LinkOk(h, LeftSide, b) && LinkOk(h, RightSide, b)
    // a buffer that left the chain stays sealed
    && (b in h.pos || Typ(h.mem, b, 1) == SEALED || Typ(h.mem, b, N - 2) == SEALED)
  }

  ghost predicate WF(h: Heap) {
    Positions(h) && forall b {:trigger NodeOk(h, b)} :: b in h.bufs ==> NodeOk(h, b)
  }

  lemma {:induction false} FarRun(m: Mem, S: Side, b: int, i: int, n: nat)
    requires BufferOk(m, b) && 0 <= i < N && 0 <= i + n * Dir(S) < N && Typ(m, b, i) == FarType(S)
    ensures Typ(m, b, i + n * Dir(S)) == FarType(S)
    decreases n
  {
    if n > 0 {
      FarRun(m, S, b, i, n - 1);
      var k := i + (n - 1) * Dir(S);
      assert PairOk(m, b, if S == LeftSide then k - 1 else k);
    }
  }

  lemma FarAll(m: Mem, S: Side, b: int, i: int)
    requires BufferOk(m, b) && 0 <= i < N && Typ(m, b, i) == FarType(S)
    ensures S == RightSide ==> forall k :: i <= k < N ==> Typ(m, b, k) == RIGHT
    ensures S == LeftSide ==> forall k :: 0 <= k <= i ==> Typ(m, b, k) == LEFT
  {
    forall k | 0 <= k < N && 0 <= (k - i) * Dir(S) ensures Typ(m, b, k) == FarType(S) {
      FarRun(m, S, b, i, (k - i) * Dir(S));
    }
  }

  // ---------------------------------------------------------------- abstract contents

  function Item(s: Slot): seq<int> { if s.typ == VALUE then [s.word] else [] }

  function Segment(m: Mem, b: int, i: int, j: int): seq<int>
    decreases j - i
  {
    if i >= j then [] else Item(At(m, b, i)) + Segment(m, b, i + 1, j)
  }

  function Contents(m: Mem, at: map<int, int>, lo: int, hi: int): seq<int>
    decreases hi - lo
  {
    if lo > hi then [] else (if lo in at then Segment(m, at[lo], 1, N - 1) else []) + Contents(m, at, lo + 1, hi)
  }

  /** The deque: the values in the value slots of the chain, from left to right. */
  function Abs(h: Heap): seq<int> { Contents(h.mem, h.at, h.lo, h.hi) }

  lemma {:induction false} SegmentSplit(m: Mem, b: int, i: int, k: int, j: int)
    requires i <= k <= j
    ensures Segment(m, b, i, j) == Segment(m, b, i, k) + Segment(m, b, k, j)
    decreases k - i
  {
    if i < k {
      SegmentSplit(m, b, i + 1, k, j);
    }
  }

  lemma {:induction false} SegmentSame(m: Mem, m': Mem, b: int, c: int, i: int, j: int)
    requires forall k :: i <= k < j ==> Item(At(m, b, k)) == Item(At(m', c, k))
    ensures Segment(m, b, i, j) == Segment(m', c, i, j)
    decreases j - i
  {
    if i < j {
      SegmentSame(m, m', b, c, i + 1, j);
    }
  }

  lemma {:induction false} SegmentEmpty(m: Mem, b: int, i: int, j: int)
    requires forall k :: i <= k < j ==> Typ(m, b, k) != VALUE
    ensures Segment(m, b, i, j) == []
    decreases j - i
  {
    if i < j {
      assert Typ(m, b, i) != VALUE;
      SegmentEmpty(m, b, i + 1, j);
    }
  }

  lemma {:induction false} ContentsSplit(m: Mem, at: map<int, int>, lo: int, mid: int, hi: int)
    requires lo <= mid <= hi + 1
    ensures Contents(m, at, lo, hi) == Contents(m, at, lo, mid - 1) + Contents(m, at, mid, hi)
    decreases mid - lo
  {
    if lo < mid {
      ContentsSplit(m, at, lo + 1, mid, hi);
    }
  }

  lemma {:induction false} ContentsSame(m: Mem, m': Mem, at: map<int, int>, at': map<int, int>, lo: int, hi: int)
    requires forall p :: lo <= p <= hi ==> p in at && p in at' && at[p] == at'[p]
    requires forall p, k :: lo <= p <= hi && 1 <= k < N - 1 ==> Item(At(m, at[p], k)) == Item(At(m', at[p], k))
    ensures Contents(m, at, lo, hi) == Contents(m', at', lo, hi)
    decreases hi - lo
  {
    if lo <= hi {
      SegmentSame(m, m', at[lo], at[lo], 1, N - 1);
      ContentsSame(m, m', at, at', lo + 1, hi);
    }
  }
}
