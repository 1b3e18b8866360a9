/** On a well-formed chain that stands still, `findEdge` finds the far edge and nothing else, from every buffer of the chain. */
module OFFound {
  import opened DequeSpec
  import opened OFHeap
  import opened OFMoves
  import opened OFEdge
  import opened OFSearch

  /** A place the edge search may stand at. */
  ghost predicate Reached(h: Heap, S: Side, b: int, i: int) {
    b in h.pos && 0 <= i < N && (i == NearLink(S) ==> Typ(h.mem, b, NearValue(S)) == FarType(S))
  }

  /** Slots still to cross inside one buffer: inwards over far-typed slots, then outwards. */
  function Left(m: Mem, S: Side, b: int, i: int): int {
    var k := (i - NearLink(S)) * Dir(S);
    if Typ(m, b, i) == FarType(S) then N + k else N - 1 - k
  }

  /** A turn ends at the far edge, comes nearer to it inside the buffer, or enters the next buffer of the chain. */
  ghost predicate Goes(h: Heap, S: Side, b: int, i: int, t: Turn) {
    match t
    case Edge(d, k) => FarEdge(h, S, d, k)
    case Shift(k) => Reached(h, S, b, k) && Left(h.mem, S, b, k) < Left(h.mem, S, b, i)
    case Enter(d) => b in h.pos && d in h.pos && h.pos[d] == h.pos[b] + Dir(S)
    case Lost => false
  }

  lemma FarLinkGoes(h: Heap, S: Side, b: int)
    requires WF(h) && b in h.pos
    ensures Goes(h, S, b, FarLink(S), Look(h.mem, S, b, FarLink(S)))
  {
    assert NodeOk(h, b);
    if Typ(h.mem, b, FarLink(S)) != FarType(S) { LinkedNeighbour(h, S, b, At(h.mem, b, FarLink(S)).word); }
  }

  lemma NearLinkGoes(h: Heap, S: Side, b: int)
    requires WF(h) && b in h.pos && Typ(h.mem, b, NearValue(S)) == FarType(S)
    ensures Goes(h, S, b, NearLink(S), Look(h.mem, S, b, NearLink(S)))
  {
    assert NodeOk(h, b);
    if Typ(h.mem, b, NearLink(S)) != NearType(S) { NearNeighbour(h, S, b); }
  }

  lemma SealGoes(h: Heap, S: Side, b: int, i: int)
    requires WF(h) && b in h.pos && 1 <= i <= N - 2 && Typ(h.mem, b, i) == SEALED
    ensures Goes(h, S, b, i, Look(h.mem, S, b, i))
  {
    assert PairOk(h.mem, b, i) by { assert NodeOk(h, b); }
    if i == FarValue(S) {
      SealedNeighbour(h, Opp(S), b);
    } else {
      SealedNeighbour(h, S, b);
      NearNeighbour(h, S, b);
    }
  }

  lemma ValueGoes(h: Heap, S: Side, b: int, i: int)
    requires WF(h) && b in h.pos && 1 <= i <= N - 2 && Typ(h.mem, b, i) != SEALED
    ensures Goes(h, S, b, i, Look(h.mem, S, b, i))
  {
    assert NodeOk(h, b);
    assert PairOk(h.mem, b, i) && PairOk(h.mem, b, i - 1);
  }

  lemma LookGoes(h: Heap, S: Side, b: int, i: int)
    requires WF(h) && Reached(h, S, b, i)
    ensures Goes(h, S, b, i, Look(h.mem, S, b, i))
  {
    if i == FarLink(S) { FarLinkGoes(h, S, b); }
    else if i == NearLink(S) { NearLinkGoes(h, S, b); }
    else if Typ(h.mem, b, i) == SEALED { SealGoes(h, S, b, i); }
    else { ValueGoes(h, S, b, i); }
  }

  /** Buffers still to cross. */
  function Ahead(h: Heap, S: Side, b: int): int
    requires b in h.pos
  {
    (End(h, S) - h.pos[b]) * Dir(S)
  }

  /** The search ends, and it ends at the far edge. */
  lemma {:induction false} Ends(h: Heap, S: Side, b: int, i: int) returns (c: int, j: int, n: nat)
    requires WF(h) && Reached(h, S, b, i)
    ensures FarEdge(h, S, c, j) && Finds(h.mem, S, b, i, c, j, n)
    decreases Ahead(h, S, b), 0, Left(h.mem, S, b, i)
  {
    LookGoes(h, S, b, i);
    match Look(h.mem, S, b, i)
    case Edge(d, k) => c, j, n := d, k, 1;
    case Shift(k) =>
      c, j, n := Ends(h, S, b, k);
      n := n + 1;
    case Enter(d) =>
      c, j, n := AllEnd(h, S, d, N - 2);
      n := n + 1;
  }

  /** The same from all local hints up to k. */
  lemma {:induction false} AllEnd(h: Heap, S: Side, b: int, k: int) returns (c: int, j: int, n: nat)
    requires WF(h) && b in h.pos && 1 <= k <= N - 2
    ensures FarEdge(h, S, c, j)
    ensures forall i {:trigger Finds(h.mem, S, b, i, c, j, n)} :: 1 <= i <= k ==> Finds(h.mem, S, b, i, c, j, n)
    decreases Ahead(h, S, b), 1, k
  {
    var n1: nat;
    c, j, n1 := Ends(h, S, b, k);
    n := n1;
    if k > 1 {
      var c0, j0, n0 := AllEnd(h, S, b, k - 1);
      EdgeUnique(h, S, c, j, c0, j0);
      n := if n0 > n1 then n0 else n1;
      forall i {:trigger Finds(h.mem, S, b, i, c, j, n)} | 1 <= i <= k - 1 ensures Finds(h.mem, S, b, i, c, j, n) {
        assert Finds(h.mem, S, b, i, c0, j0, n0);
        MoreTurns(h.mem, S, b, i, c, j, n0, n);
      }
      MoreTurns(h.mem, S, b, k, c, j, n1, n);
    }
  }

  /** The search has at most one answer. */
  lemma {:induction false} FindsOne(m: Mem, S: Side, b: int, i: int, c: int, j: int, n: nat, c': int, j': int, n': nat)
    requires Finds(m, S, b, i, c, j, n) && Finds(m, S, b, i, c', j', n')
    ensures c == c' && j == j'
    decreases n
  {
    match Look(m, S, b, i)
    case Shift(k) => FindsOne(m, S, b, k, c, j, n - 1, c', j', n' - 1);
    case Enter(d) =>
      assert Finds(m, S, d, 1, c, j, n - 1) && Finds(m, S, d, 1, c', j', n' - 1);
      FindsOne(m, S, d, 1, c, j, n - 1, c', j', n' - 1);
    case _ =>
  }

  /** From a hint on any buffer of the chain and with any local hints, the search finds exactly the far edge. */
  lemma FoundIff(h: Heap, S: Side, b: int, c: int, j: int)
    requires WF(h) && b in h.pos
    ensures Found(h.mem, S, b, c, j) <==> FarEdge(h, S, c, j)
  {
    var c0, j0, n0 := AllEnd(h, S, b, N - 2);
    assert FromAll(h.mem, S, b, c0, j0, n0);
    if FarEdge(h, S, c, j) { EdgeUnique(h, S, c, j, c0, j0); }
    if Found(h.mem, S, b, c, j) {
      var n: nat :| FromAll(h.mem, S, b, c, j, n);
      assert Finds(h.mem, S, b, 1, c, j, n) && Finds(h.mem, S, b, 1, c0, j0, n0);
      FindsOne(h.mem, S, b, 1, c, j, n, c0, j0, n0);
    }
  }
}
