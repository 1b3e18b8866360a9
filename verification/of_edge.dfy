/** Where an operation of side S belongs: the unique far edge of a chain. */
module OFEdge {
  import opened DequeSpec
  import opened OFHeap
  import opened OFMoves

  /** A global hint: a buffer and a count that every update increases. */
  datatype Hint = Hint(buf: int, count: nat)

  /** A slot that is neither far-typed nor sealed, next to a far-typed one. */
  ghost predicate InnerEdge(h: Heap, S: Side, b: int, i: int) {
    && b in h.pos && 0 <= i < N && 0 <= i + Dir(S) < N
    && Typ(h.mem, b, i) != FarType(S) && Typ(h.mem, b, i) != SEALED
    && Typ(h.mem, b, i + Dir(S)) == FarType(S)
    && (i == NearLink(S) ==> Typ(h.mem, b, i) == NearType(S))
  }

  /** The last value slot of a buffer whose far neighbour holds nothing. */
  ghost predicate BorderEdge(h: Heap, S: Side, b: int, i: int) {
    && b in h.pos && i == FarValue(S) && Typ(h.mem, b, FarLink(S)) == VALUE
    && var r := Typ(h.mem, At(h.mem, b, FarLink(S)).word, NearValue(S)); r == FarType(S) || r == SEALED
  }

  ghost predicate FarEdge(h: Heap, S: Side, b: int, i: int) { InnerEdge(h, S, b, i) || BorderEdge(h, S, b, i) }

  lemma InnerAtEnd(h: Heap, S: Side, b: int, i: int)
    requires WF(h) && InnerEdge(h, S, b, i)
    ensures h.pos[b] == End(h, S)
    ensures S == RightSide ==> forall k :: i < k < N ==> Typ(h.mem, b, k) == RIGHT
    ensures S == LeftSide ==> forall k :: 0 <= k < i ==> Typ(h.mem, b, k) == LEFT
  {
    assert NodeOk(h, b);
    FarAll(h.mem, S, b, i + Dir(S));
    FarTypeAtEnd(h, S, b, i + Dir(S));
  }

  lemma BorderAtEnd(h: Heap, S: Side, b: int, i: int)
    requires WF(h) && BorderEdge(h, S, b, i)
    ensures var c := At(h.mem, b, FarLink(S)).word;
            && c in h.pos && h.pos[c] == End(h, S) && h.pos[b] == h.pos[c] - Dir(S)
            && IsLink(h.mem, c, NearLink(S), b)
            && (forall k :: 0 <= k < N && k != NearLink(S) && k != NearValue(S) ==> Typ(h.mem, c, k) == FarType(S))
  {
    var c := At(h.mem, b, FarLink(S)).word;
    LinkedNeighbour(h, S, b, c);
    assert NodeOk(h, c);
    var k := if Typ(h.mem, c, NearValue(S)) == SEALED then NearValue(S) + Dir(S) else NearValue(S);
    FarAll(h.mem, S, c, k);
    FarTypeAtEnd(h, S, c, k);
  }

  lemma NotBoth(h: Heap, S: Side, b: int, i: int, c: int, j: int)
    requires WF(h) && InnerEdge(h, S, b, i)
    ensures !BorderEdge(h, S, c, j)
  {
    InnerAtEnd(h, S, b, i);
    if BorderEdge(h, S, c, j) { BorderAtEnd(h, S, c, j); }
  }

  /** The far edge is unique. */
  lemma EdgeUnique(h: Heap, S: Side, b: int, i: int, c: int, j: int)
    requires WF(h) && FarEdge(h, S, b, i) && FarEdge(h, S, c, j)
    ensures b == c && i == j
  {
    if InnerEdge(h, S, b, i) {
      NotBoth(h, S, b, i, c, j);
      InnerAtEnd(h, S, b, i);
      InnerAtEnd(h, S, c, j);
      assert h.at[h.pos[b]] == b && h.at[h.pos[c]] == c;
    } else {
      if InnerEdge(h, S, c, j) { NotBoth(h, S, c, j, b, i); assert false; }
      BorderAtEnd(h, S, b, i);
      BorderAtEnd(h, S, c, j);
      assert h.at[h.pos[b]] == b && h.at[h.pos[c]] == c;
    }
  }

  // ---------------------------------------------------------------- seals at the ends

  ghost predicate Unsealed(m: Mem, b: int) { Typ(m, b, 1) != SEALED && Typ(m, b, N - 2) != SEALED }

  /** The last buffer on side S was sealed by an operation of side S and not unlinked yet. */
  ghost predicate EndSealed(h: Heap, S: Side) { End(h, S) in h.at && Typ(h.mem, h.at[End(h, S)], NearValue(S)) == SEALED }

  /** A sealed value slot is next to a link, and the buffer behind that link is not sealed. */
  lemma SealedNeighbour(h: Heap, T: Side, b: int)
    requires WF(h) && b in h.pos && Typ(h.mem, b, NearValue(T)) == SEALED
    ensures Typ(h.mem, b, NearLink(T)) == VALUE && Typ(h.mem, b, FarValue(T)) != SEALED
    ensures var a := At(h.mem, b, NearLink(T)).word;
            a in h.pos && h.pos[a] == h.pos[b] - Dir(T) && IsLink(h.mem, a, FarLink(T), b) && Unsealed(h.mem, a)
  {
    assert NodeOk(h, b);
    assert SealOk(h.mem, T, b);
    var a := At(h.mem, b, NearLink(T)).word;
    LinkedNeighbour(h, Opp(T), b, a);
    FarAll(h.mem, T, b, NearValue(T) + Dir(T));
    FarTypeAtEnd(h, T, b, NearValue(T) + Dir(T));
    assert NodeOk(h, a);
    if Typ(h.mem, a, NearValue(T)) == SEALED {
      FarAll(h.mem, T, a, NearValue(T) + Dir(T));
    }
  }

  /** A buffer reached by its back link is not far-typed at the border. */
  lemma NearNeighbour(h: Heap, S: Side, b: int)
    requires WF(h) && b in h.pos && Typ(h.mem, b, NearLink(S)) == VALUE
    ensures var a := At(h.mem, b, NearLink(S)).word;
            && a in h.pos && h.pos[a] == h.pos[b] - Dir(S) && IsLink(h.mem, a, FarLink(S), b)
            && Typ(h.mem, a, FarValue(S)) != FarType(S)
            && (Typ(h.mem, b, NearValue(S)) == SEALED ==> Typ(h.mem, a, FarValue(S)) != SEALED)
  {
    var a := At(h.mem, b, NearLink(S)).word;
    LinkedNeighbour(h, Opp(S), b, a);
    assert NodeOk(h, b);
    if Typ(h.mem, a, FarValue(S)) == FarType(S) { FarTypeAtEnd(h, S, a, FarValue(S)); }
  }

  /** The edge lies across a seal exactly when the last buffer is sealed. */
  lemma SealedEdge(h: Heap, S: Side, b: int, i: int)
    requires WF(h) && FarEdge(h, S, b, i)
    ensures EndSealed(h, S) <==>
            Typ(h.mem, b, i + Dir(S)) != FarType(S) && Typ(h.mem, At(h.mem, b, FarLink(S)).word, NearValue(S)) == SEALED
  {
    assert NodeOk(h, b);
    if InnerEdge(h, S, b, i) {
      InnerAtEnd(h, S, b, i);
      if EndSealed(h, S) {
        FarAll(h.mem, S, b, NearValue(S) + Dir(S));
        assert false;
      }
    } else {
      BorderAtEnd(h, S, b, i);
    }
  }

  /** The last buffer on side S holds nothing and has a buffer before it: the edge lies across the border between the two. */
  ghost predicate EmptyEnd(h: Heap, S: Side) {
    End(h, S) in h.at && var c := h.at[End(h, S)];
    Typ(h.mem, c, NearLink(S)) == VALUE && (Typ(h.mem, c, NearValue(S)) == FarType(S) || Typ(h.mem, c, NearValue(S)) == SEALED)
  }

  lemma BorderMeansEmptyEnd(h: Heap, S: Side, b: int, i: int)
    requires WF(h) && FarEdge(h, S, b, i)
    ensures BorderEdge(h, S, b, i) <==> EmptyEnd(h, S)
    ensures InnerEdge(h, S, b, i) <==> !EmptyEnd(h, S)
    ensures EmptyEnd(h, S) ==> h.at[End(h, S)] == At(h.mem, b, FarLink(S)).word
  {
    if InnerEdge(h, S, b, i) {
      NotBoth(h, S, b, i, b, i);
      InnerAtEnd(h, S, b, i);
      if EmptyEnd(h, S) {
        NearNeighbour(h, S, b);
        NotBoth(h, S, b, i, At(h.mem, b, NearLink(S)).word, FarValue(S));
        assert false;
      }
    } else {
      BorderAtEnd(h, S, b, i);
    }
  }

  /** Unlinking leaves an unsealed last buffer, reached by the back link of the one that was removed. */
  lemma AfterUnlink(h: Heap, S: Side, b: int, c: int, s: Slot)
    requires CanUnlink(h, S, b, c, s)
    ensures var h' := Shrink(h, S, b, c, s);
            && b in h'.pos && h'.pos.Keys == h.pos.Keys - {c} && c in h.pos
            && Typ(h'.mem, b, FarLink(S)) == FarType(S) && h'.at[End(h', S)] == b && Unsealed(h'.mem, b)
            && Typ(h'.mem, c, NearValue(S)) == SEALED && Typ(h'.mem, c, FarValue(S)) != SEALED
            && At(h'.mem, c, NearLink(S)).word == b
            && (forall x, i :: 1 <= i < N - 1 ==> At(h'.mem, x, i) == At(h.mem, x, i))
            && (InnerEdge(h', S, b, FarValue(S)) || Typ(h.mem, b, FarValue(S)) == FarType(S))
  {
    SealedAtEnd(h, S, b, c, s);
    SealedNeighbour(h, S, c);
  }

  lemma EndUnsealed(h: Heap, S: Side, c: int)
    requires WF(h) && c in h.pos && h.pos[c] == End(h, S) && Typ(h.mem, c, NearValue(S)) != SEALED
    ensures Unsealed(h.mem, c)
  {
    assert NodeOk(h, c);
    if Typ(h.mem, c, FarValue(S)) == SEALED { SealedNeighbour(h, Opp(S), c); }
  }

  lemma ValueMeansNonEmpty(h: Heap, b: int, j: int)
    requires WF(h) && b in h.pos && 1 <= j < N - 1 && Typ(h.mem, b, j) == VALUE
    ensures Abs(h) != []
  {
    AbsAround(h, h.pos[b], j);
  }
}
