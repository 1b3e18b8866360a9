/** The loop of `findEdge` on a heap that stands still, from any hint and with any local hints. */
module OFSearch {
  import opened DequeSpec
  import opened OFHeap
  import opened OFEdge

  /** What one turn of the loop comes to: an edge, another index, another buffer, or a place where the source asserts. */
  datatype Turn = Edge(buf: int, idx: int) | Shift(idx: int) | Enter(buf: int) | Lost

  function Look(m: Mem, S: Side, b: int, i: int): Turn {
    var t, next := Typ(m, b, i), Typ(m, b, i + Dir(S));
    if i == FarLink(S) then
      if t == FarType(S) then Shift(i - Dir(S))
      else
        var c := At(m, b, i).word;
        if Typ(m, c, NearValue(S)) == FarType(S) || Typ(m, c, NearValue(S)) == SEALED then Edge(b, FarValue(S)) else Enter(c)
    else if i == NearLink(S) then
      if t == NearType(S) then (if next == FarType(S) then Edge(b, i) else Shift(i + Dir(S)))
      else
        var c := At(m, b, i).word;
        if Typ(m, c, FarValue(S)) != FarType(S) then Edge(c, FarValue(S)) else Enter(c)
    else if t == FarType(S) then Shift(i - Dir(S))
    else if t != SEALED then (if next == FarType(S) then Edge(b, i) else Shift(i + Dir(S)))
    else if i == FarValue(S) then
      var c := At(m, b, FarLink(S)).word;
      if Typ(m, c, NearValue(S)) == FarType(S) then Edge(b, i) else Enter(c)
    else if i == NearValue(S) then
      var c := At(m, b, NearLink(S)).word;
      if Typ(m, c, FarValue(S)) == NearType(S) || Typ(m, c, FarValue(S)) == VALUE then Edge(c, FarValue(S)) else Enter(c)
    else Lost
  }

  /** The search ends at slot j of buffer c within n turns, whatever the local hints of the buffers it enters. */
  ghost predicate Finds(m: Mem, S: Side, b: int, i: int, c: int, j: int, n: nat)
    decreases n, 0
  {
    n > 0 && match Look(m, S, b, i)
      case Edge(d, k) => d == c && k == j
      case Shift(k) => Finds(m, S, b, k, c, j, n - 1)
      case Enter(d) => FromAll(m, S, d, c, j, n - 1)
      case Lost => false
  }

  /** The same from a hint at buffer b, whatever its local hint. */
  ghost predicate FromAll(m: Mem, S: Side, b: int, c: int, j: int, n: nat)
    decreases n, 1
  {
    forall k {:trigger Finds(m, S, b, k, c, j, n)} :: 1 <= k <= N - 2 ==> Finds(m, S, b, k, c, j, n)
  }

  ghost predicate Found(m: Mem, S: Side, b: int, c: int, j: int) { exists n: nat :: FromAll(m, S, b, c, j, n) }

  lemma {:induction false} MoreTurns(m: Mem, S: Side, b: int, i: int, c: int, j: int, n: nat, n': nat)
    requires Finds(m, S, b, i, c, j, n) && n <= n'
    ensures Finds(m, S, b, i, c, j, n')
    decreases n
  {
    match Look(m, S, b, i)
    case Shift(k) => MoreTurns(m, S, b, k, c, j, n - 1, n' - 1);
    case Enter(d) =>
      var r := n' - 1;
      forall k {:trigger Finds(m, S, d, k, c, j, r)} | 1 <= k <= N - 2 ensures Finds(m, S, d, k, c, j, r) {
        MoreTurns(m, S, d, k, c, j, n - 1, r);
      }
    case _ =>
  }

  /** The search moves on outwards from slot k. */
  ghost predicate Passes(m: Mem, S: Side, b: int, k: int) {
    Typ(m, b, k) != FarType(S) && Typ(m, b, k) != SEALED && Typ(m, b, k + Dir(S)) != FarType(S)
  }

  /** Outwards over slots that are neither far-typed nor sealed. */
  lemma {:induction false} Outwards(m: Mem, S: Side, b: int, i: int, q: int, c: int, j: int, n: nat)
    requires 1 <= i <= N - 2 && 1 <= q <= N - 2 && (q - i) * Dir(S) >= 0 && Finds(m, S, b, q, c, j, n)
    requires forall k {:trigger Passes(m, S, b, k)} :: 1 <= k <= N - 2 && (q - k) * Dir(S) > 0 ==> Passes(m, S, b, k)
    ensures Finds(m, S, b, i, c, j, n + (q - i) * Dir(S))
    decreases (q - i) * Dir(S)
  {
    if i != q {
      assert Passes(m, S, b, i);
      Outwards(m, S, b, i + Dir(S), q, c, j, n);
    }
  }

  /** Inwards over far-typed slots. */
  lemma {:induction false} Inwards(m: Mem, S: Side, b: int, i: int, q: int, c: int, j: int, n: nat)
    requires 1 <= i <= N - 2 && 0 <= q < N && (i - q) * Dir(S) >= 0 && Finds(m, S, b, q, c, j, n)
    requires forall k :: 1 <= k <= N - 2 && (k - q) * Dir(S) > 0 ==> Typ(m, b, k) == FarType(S)
    ensures Finds(m, S, b, i, c, j, n + (i - q) * Dir(S))
    decreases (i - q) * Dir(S)
  {
    if i != q && i - Dir(S) != q { Inwards(m, S, b, i - Dir(S), q, c, j, n); }
  }

  /** An edge inside the hinted buffer. */
  lemma FoundInside(m: Mem, S: Side, b: int, q: int)
    requires 1 <= q <= N - 2 && Typ(m, b, q + Dir(S)) == FarType(S)
    requires forall k :: 1 <= k <= N - 2 ==>
               if (k - q) * Dir(S) > 0 then Typ(m, b, k) == FarType(S) else Typ(m, b, k) != FarType(S) && Typ(m, b, k) != SEALED
    ensures FromAll(m, S, b, b, q, N) && Found(m, S, b, b, q)
  {
    assert Finds(m, S, b, q, b, q, 1);
    forall k {:trigger Passes(m, S, b, k)} | 1 <= k <= N - 2 && (q - k) * Dir(S) > 0 ensures Passes(m, S, b, k) {}
    forall i | 1 <= i <= N - 2 ensures Finds(m, S, b, i, b, q, N) {
      if (i - q) * Dir(S) >= 0 {
        Inwards(m, S, b, i, q, b, q, 1);
        MoreTurns(m, S, b, i, b, q, 1 + (i - q) * Dir(S), N);
      } else {
        Outwards(m, S, b, i, q, b, q, 1);
        MoreTurns(m, S, b, i, b, q, 1 + (q - i) * Dir(S), N);
      }
    }
    assert FromAll(m, S, b, b, q, N);
  }

  /** The hinted buffer is empty: the edge is the border to the buffer before it. */
  lemma FoundBehind(m: Mem, S: Side, b: int, c: int)
    requires IsLink(m, b, NearLink(S), c) && Typ(m, c, FarValue(S)) != FarType(S)
    requires forall k :: 1 <= k <= N - 2 ==> Typ(m, b, k) == FarType(S)
    ensures Found(m, S, b, c, FarValue(S))
  {
    assert Finds(m, S, b, NearLink(S), c, FarValue(S), 1);
    forall i | 1 <= i <= N - 2 ensures Finds(m, S, b, i, c, FarValue(S), N) {
      Inwards(m, S, b, i, NearLink(S), c, FarValue(S), 1);
      MoreTurns(m, S, b, i, c, FarValue(S), 1 + (i - NearLink(S)) * Dir(S), N);
    }
    assert FromAll(m, S, b, c, FarValue(S), N);
  }

  /** The hinted buffer was sealed by an operation of the same side and holds only far-typed slots: the search goes back. */
  lemma FoundBehindSeal(m: Mem, S: Side, b: int, c: int)
    requires Typ(m, b, NearValue(S)) == SEALED && IsLink(m, b, NearLink(S), c)
    requires Typ(m, c, FarValue(S)) == NearType(S) || Typ(m, c, FarValue(S)) == VALUE
    requires forall k :: 1 <= k <= N - 2 && k != NearValue(S) ==> Typ(m, b, k) == FarType(S)
    ensures Found(m, S, b, c, FarValue(S))
  {
    assert Finds(m, S, b, NearValue(S), c, FarValue(S), 1);
    forall i | 1 <= i <= N - 2 ensures Finds(m, S, b, i, c, FarValue(S), N) {
      Inwards(m, S, b, i, NearValue(S), c, FarValue(S), 1);
      MoreTurns(m, S, b, i, c, FarValue(S), 1 + (i - NearValue(S)) * Dir(S), N);
    }
    assert FromAll(m, S, b, c, FarValue(S), N);
  }

  /** The hinted buffer was sealed by an operation of the other side: the search ends at its seal, or in the next buffer. */
  lemma FoundAtSeal(m: Mem, S: Side, b: int, d: int, c: int, j: int, n: nat)
    requires Typ(m, b, FarValue(S)) == SEALED && IsLink(m, b, FarLink(S), d)
    requires forall k :: 1 <= k <= N - 2 && k != FarValue(S) ==> Typ(m, b, k) == NearType(S)
    requires if Typ(m, d, NearValue(S)) == FarType(S) then c == b && j == FarValue(S) else FromAll(m, S, d, c, j, n)
    ensures Found(m, S, b, c, j)
  {
    assert Finds(m, S, b, FarValue(S), c, j, n + 1);
    var r := n + 1 + N;
    forall k {:trigger Passes(m, S, b, k)} | 1 <= k <= N - 2 && (FarValue(S) - k) * Dir(S) > 0 ensures Passes(m, S, b, k) {}
    forall i {:trigger Finds(m, S, b, i, c, j, r)} | 1 <= i <= N - 2 ensures Finds(m, S, b, i, c, j, r) {
      Outwards(m, S, b, i, FarValue(S), c, j, n + 1);
      MoreTurns(m, S, b, i, c, j, n + 1 + (FarValue(S) - i) * Dir(S), r);
    }
    assert FromAll(m, S, b, c, j, r);
  }

  // ---------------------------------------------------------------- isSealed and findActiveBuffer

  /** The buffer over the link beside the seal. */
  function Beyond(m: Mem, S: Side, b: int): int {
    var k := if Typ(m, b, 1) == SEALED then 1 else N - 2;
    At(m, b, if k == FarValue(S) then FarLink(S) else NearLink(S)).word
  }

  /** `findActiveBuffer` walks from b over links beside seals to the unsealed buffer c. */
  ghost predicate Walks(m: Mem, S: Side, b: int, c: int, n: nat)
    decreases n
  {
    if Unsealed(m, b) then c == b else n > 0 && Walks(m, S, Beyond(m, S, b), c, n - 1)
  }

  ghost predicate Active(m: Mem, S: Side, b: int, c: int) { exists n: nat :: Walks(m, S, b, c, n) }
}
