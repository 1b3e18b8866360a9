/** OFDeque.hpp run by one thread at a time: the real edge search, hints, buffer caches and retirement. */
module OFSolo {
  import opened DequeSpec
  import opened OFHeap
  import opened OFMoves
  import opened OFEdge
  import OFSearch
  import opened OFFound

  // ---------------------------------------------------------------- private buffers

  /** A buffer kept in a cache: any contents in the two slots a push fills, far-typed slots elsewhere. */
  ghost predicate CachedOk(h: Heap, S: Side, d: int) {
    && d !in h.bufs
    && forall i :: 0 <= i < N ==> Loc(d, i) in h.mem && (i != NearLink(S) && i != NearValue(S) ==> Typ(h.mem, d, i) == FarType(S))
  }

  function Slice(m: Mem, d: int): Mem { map l | l in m && l.buf == d && 0 <= l.idx < N :: m[l] }

  lemma SliceFrame(m: Mem, d: int, l: Loc, s: Slot)
    requires l.buf != d
    ensures Slice(m[l := s], d) == Slice(m, d)
  {
  }

  lemma PrivatePut(h: Heap, l: Loc, s: Slot)
    requires WF(h) && l.buf !in h.bufs
    ensures WF(Put(h, l, s)) && Abs(Put(h, l, s)) == Abs(h)
  {
    var h' := Put(h, l, s);
    forall b | b in h.bufs ensures NodeOk(h', b) {
      assert NodeOk(h, b);
      BufferFrame(h.mem, h'.mem, b);
      PrivateLink(h, l, s, LeftSide, b);
      PrivateLink(h, l, s, RightSide, b);
    }
    ContentsSame(h.mem, h'.mem, h.at, h.at, h.lo, h.hi);
  }

  lemma PrivateLink(h: Heap, l: Loc, s: Slot, S: Side, b: int)
    requires Positions(h) && b in h.bufs && LinkOk(h, S, b) && l.buf !in h.bufs
    ensures LinkOk(Put(h, l, s), S, b)
  {
    if b in h.pos && h.pos[b] != End(h, S) { assert Neighbour(h, S, b) in h.bufs; }
  }

  lemma CachedFrame(h: Heap, h': Heap, l: Loc, s: Slot, S: Side, d: int)
    requires CachedOk(h, S, d) && l.buf in h.bufs && h'.mem == h.mem[l := s] && h'.bufs == h.bufs
    ensures CachedOk(h', S, d)
  {
    forall i | 0 <= i < N
      ensures Loc(d, i) in h'.mem && (i != NearLink(S) && i != NearValue(S) ==> Typ(h'.mem, d, i) == FarType(S))
    {
      assert Loc(d, i) in h.mem;
    }
  }

  /** A prepared buffer is already in memory when its link is set. */
  lemma GrowMem(h: Heap, S: Side, b: int, d: int, s: Slot)
    requires b in h.bufs && d !in h.bufs
    ensures Grow(h, S, b, d, s, Slice(h.mem, d)).mem == h.mem[Loc(b, FarLink(S)) := s]
  {
  }

  lemma AppendUnsealed(m: Mem, S: Side, b: int, d: int, v: int, s: Slot)
    requires Prepared(Slice(m, d), S, b, d, v) && b != d
    ensures Unsealed(m[Loc(b, FarLink(S)) := s], d)
    ensures forall x :: Unsealed(m, x) ==> Unsealed(m[Loc(b, FarLink(S)) := s], x)
  {
    var nb := Slice(m, d);
    assert Typ(m, d, 1) == Typ(nb, d, 1) && Typ(m, d, N - 2) == Typ(nb, d, N - 2);
  }

  lemma FilledWF(m: Mem, b: int, split: int)
    requires 2 <= split <= N - 2
    requires forall i :: 0 <= i < N ==> Loc(b, i) in m && Typ(m, b, i) == if i < split then LEFT else RIGHT
    ensures var h := Heap(m, {b}, map[b := 0], map[0 := b], 0, 0); WF(h) && Abs(h) == []
  {
    var h := Heap(m, {b}, map[b := 0], map[0 := b], 0, 0);
    forall i | 0 <= i < N - 1 ensures PairOk(m, b, i) {}
    assert NodeOk(h, b);
    NoValues(h);
  }

  /** The checks that a push and a pop make on the edge they were given. */
  predicate EdgeOk(S: Side, i: int, near: Type, far: Type) {
    && near != FarType(S) && !(near == SEALED && i != FarValue(S))
    && (i + Dir(S) != FarLink(S) ==> far == FarType(S))
    && (i == NearLink(S) ==> near == NearType(S))
  }

  lemma FarEdgeOk(h: Heap, S: Side, b: int, i: int)
    requires WF(h) && FarEdge(h, S, b, i)
    ensures EdgeOk(S, i, Typ(h.mem, b, i), Typ(h.mem, b, i + Dir(S)))
    ensures Typ(h.mem, b, i + Dir(S)) == FarType(S) <==> InnerEdge(h, S, b, i)
    ensures i != FarValue(S) ==> InnerEdge(h, S, b, i)
  {
    if !InnerEdge(h, S, b, i) {
      BorderAtEnd(h, S, b, i);
      NearNeighbour(h, S, At(h.mem, b, FarLink(S)).word);
    }
  }

  /** A buffer that was sealed and unlinked, but whose back link still leads to the chain. */
  ghost predicate Leads(h: Heap, T: Side, c: int) {
    && Typ(h.mem, c, NearValue(T)) == SEALED && Typ(h.mem, c, FarValue(T)) != SEALED
    && At(h.mem, c, NearLink(T)).word in h.pos && Unsealed(h.mem, At(h.mem, c, NearLink(T)).word)
  }

  datatype Search = Found | Changed | On

  class OFDeque {
    /** All slots, of published and private buffers. */
    var mem: Mem
    var hints: map<Side, Hint>
    /** The local hints may hold any integer: late increments make them drift. */
    var local: map<(Side, int), int>
    var cache: map<Side, Option<int>>
    var nextBuffer: int
    var retired: seq<int>
    ghost var h: Heap

    ghost predicate CachesOk(h: Heap)
      reads `cache, `nextBuffer
    {
      && (forall b :: b in h.bufs ==> b < nextBuffer)
      && (forall S :: S in cache)
      && (forall S :: cache[S].Some? ==> cache[S].value < nextBuffer && CachedOk(h, S, cache[S].value))
      && (cache[LeftSide].Some? ==> cache[LeftSide] != cache[RightSide])
    }

    lemma CachesFrame(h: Heap, h': Heap, l: Loc, s: Slot)
      requires CachesOk(h) && l.buf in h.bufs && h'.mem == h.mem[l := s] && h'.bufs == h.bufs
      ensures CachesOk(h')
    {
      forall S | cache[S].Some? ensures CachedOk(h', S, cache[S].value) { CachedFrame(h, h', l, s, S, cache[S].value); }
    }

    ghost predicate Shape()
      reads this
    {
      h.mem == mem && WF(h) && CachesOk(h) && forall S :: S in hints
    }

    ghost predicate Valid()
      reads this
    {
      Shape() && forall S :: S in hints && hints[S].buf in h.pos
    }

    ghost predicate HintsUnsealed()
      reads this
    {
      forall S :: S in hints && Unsealed(mem, hints[S].buf)
    }

    /** One buffer, filled around the middle, with both global hints on it; counts and words are whatever the memory held. */
    constructor ()
      ensures Valid() && HintsUnsealed() && Abs(h) == []
    {
      var split := N / 2;
      var m: Mem := map[];
      for i := 0 to N
        invariant forall k :: 0 <= k < i ==> Loc(0, k) in m && Typ(m, 0, k) == if k < split then LEFT else RIGHT
      {
        var s: Slot := *;
        m := m[Loc(0, i) := s.(typ := if i < split then LEFT else RIGHT)];
      }
      mem := m;
      hints := map[LeftSide := Hint(0, 0), RightSide := Hint(0, 0)];
      local := map[(LeftSide, 0) := split, (RightSide, 0) := split - 1];
      cache := map[LeftSide := None, RightSide := None];
      nextBuffer := 1;
      retired := [];
      h := Heap(m, {0}, map[0 := 0], map[0 := 0], 0, 0);
      new;
      FilledWF(m, 0, split);
      forall S: Side ensures S in hints && hints[S] == Hint(0, 0) && S in cache && cache[S] == None { if S == LeftSide {} }
    }

    // -------------------------------------------------------------- loads and compare-and-swap

    method Load(b: int, i: int) returns (s: Slot)
      ensures s == At(mem, b, i)
    {
      s := At(mem, b, i);
    }

    method Cas(b: int, i: int, exp: Slot, s: Slot) returns (ok: bool)
      modifies `mem
      ensures ok <==> At(old(mem), b, i) == exp
      ensures mem == if ok then old(mem)[Loc(b, i) := s] else old(mem)
    {
      ok := At(mem, b, i) == exp;
      if ok { mem := mem[Loc(b, i) := s]; }
    }

    method CasSafe(b: int, i: int, exp: Slot) returns (ok: bool)
      modifies `mem
      ensures ok <==> At(old(mem), b, i) == exp
      ensures mem == if ok then old(mem)[Loc(b, i) := exp.(count := exp.count + 1)] else old(mem)
    {
      ok := Cas(b, i, exp, Slot(exp.typ, exp.word, exp.count + 1));
    }

    /** The payload of the new slot is never set: `word` is what the stack holds, which may be anything. */
    method CasType(b: int, i: int, exp: Slot, typ: Type, word: int) returns (ok: bool)
      modifies `mem
      ensures ok <==> At(old(mem), b, i) == exp
      ensures mem == if ok then old(mem)[Loc(b, i) := Slot(typ, word, exp.count + 1)] else old(mem)
    {
      ok := Cas(b, i, exp, Slot(typ, word, exp.count + 1));
    }

    method CasValue(b: int, i: int, exp: Slot, value: int) returns (ok: bool)
      modifies `mem
      ensures ok <==> At(old(mem), b, i) == exp
      ensures mem == if ok then old(mem)[Loc(b, i) := Slot(VALUE, value, exp.count + 1)] else old(mem)
    {
      ok := Cas(b, i, exp, Slot(VALUE, value, exp.count + 1));
    }

    method CasLink(b: int, i: int, exp: Slot, link: int) returns (ok: bool)
      modifies `mem
      ensures ok <==> At(old(mem), b, i) == exp
      ensures mem == if ok then old(mem)[Loc(b, i) := Slot(VALUE, link, exp.count + 1)] else old(mem)
    {
      ok := Cas(b, i, exp, Slot(VALUE, link, exp.count + 1));
    }

    method CasHint(S: Side, exp: Hint, hint: Hint) returns (ok: bool)
      requires S in hints
      modifies `hints
      ensures ok <==> old(hints[S]) == exp
      ensures hints == if ok then old(hints)[S := hint] else old(hints)
    {
      ok := hints[S] == exp;
      if ok { hints := hints[S := hint]; }
    }

    // -------------------------------------------------------------- the edge search

    /** A local hint, brought into the range of the value slots. */
    method Clamped(S: Side, b: int) returns (i: int)
      ensures 1 <= i <= N - 2
    {
      i := if (S, b) in local then local[(S, b)] else 0;
      i := if i < 1 then 1 else if i >= N - 1 then N - 2 else i;
    }

    /** What an iteration does unless the hint has changed. */
    ghost predicate AsLooked(S: Side, b: int, i: int, o: Search, b': int, i': int)
      reads `mem
    {
      match OFSearch.Look(mem, S, b, i)
      case Edge(d, k) => o == Found && b' == d && i' == k
      case Shift(k) => o == On && b' == b && i' == k
      case Enter(d) => o == On && b' == d && 1 <= i' <= N - 2
      case Lost => false
    }

    /** One iteration of the search, at buffer b and index i: an answer, a changed hint, or a place nearer to the edge. */
    ghost predicate Searched(S: Side, hint: Hint, b: int, i: int, o: Search, b': int, i': int)
      requires b in h.pos && S in hints
      reads this
    {
      (o != Changed ==> AsLooked(S, b, i, o, b', i')) &&
      match o
      case Found => FarEdge(h, S, b', i')
      case Changed => hint.count != hints[S].count
      case On =>
        && Reached(h, S, b', i')
        && if b' == b then Left(mem, S, b, i') < Left(mem, S, b, i) else h.pos[b'] == h.pos[b] + Dir(S)
    }

    method AtFarLink(S: Side, hint: Hint, b: int) returns (o: Search, b': int, i': int)
      requires Shape() && b in h.pos
      ensures Searched(S, hint, b, FarLink(S), o, b', i')
    {
      assert NodeOk(h, b);
      var slot := Load(b, FarLink(S));
      if slot.typ == FarType(S) { return On, b, FarLink(S) - Dir(S); }
      var neighbor := slot.word;
      LinkedNeighbour(h, S, b, neighbor);
      if hint.count != hints[S].count { return Changed, b, FarLink(S); }
      var far := Load(neighbor, NearValue(S));
      if far.typ == FarType(S) || far.typ == SEALED { return Found, b, FarValue(S); }
      i' := Clamped(S, neighbor);
      return On, neighbor, i';
    }

    method AtNearLink(S: Side, hint: Hint, b: int) returns (o: Search, b': int, i': int)
      requires Shape() && b in h.pos && Typ(mem, b, NearValue(S)) == FarType(S)
      ensures Searched(S, hint, b, NearLink(S), o, b', i')
    {
      assert NodeOk(h, b);
      var slot := Load(b, NearLink(S));
      if slot.typ == NearType(S) {
        var next := Load(b, NearLink(S) + Dir(S));
        if next.typ == FarType(S) { return Found, b, NearLink(S); }
        return On, b, NearLink(S) + Dir(S);
      }
      var neighbor := slot.word;
      NearNeighbour(h, S, b);
      if hint.count != hints[S].count { return Changed, b, NearLink(S); }
      var far := Load(neighbor, FarValue(S));
      if far.typ != FarType(S) { return Found, neighbor, FarValue(S); }
      assert false;
    }

    method AtValue(S: Side, hint: Hint, b: int, i: int) returns (o: Search, b': int, i': int)
      requires Shape() && b in h.pos && 1 <= i <= N - 2
      ensures Searched(S, hint, b, i, o, b', i')
    {
      assert NodeOk(h, b);
      var slot := Load(b, i);
      if slot.typ == FarType(S) { return On, b, i - Dir(S); }
      if slot.typ == SEALED {
        o, b', i' := AtSeal(S, hint, b, i);
        return;
      }
      var next := Load(b, i + Dir(S));
      if next.typ == FarType(S) { return Found, b, i; }
      return On, b, i + Dir(S);
    }

    method AtSeal(S: Side, hint: Hint, b: int, i: int) returns (o: Search, b': int, i': int)
      requires Shape() && b in h.pos && 1 <= i <= N - 2 && Typ(mem, b, i) == SEALED
      ensures Searched(S, hint, b, i, o, b', i')
    {
      assert NodeOk(h, b);
      assert PairOk(mem, b, i);
      if i == FarValue(S) {
        var link := Load(b, FarLink(S));
        var neighbor := link.word;
        SealedNeighbour(h, Opp(S), b);
        if hint.count != hints[S].count { return Changed, b, i; }
        var far := Load(neighbor, NearValue(S));
        if far.typ == FarType(S) { return Found, b, i; }
        i' := Clamped(S, neighbor);
        return On, neighbor, i';
      }
      var link := Load(b, NearLink(S));
      var neighbor := link.word;
      SealedNeighbour(h, S, b);
      NearNeighbour(h, S, b);
      if hint.count != hints[S].count { return Changed, b, i; }
      var far := Load(neighbor, FarValue(S));
      if far.typ == NearType(S) || far.typ == VALUE { return Found, neighbor, FarValue(S); }
      assert false;
    }

    /** From any hinted buffer of the chain and any local hints, the search ends at the far edge unless the hint has changed. */
    method FindEdge(S: Side, hint: Hint) returns (found: bool, b: int, i: int)
      requires Shape() && hint.buf in h.pos
      ensures found ==> FarEdge(h, S, b, i) && OFSearch.Found(mem, S, hint.buf, b, i)
      ensures !found ==> hint.count != hints[S].count
    {
      b := hint.buf;
      i := Clamped(S, b);
      var o := On;
      while o == On
        invariant o == On ==> Reached(h, S, b, i)
        invariant o == Found ==> FarEdge(h, S, b, i)
        invariant o == Changed ==> hint.count != hints[S].count
        decreases if o == On then (End(h, S) - h.pos[b]) * Dir(S) else -1, Left(mem, S, b, i)
      {
        if i == FarLink(S) {
          o, b, i := AtFarLink(S, hint, b);
        } else if i == NearLink(S) {
          o, b, i := AtNearLink(S, hint, b);
        } else {
          o, b, i := AtValue(S, hint, b, i);
        }
      }
      found := o == Found;
      FoundIff(h, S, hint.buf, b, i);
    }

    method Oracle(S: Side) returns (hint: Hint, b: int, i: int)
      requires Valid()
      ensures hint == hints[S] && FarEdge(h, S, b, i)
    {
      var found := false;
      hint, b, i := hints[S], hints[S].buf, 0;
      while !found
        invariant found ==> hint == hints[S] && FarEdge(h, S, b, i)
        decreases !found
      {
        hint := hints[S];
        found, b, i := FindEdge(S, hint);
      }
    }

    // -------------------------------------------------------------- global hints and retirement

    /** The value slot that is sealed, or -1. Running alone, the re-read of the count always agrees. */
    method IsSealed(b: int) returns (k: int)
      ensures k == -1 <==> Unsealed(mem, b)
      ensures k != -1 ==> (k == 1 || k == N - 2) && Typ(mem, b, k) == SEALED
    {
      var n0 := Load(b, 1);
      var n1 := Load(b, N - 2);
      k := if n0.typ == SEALED then 1 else if n1.typ == SEALED then N - 2 else -1;
    }

    ghost predicate HintLeads(b: int)
      reads this
    {
      b in h.pos || Leads(h, LeftSide, b) || Leads(h, RightSide, b)
    }

    /** One step over the link beside a seal reaches an unsealed buffer of the chain. */
    method FindActiveBuffer(S: Side, hint: Hint) returns (found: bool, b: int)
      requires Shape() && HintLeads(hint.buf)
      ensures found ==> b in h.pos && Unsealed(mem, b)
      ensures !found ==> hint.count != hints[S].count
    {
      b := hint.buf;
      while true
        invariant HintLeads(b)
        decreases !Unsealed(mem, b)
      {
        var k := IsSealed(b);
        if k == -1 { return true, b; }
        var slot;
        if k == FarValue(S) { slot := Load(b, FarLink(S)); } else { slot := Load(b, NearLink(S)); }
        if hint.count != hints[S].count { return false, b; }
        if b in h.pos { SealedNeighbour(h, if k == FarValue(S) then Opp(S) else S, b); }
        b := slot.word;
      }
    }

    method UpdateHint(S: Side)
      requires Shape() && HintLeads(hints[S].buf)
      modifies `hints
      ensures Shape() && hints[S].buf in h.pos && Unsealed(mem, hints[S].buf)
      ensures hints[Opp(S)] == old(hints[Opp(S)])
    {
      var threshold := hints[S].count;
      var done := false;
      while !done
        invariant Shape() && HintLeads(hints[S].buf) && hints[Opp(S)] == old(hints[Opp(S)])
        invariant done ==> hints[S].buf in h.pos && Unsealed(mem, hints[S].buf)
        decreases !done
      {
        var hint := hints[S];
        var k := IsSealed(hint.buf);
        if k == -1 {
          if hint.count > threshold {
            done := true;
          } else {
            done := CasHint(S, hint, Hint(hint.buf, hint.count + 1));
          }
        } else {
          var found, b := FindActiveBuffer(S, hint);
          if found { done := CasHint(S, hint, Hint(b, hint.count + 1)); }
        }
      }
    }

    method Retire(c: int)
      requires Shape() && HintLeads(hints[LeftSide].buf) && HintLeads(hints[RightSide].buf)
      modifies `hints, `retired
      ensures Valid() && HintsUnsealed() && retired == old(retired) + [c]
    {
      UpdateHint(LeftSide);
      UpdateHint(RightSide);
      retired := retired + [c];
      forall S: Side ensures S in hints && hints[S].buf in h.pos && Unsealed(mem, hints[S].buf) {
        if S == LeftSide {}
      }
    }

    method MoveLocalHint(S: Side, b: int, shift: int)
      modifies `local
    {
      local := local[(S, b) := (if (S, b) in local then local[(S, b)] else 0) + shift];
    }

    /** The swing of a global hint that ends an operation across a border. */
    method MoveHint(S: Side, hint: Hint, b: int)
      requires Valid() && b in h.pos && Unsealed(mem, b)
      modifies `hints
      ensures Valid() && (old(HintsUnsealed()) ==> HintsUnsealed())
    {
      var won := CasHint(S, hint, Hint(b, hint.count + 1));
    }

    // -------------------------------------------------------------- push

    /** The first half of every operation: the guard's counter moves and nothing else does. */
    /** The history follows a swap of slot l. */
    ghost method Adopt(h': Heap, l: Loc, s: Slot)
      requires WF(h') && h'.mem == mem == h.mem[l := s] && h'.bufs == h.bufs && l.buf in h.bufs && CachesOk(h) && forall S :: S in hints
      modifies `h
      ensures Shape() && h == h'
    {
      CachesFrame(h, h', l, s);
      h := h';
    }

    method Guard(b: int, i: int, exp: Slot) returns (ok: bool)
      requires Valid() && b in h.bufs && 0 <= i < N && exp == At(mem, b, i)
      modifies `mem, `h
      ensures ok && Valid() && Abs(h) == old(Abs(h)) && h == old(h).(mem := mem)
      ensures mem == old(mem)[Loc(b, i) := exp.(count := exp.count + 1)]
      ensures old(HintsUnsealed()) ==> HintsUnsealed()
    {
      ok := CasSafe(b, i, exp);
      ghost var s := exp.(count := exp.count + 1);
      BumpMove(h, Loc(b, i), s);
      Adopt(Put(h, Loc(b, i), s), Loc(b, i), s);
    }

    /** A push into the slot next to the edge, which lies `at` the slot t of buffer c, guarded by slot i of b. */
    method PushInto(S: Side, v: int, b: int, i: int, near: Slot, c: int, t: int, target: Slot) returns (done: bool)
      requires Valid() && b in h.bufs && 0 <= i < N && c in h.bufs && 1 <= t < N - 1
      requires near == At(mem, b, i) && target == At(mem, c, t) && Loc(b, i) != Loc(c, t)
      requires target.typ == FarType(S) && Typ(mem, c, t - Dir(S)) != FarType(S) && Typ(mem, c, t - Dir(S)) != SEALED
      modifies `mem, `h
      ensures done && Valid() && Abs(h) == Add(S, old(Abs(h)), v) && h.pos == old(h.pos)
      ensures forall x, k :: Typ(mem, x, k) == if x == c && k == t then VALUE else Typ(old(mem), x, k)
      ensures old(HintsUnsealed()) ==> HintsUnsealed()
    {
      done := Guard(b, i, near);
      if done { done := ValueSwap(S, v, c, t, target); }
    }

    /** The second swap of a push. */
    method ValueSwap(S: Side, v: int, c: int, t: int, target: Slot) returns (done: bool)
      requires Valid() && c in h.bufs && 1 <= t < N - 1 && target == At(mem, c, t)
      requires target.typ == FarType(S) && Typ(mem, c, t - Dir(S)) != FarType(S) && Typ(mem, c, t - Dir(S)) != SEALED
      modifies `mem, `h
      ensures done && Valid() && Abs(h) == Add(S, old(Abs(h)), v) && h.pos == old(h.pos)
      ensures forall x, k :: Typ(mem, x, k) == if x == c && k == t then VALUE else Typ(old(mem), x, k)
    {
      done := CasValue(c, t, target, v);
      ghost var s' := Slot(VALUE, v, target.count + 1);
      PushMove(h, S, c, t, s');
      Adopt(Put(h, Loc(c, t), s'), Loc(c, t), s');
    }

    /** A store to a buffer that is not published. */
    method Store(d: int, i: int, s: Slot)
      requires WF(h) && h.mem == mem && d !in h.bufs
      modifies `mem, `h
      ensures WF(h) && Abs(h) == old(Abs(h)) && h == old(h).(mem := mem) && mem == old(mem)[Loc(d, i) := s]
    {
      PrivatePut(h, Loc(d, i), s);
      mem := mem[Loc(d, i) := s];
      h := h.(mem := mem);
    }

    /** The loop over the slots of a new buffer; counts and words are whatever the memory held. */
    method Fill(S: Side, d: int)
      requires WF(h) && h.mem == mem && d !in h.bufs
      modifies `mem, `h
      ensures WF(h) && Abs(h) == old(Abs(h)) && h == old(h).(mem := mem)
      ensures forall l: Loc :: l.buf != d ==> (l in mem <==> l in old(mem)) && (l in mem ==> mem[l] == old(mem)[l])
      ensures forall k :: 0 <= k < N ==> Loc(d, k) in mem && Typ(mem, d, k) == FarType(S)
    {
      var i := 0;
      while i < N
        invariant 0 <= i <= N && h == old(h).(mem := mem) && WF(h) && Abs(h) == old(Abs(h))
        invariant forall l: Loc :: l.buf != d ==> (l in mem <==> l in old(mem)) && (l in mem ==> mem[l] == old(mem)[l])
        invariant forall k :: 0 <= k < i ==> Loc(d, k) in mem && Typ(mem, d, k) == FarType(S)
      {
        var s: Slot := *;
        s := s.(typ := FarType(S));
        Store(d, i, s);
        i := i + 1;
      }
    }

    /** A fresh buffer of far-typed slots for the cache. */
    method AllocBuffer(S: Side) returns (d: int)
      requires Valid() && cache[S] == None
      modifies `mem, `h, `local, `cache, `nextBuffer
      ensures Valid() && cache[S] == Some(d) && Abs(h) == old(Abs(h)) && h == old(h).(mem := mem)
      ensures forall x, k :: x in h.bufs ==> At(mem, x, k) == At(old(mem), x, k)
    {
      d := nextBuffer;
      nextBuffer := nextBuffer + 1;
      local := local[(LeftSide, d) := NearValue(S)];
      local := local[(RightSide, d) := NearValue(S)];
      Fill(S, d);
      if cache[Opp(S)].Some? { assert CachedOk(h, Opp(S), cache[Opp(S)].value); }
      cache := cache[S := Some(d)];
      forall T | cache[T].Some? ensures CachedOk(h, T, cache[T].value) {}
    }

    /** Pre-inserts the back link and the value; their counts are whatever the stack held. */
    method Prepare(S: Side, d: int, b: int, v: int)
      requires Valid() && cache[S] == Some(d) && b in h.bufs
      modifies `mem, `h
      ensures Valid() && Abs(h) == old(Abs(h)) && h == old(h).(mem := mem)
      ensures Prepared(Slice(mem, d), S, b, d, v)
      ensures forall x, k :: x in h.bufs ==> At(mem, x, k) == At(old(mem), x, k)
    {
      var c1: nat := *;
      var c2: nat := *;
      var s1 := Slot(VALUE, b, c1);
      var s2 := Slot(VALUE, v, c2);
      Store(d, NearLink(S), s1);
      Store(d, NearValue(S), s2);
      forall T | cache[T].Some? ensures CachedOk(h, T, cache[T].value) {
        assert CachedOk(old(h), T, cache[T].value);
      }
    }

    /** The link to the prepared buffer: the compare-and-swap that makes it part of the chain. */
    method Publish(S: Side, v: int, b: int, d: int, far: Slot) returns (done: bool)
      requires Valid() && cache[S] == Some(d) && b in h.pos
      requires far == At(mem, b, FarLink(S)) && far.typ == FarType(S) && Typ(mem, b, FarValue(S)) != FarType(S)
      requires Prepared(Slice(mem, d), S, b, d, v)
      modifies `mem, `h, `cache
      ensures done && Valid() && Abs(h) == Add(S, old(Abs(h)), v) && d in h.pos && Unsealed(mem, d)
      ensures old(HintsUnsealed()) ==> HintsUnsealed()
    {
      ghost var s := Slot(VALUE, d, far.count + 1);
      Linked(S, v, b, d, s);
      done := LinkSwap(S, b, d, far, Grow(h, S, b, d, s, Slice(mem, d)));
    }

    /** The swap of the link slot puts the cached buffer d into the chain, which is h' then. */
    method LinkSwap(S: Side, b: int, d: int, far: Slot, ghost h': Heap) returns (done: bool)
      requires Valid() && cache[S] == Some(d) && far == At(mem, b, FarLink(S))
      requires WF(h') && h'.mem == mem[Loc(b, FarLink(S)) := Slot(VALUE, d, far.count + 1)] && h'.bufs == h.bufs + {d}
      requires (forall x :: x in h.pos ==> x in h'.pos) && forall T :: T != S && cache[T].Some? ==> CachedOk(h', T, cache[T].value)
      modifies `mem, `h, `cache
      ensures done && Valid() && h == h'
    {
      done := CasLink(b, FarLink(S), far, d);
      if done {
        h := h';
        cache := cache[S := None];
      }
    }

    lemma Linked(S: Side, v: int, b: int, d: int, s: Slot)
      requires Valid() && cache[S] == Some(d) && b in h.pos && s.typ == VALUE && s.word == d
      requires Typ(mem, b, FarLink(S)) == FarType(S) && Typ(mem, b, FarValue(S)) != FarType(S)
      requires Prepared(Slice(mem, d), S, b, d, v)
      ensures var h' := Grow(h, S, b, d, s, Slice(mem, d));
              && WF(h') && Abs(h') == Add(S, Abs(h), v) && h'.mem == mem[Loc(b, FarLink(S)) := s]
              && h'.pos == h.pos[d := End(h', S)] && h'.bufs == h.bufs + {d}
              && (forall T :: T != S && cache[T].Some? ==> CachedOk(h', T, cache[T].value))
              && Unsealed(h'.mem, d) && (forall x :: Unsealed(mem, x) ==> Unsealed(h'.mem, x))
    {
      AppendMove(h, S, b, d, v, s, Slice(mem, d));
      GrowMem(h, S, b, d, s);
      AppendCaches(S, b, d, s);
      AppendUnsealed(mem, S, b, d, v, s);
    }

    lemma AppendCaches(S: Side, b: int, d: int, s: Slot)
      requires CachesOk(h) && cache[S] == Some(d) && b in h.bufs
      ensures forall T :: T != S && cache[T].Some? ==> CachedOk(Grow(h, S, b, d, s, Slice(h.mem, d)), T, cache[T].value)
    {
      GrowMem(h, S, b, d, s);
      forall T | T != S && cache[T].Some? ensures CachedOk(Grow(h, S, b, d, s, Slice(h.mem, d)), T, cache[T].value) {
        CachedFrame(h, h.(mem := h.mem[Loc(b, FarLink(S)) := s]), Loc(b, FarLink(S)), s, T, cache[T].value);
      }
    }

    /** The cached buffer, allocated if there is none, ready to be linked. */
    method GetBuffer(S: Side, b: int, v: int) returns (d: int)
      requires Valid() && b in h.pos
      modifies `mem, `h, `local, `cache, `nextBuffer
      ensures Valid() && cache[S] == Some(d) && Abs(h) == old(Abs(h)) && h == old(h).(mem := mem)
      ensures Prepared(Slice(mem, d), S, b, d, v)
      ensures forall k :: At(mem, b, k) == At(old(mem), b, k)
      ensures old(HintsUnsealed()) ==> HintsUnsealed()
    {
      if cache[S] == None { d := AllocBuffer(S); } else { d := cache[S].value; }
      Prepare(S, d, b, v);
    }

    method Append(S: Side, v: int, hint: Hint, b: int, near: Slot, far: Slot) returns (done: bool)
      requires Valid() && b in h.pos
      requires near == At(mem, b, FarValue(S)) && far == At(mem, b, FarLink(S))
      requires far.typ == FarType(S) && near.typ != FarType(S)
      modifies this
      ensures done && Valid() && Abs(h) == Add(S, old(Abs(h)), v)
      ensures old(HintsUnsealed()) ==> HintsUnsealed()
    {
      var d := GetBuffer(S, b, v);
      SliceFrame(mem, d, Loc(b, FarValue(S)), near.(count := near.count + 1));
      done := Guard(b, FarValue(S), near);
      if done {
        done := Publish(S, v, b, d, far);
        MoveHint(S, hint, d);
      }
    }

    /** Unlinks the sealed last buffer c and retires it; the pushing and the popping thread do the same. */
    method Unlink(S: Side, b: int, near: Slot, far: Slot, word: int) returns (ok: bool)
      requires Valid() && b in h.pos && near == At(mem, b, FarValue(S)) && far == At(mem, b, FarLink(S))
      requires far.typ == VALUE && Typ(mem, far.word, NearValue(S)) == SEALED && IsLink(mem, far.word, NearLink(S), b)
      modifies this
      ensures ok && Valid() && HintsUnsealed() && Abs(h) == old(Abs(h)) && b in h.pos && !EndSealed(h, S)
      ensures retired == old(retired) + [far.word]
      ensures At(mem, b, FarValue(S)) == near.(count := near.count + 1) && near.typ != SEALED
      ensures At(mem, b, FarLink(S)) == Slot(FarType(S), word, far.count + 1)
    {
      ok := Guard(b, FarValue(S), near);
      if ok {
        ok := UnlinkSwap(S, b, far, word);
        Retire(far.word);
      }
    }

    /** The swap of the link; until `retire` a hint may still name the buffer that it removes. */
    method UnlinkSwap(S: Side, b: int, far: Slot, word: int) returns (ok: bool)
      requires Valid() && b in h.pos && far == At(mem, b, FarLink(S)) && far.typ == VALUE
      requires Typ(mem, far.word, NearValue(S)) == SEALED && IsLink(mem, far.word, NearLink(S), b)
      modifies `mem, `h
      ensures ok && Shape() && Abs(h) == old(Abs(h)) && b in h.pos && !EndSealed(h, S)
      ensures forall T: Side :: T in hints && HintLeads(hints[T].buf)
      ensures mem == old(mem)[Loc(b, FarLink(S)) := Slot(FarType(S), word, far.count + 1)]
      ensures Typ(mem, b, FarValue(S)) != SEALED
    {
      ok := CasType(b, FarLink(S), far, FarType(S), word);
      ghost var s := Slot(FarType(S), word, far.count + 1);
      AfterUnlink(h, S, b, far.word, s);
      UnlinkMove(h, S, b, far.word, s);
      Adopt(Shrink(h, S, b, far.word, s), Loc(b, FarLink(S)), s);
    }

    /** The edge lies across the border: push into the empty neighbour, or help to remove it if it is sealed. */
    method PushAcross(S: Side, v: int, hint: Hint, b: int, near: Slot, far: Slot) returns (done: bool)
      requires Valid() && BorderEdge(h, S, b, FarValue(S)) && near == At(mem, b, FarValue(S)) && far == At(mem, b, FarLink(S))
      modifies this
      ensures Valid() && Abs(h) == (if done then Add(S, old(Abs(h)), v) else old(Abs(h)))
      ensures done <==> !old(EndSealed(h, S))
      ensures !done ==> !EndSealed(h, S)
      ensures old(HintsUnsealed()) ==> HintsUnsealed()
    {
      BorderAtEnd(h, S, b, FarValue(S));
      SealedEdge(h, S, b, FarValue(S));
      var neighbor := far.word;
      var reach := Load(neighbor, NearValue(S));
      var back := Load(neighbor, NearLink(S));
      done := false;
      if back.word == b {
        if reach.typ == FarType(S) {
          EndUnsealed(h, S, neighbor);
          done := PushInto(S, v, b, FarValue(S), near, neighbor, NearValue(S), reach);
          if done { MoveHint(S, hint, neighbor); }
        } else if reach.typ == SEALED {
          var word: int := *;
          var ok := Unlink(S, b, near, far, word);
        }
      }
    }

    /** One pass of the push loop at the edge the oracle gave. */
    method PushAt(S: Side, v: int, hint: Hint, b: int, i: int) returns (done: bool)
      requires Valid() && FarEdge(h, S, b, i)
      modifies this
      ensures Valid() && Abs(h) == (if done then Add(S, old(Abs(h)), v) else old(Abs(h)))
      ensures done <==> !old(EndSealed(h, S))
      ensures !done ==> !EndSealed(h, S)
      ensures old(HintsUnsealed()) ==> HintsUnsealed()
    {
      SealedEdge(h, S, b, i);
      FarEdgeOk(h, S, b, i);
      var near := Load(b, i);
      var far := Load(b, i + Dir(S));
      done := false;
      if EdgeOk(S, i, near.typ, far.typ) {
        if i != FarValue(S) {
          done := PushInto(S, v, b, i, near, b, i + Dir(S), far);
          if done { MoveLocalHint(S, b, Dir(S)); }
        } else if far.typ == FarType(S) {
          done := Append(S, v, hint, b, near, far);
        } else {
          done := PushAcross(S, v, hint, b, near, far);
        }
      }
    }

    /** A push running alone ends in one pass, or in two when it first has to remove a sealed last buffer. */
    method DoPush(S: Side, v: int) returns (ghost passes: nat)
      requires Valid()
      modifies this
      ensures Valid() && Abs(h) == Add(S, old(Abs(h)), v)
      ensures passes == if old(EndSealed(h, S)) then 2 else 1
      ensures old(HintsUnsealed()) ==> HintsUnsealed()
    {
      passes := 0;
      var done := false;
      while !done
        invariant Valid() && Abs(h) == if done then Add(S, old(Abs(h)), v) else old(Abs(h))
        invariant passes + (if done then 0 else if EndSealed(h, S) then 2 else 1) == if old(EndSealed(h, S)) then 2 else 1
        invariant old(HintsUnsealed()) ==> HintsUnsealed()
        decreases !done, EndSealed(h, S)
      {
        var hint, b, i := Oracle(S);
        done := PushAt(S, v, hint, b, i);
        passes := passes + 1;
      }
    }

    // -------------------------------------------------------------- pop

    /** Takes the value next to the edge: bumps the far slot, then makes the near slot far-typed. */
    method TakeFrom(S: Side, b: int, i: int, near: Slot, far: Slot) returns (done: bool)
      requires Valid() && b in h.pos && 1 <= i < N - 1 && near == At(mem, b, i) && near.typ == VALUE
      requires far.typ == FarType(S) && Typ(mem, b, i + Dir(S)) == FarType(S)
      modifies `mem, `h
      ensures Valid() && h.pos == old(h.pos) && (done <==> At(old(mem), b, i + Dir(S)) == far)
      ensures done ==> old(Abs(h)) == Add(S, Abs(h), near.word)
      ensures !done ==> h == old(h) && mem == old(mem)
      ensures forall x :: Unsealed(old(mem), x) ==> Unsealed(mem, x)
      ensures hints == old(hints)
    {
      done := CasSafe(b, i + Dir(S), far);
      if done {
        ghost var s := far.(count := far.count + 1);
        BumpMove(h, Loc(b, i + Dir(S)), s);
        Adopt(Put(h, Loc(b, i + Dir(S)), s), Loc(b, i + Dir(S)), s);
        done := TakeSwap(S, b, i, near);
      }
    }

    method TakeSwap(S: Side, b: int, i: int, near: Slot) returns (done: bool)
      requires Valid() && b in h.pos && 1 <= i < N - 1 && near == At(mem, b, i) && near.typ == VALUE && Typ(mem, b, i + Dir(S)) == FarType(S)
      modifies `mem, `h
      ensures done && Valid() && h.pos == old(h.pos) && old(Abs(h)) == Add(S, Abs(h), near.word)
      ensures forall x :: Unsealed(old(mem), x) ==> Unsealed(mem, x)
    {
      var word: int := *;
      done := CasType(b, i, near, FarType(S), word);
      ghost var s := Slot(FarType(S), word, near.count + 1);
      PopMove(h, S, b, i, s);
      Adopt(Put(h, Loc(b, i), s), Loc(b, i), s);
    }

    /** What a pass of the pop loop did: an answer found the deque so, no answer left it unchanged. */
    ghost predicate PopOk(S: Side, q: seq<int>, q': seq<int>, done: bool, result: Option<int>) {
      if !done || result == None then q' == q && (done ==> q == []) else q == Add(S, q', result.value)
    }

    method PopInside(S: Side, b: int, i: int, near: Slot, far: Slot) returns (done: bool, result: Option<int>)
      requires Valid() && InnerEdge(h, S, b, i) && i != FarValue(S)
      requires near == At(mem, b, i) && far == At(mem, b, i + Dir(S))
      modifies this
      ensures done && Valid() && PopOk(S, old(Abs(h)), Abs(h), done, result)
      ensures old(HintsUnsealed()) ==> HintsUnsealed()
    {
      var again := Load(b, i);
      if near.typ == NearType(S) && again.count == near.count {
        EmptyInside(h, S, b, i);
        return true, None;
      }
      assert NodeOk(h, b);
      done := TakeFrom(S, b, i, near, far);
      if done { MoveLocalHint(S, b, -Dir(S)); }
      result := Some(near.word);
    }

    /** At the last value slot with nothing beyond; `far` is what the caller knows of the link slot. */
    method PopBoundary(S: Side, hint: Hint, b: int, near: Slot, far: Slot) returns (done: bool, result: Option<int>)
      requires Valid() && InnerEdge(h, S, b, FarValue(S)) && near == At(mem, b, FarValue(S)) && far.typ == FarType(S)
      modifies this
      ensures Valid() && PopOk(S, old(Abs(h)), Abs(h), done, result)
      ensures done <==> near.typ == NearType(S) || At(old(mem), b, FarLink(S)) == far
      ensures !done ==> InnerEdge(h, S, b, FarValue(S))
      ensures result == (if done && near.typ == VALUE then Some(near.word) else None)
      ensures old(HintsUnsealed()) ==> HintsUnsealed()
    {
      var again := Load(b, FarValue(S));
      result := None;
      if near.typ == NearType(S) && again.count == near.count {
        EmptyInside(h, S, b, FarValue(S));
        return true, None;
      }
      InnerAtEnd(h, S, b, FarValue(S));
      SealedEdge(h, S, b, FarValue(S));
      EndUnsealed(h, S, b);
      done := TakeFrom(S, b, FarValue(S), near, far);
      if done {
        MoveHint(S, hint, b);
        result := Some(near.word);
      }
    }

    /** Seals the empty neighbour c of an unsealed buffer. */
    method Seal(S: Side, b: int, near: Slot, c: int, reach: Slot) returns (sealed: bool)
      requires Valid() && b in h.pos && near == At(mem, b, FarValue(S)) && near.typ != SEALED
      requires IsLink(mem, b, FarLink(S), c) && reach == At(mem, c, NearValue(S)) && reach.typ == FarType(S)
      modifies `mem, `h
      ensures sealed && Valid() && Abs(h) == old(Abs(h)) && h == old(h).(mem := mem)
      ensures At(mem, b, FarValue(S)) == near.(count := near.count + 1) && Typ(mem, c, NearValue(S)) == SEALED
      ensures At(mem, b, FarLink(S)) == At(old(mem), b, FarLink(S)) && IsLink(mem, c, NearLink(S), b)
    {
      LinkedNeighbour(h, S, b, c);
      sealed := Guard(b, FarValue(S), near);
      if sealed { sealed := SealSwap(S, b, c, reach); }
    }

    method SealSwap(S: Side, b: int, c: int, reach: Slot) returns (sealed: bool)
      requires Valid() && b in h.pos && Typ(mem, b, FarValue(S)) != SEALED
      requires IsLink(mem, b, FarLink(S), c) && reach == At(mem, c, NearValue(S)) && reach.typ == FarType(S)
      modifies `mem, `h
      ensures sealed && Valid() && Abs(h) == old(Abs(h)) && h == old(h).(mem := mem)
      ensures Typ(mem, c, NearValue(S)) == SEALED && forall l :: l != Loc(c, NearValue(S)) ==> At(mem, l.buf, l.idx) == At(old(mem), l.buf, l.idx)
    {
      var word: int := *;
      LinkedNeighbour(h, S, b, c);
      sealed := CasType(c, NearValue(S), reach, SEALED, word);
      ghost var s := Slot(SEALED, word, reach.count + 1);
      SealMove(h, S, b, c, s);
      Adopt(Put(h, Loc(c, NearValue(S)), s), Loc(c, NearValue(S)), s);
    }

    /** The sealed neighbour goes, then the value at the border; the local copy of the link slot keeps the old link word. */
    method UnlinkAndPop(S: Side, hint: Hint, b: int, near: Slot, far: Slot, word: int) returns (done: bool, result: Option<int>)
      requires Valid() && b in h.pos && near == At(mem, b, FarValue(S)) && far == At(mem, b, FarLink(S)) && near.typ == VALUE
      requires far.typ == VALUE && Typ(mem, far.word, NearValue(S)) == SEALED && IsLink(mem, far.word, NearLink(S), b)
      modifies this
      ensures Valid() && HintsUnsealed() && PopOk(S, old(Abs(h)), Abs(h), done, result)
      ensures done <==> word == far.word
      ensures done ==> result == Some(near.word)
      ensures !done ==> InnerEdge(h, S, b, FarValue(S))
    {
      var near', far' := near, far;
      var ok := Unlink(S, b, near, far, word);
      if ok {
        far' := far'.(typ := FarType(S), count := far'.count + 1);
        near' := near'.(count := near'.count + 1);
        done, result := PopBoundary(S, hint, b, near', far');
      }
    }

    method PopAcross(S: Side, hint: Hint, b: int, near: Slot, far: Slot, word: int) returns (done: bool, result: Option<int>)
      requires Valid() && BorderEdge(h, S, b, FarValue(S)) && near == At(mem, b, FarValue(S)) && far == At(mem, b, FarLink(S))
      modifies this
      ensures Valid() && PopOk(S, old(Abs(h)), Abs(h), done, result)
      ensures done <==> old(Abs(h)) == [] || word == far.word
      ensures !done ==> InnerEdge(h, S, b, FarValue(S))
      ensures old(HintsUnsealed()) ==> HintsUnsealed()
    {
      BorderAtEnd(h, S, b, FarValue(S));
      NearNeighbour(h, S, far.word);
      var near' := near;
      var neighbor := far.word;
      var reach := Load(neighbor, NearValue(S));
      var back := Load(neighbor, NearLink(S));
      done, result := false, None;
      if near.typ == VALUE { ValueMeansNonEmpty(h, b, FarValue(S)); } else { EmptyAcross(h, S, b, neighbor); }
      if back.word == b {
        if reach.typ == FarType(S) {
          var again := Load(b, FarValue(S));
          if (near.typ == NearType(S) || near.typ == SEALED) && near.count == again.count {
            return true, None;
          }
          var sealed := Seal(S, b, near, neighbor, reach);
          if sealed {
            reach := reach.(typ := SEALED, count := reach.count + 1);
            near' := near'.(count := near'.count + 1);
          }
        }
        if reach.typ == SEALED {
          var again := Load(b, FarValue(S));
          if near'.typ == NearType(S) && near'.count == again.count {
            return true, None;
          }
          done, result := UnlinkAndPop(S, hint, b, near', far, word);
        }
      }
    }

    /** One pass of the pop loop at the edge the oracle gave. */
    method PopAt(S: Side, hint: Hint, b: int, i: int, word: int) returns (done: bool, result: Option<int>)
      requires Valid() && FarEdge(h, S, b, i)
      modifies this
      ensures Valid() && PopOk(S, old(Abs(h)), Abs(h), done, result)
      ensures done <==> !old(EmptyEnd(h, S)) || old(Abs(h)) == [] || word == old(h.at[End(h, S)])
      ensures !done ==> !EmptyEnd(h, S)
      ensures old(HintsUnsealed()) ==> HintsUnsealed()
    {
      BorderMeansEmptyEnd(h, S, b, i);
      FarEdgeOk(h, S, b, i);
      var near := Load(b, i);
      var far := Load(b, i + Dir(S));
      done, result := false, None;
      if EdgeOk(S, i, near.typ, far.typ) {
        if i != FarValue(S) {
          done, result := PopInside(S, b, i, near, far);
        } else if far.typ != FarType(S) {
          done, result := PopAcross(S, hint, b, near, far, word);
          if !done { BorderMeansEmptyEnd(h, S, b, i); }
        } else {
          done, result := PopBoundary(S, hint, b, near, far);
        }
      }
    }

    /**
     * A pop running alone answers with the end of the deque, or None if there is none.
     * It makes a second pass just when it had to remove the last buffer and `casType` left another word than the old link
     * there; `word` is what `casType` leaves when this pop unlinks a buffer.
     */
    method DoPop(S: Side, word: int) returns (result: Option<int>, ghost passes: nat)
      requires Valid()
      modifies this
      ensures Valid() && PopOk(S, old(Abs(h)), Abs(h), true, result)
      ensures passes == if old(EmptyEnd(h, S) && Abs(h) != []) && word != old(h.at[End(h, S)]) then 2 else 1
      ensures old(HintsUnsealed()) ==> HintsUnsealed()
    {
      passes, result := 0, None;
      var done := false;
      while !done
        invariant Valid() && PopOk(S, old(Abs(h)), Abs(h), done, result)
        invariant passes == 0 ==> !done && h == old(h)
        invariant passes > 0 && !done ==>
            passes == 1 && !EmptyEnd(h, S) && old(EmptyEnd(h, S) && Abs(h) != []) && word != old(h.at[End(h, S)])
        invariant done ==> passes == if old(EmptyEnd(h, S) && Abs(h) != []) && word != old(h.at[End(h, S)]) then 2 else 1
        invariant old(HintsUnsealed()) ==> HintsUnsealed()
        decreases !done, EmptyEnd(h, S)
      {
        var hint, b, i := Oracle(S);
        done, result := PopAt(S, hint, b, i, word);
        passes := passes + 1;
      }
    }
  }

  // ---------------------------------------------------------------- the second pass happens

  /** A value at the right end of buffer 0, and an empty buffer 1 linked behind it. */
  function PairSlot(b: int, i: int, v: int): Slot {
    if b == 0 then (if i < N - 2 then Slot(LEFT, 0, 0) else if i == N - 2 then Slot(VALUE, v, 0) else Slot(VALUE, 1, 0))
    else if i == 0 then Slot(VALUE, 0, 0) else Slot(RIGHT, 0, 0)
  }

  ghost predicate IsPair(h: Heap, v: int) {
    && h.bufs == {0, 1} && h.pos == map[0 := 0, 1 := 1] && h.at == map[0 := 0, 1 := 1] && h.lo == 0 && h.hi == 1
    && forall b, i {:trigger Loc(b, i)} :: (b == 0 || b == 1) && 0 <= i < N ==> Loc(b, i) in h.mem && h.mem[Loc(b, i)] == PairSlot(b, i, v)
  }

  lemma PairNodes(h: Heap, v: int)
    requires IsPair(h, v)
    ensures WF(h) && EmptyEnd(h, RightSide)
  {
    forall b, i | (b == 0 || b == 1) && 0 <= i < N ensures At(h.mem, b, i) == PairSlot(b, i, v) { assert Loc(b, i) in h.mem; }
    forall b | b in h.bufs ensures NodeOk(h, b) {
      forall i | 0 <= i < N - 1 ensures PairOk(h.mem, b, i) {
        assert At(h.mem, b, i) == PairSlot(b, i, v) && At(h.mem, b, i + 1) == PairSlot(b, i + 1, v);
      }
      assert BufferOk(h.mem, b);
    }
  }

  lemma PairContents(h: Heap, v: int)
    requires IsPair(h, v)
    ensures Abs(h) == [v]
  {
    forall b, i | (b == 0 || b == 1) && 0 <= i < N ensures At(h.mem, b, i) == PairSlot(b, i, v) { assert Loc(b, i) in h.mem; }
    ContentsSplit(h.mem, h.at, 0, 1, 1);
    ContentsOne(h, 0);
    ContentsOne(h, 1);
    SegmentEmpty(h.mem, 1, 1, N - 1);
    SegmentSplit(h.mem, 0, 1, N - 2, N - 1);
    SegmentEmpty(h.mem, 0, 1, N - 2);
    assert At(h.mem, 0, N - 2) == PairSlot(0, N - 2, v);
    assert Segment(h.mem, 0, N - 1, N - 1) == [];
  }

  lemma PairValid(d: OFDeque, v: int)
    requires d.h.mem == d.mem && IsPair(d.h, v) && d.nextBuffer == 2
    requires d.cache == map[LeftSide := None, RightSide := None] && d.hints == map[LeftSide := Hint(0, 0), RightSide := Hint(1, 0)]
    ensures d.Valid() && EmptyEnd(d.h, RightSide) && Abs(d.h) == [v] && d.h.at[End(d.h, RightSide)] == 1
  {
    forall S: Side ensures S in d.hints && S in d.cache && d.cache[S] == None && d.hints[S].buf in d.h.pos { if S == LeftSide {} }
    PairNodes(d.h, v);
    PairContents(d.h, v);
  }

  method MakePair(v: int) returns (d: OFDeque)
    ensures fresh(d) && d.h.mem == d.mem && IsPair(d.h, v) && d.nextBuffer == 2
    ensures d.cache == map[LeftSide := None, RightSide := None] && d.hints == map[LeftSide := Hint(0, 0), RightSide := Hint(1, 0)]
  {
    d := new OFDeque();
    d.mem := map b, i | b in {0, 1} && 0 <= i < N :: Loc(b, i) := PairSlot(b, i, v);
    d.h := Heap(d.mem, {0, 1}, map[0 := 0, 1 := 1], map[0 := 0, 1 := 1], 0, 1);
    d.hints := map[LeftSide := Hint(0, 0), RightSide := Hint(1, 0)];
    d.cache := map[LeftSide := None, RightSide := None];
    d.nextBuffer := 2;
  }

  /** A pop that runs alone and finds the last buffer empty does make a second pass if `casType` leaves another word. */
  method SecondPass(v: int, word: int) returns (result: Option<int>, ghost passes: nat)
    requires word != 1
    ensures passes == 2 && result == Some(v)
  {
    var d := MakePair(v);
    PairValid(d, v);
    result, passes := d.DoPop(RightSide, word);
    ghost var q := Abs(d.h);
    assert [v] == Add(RightSide, q, result.value) == q + [result.value];
    assert |q| == 0 && (q + [result.value])[0] == [v][0];
  }
}
