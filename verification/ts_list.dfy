/** The thread-local lists of ts_deque_buffer.h: linked items seen from either end, with the taken ones not yet unlinked. */
module TSList {
  import opened DequeSpec

  /** `left` and `right` are links; an item at the end of a walk links to itself. */
  datatype Item = Item(left: int, right: int, taken: bool, data: int, timestamp: int, index: int)

  type Mem = map<int, Item>

  function Link(it: Item, S: Side): int { if S == LeftSide then it.left else it.right }

  function SetLink(it: Item, S: Side, p: int): Item { if S == LeftSide then it.(left := p) else it.(right := p) }

  /** Greater towards side S. */
  function Key(it: Item, S: Side): int { it.index * Dir(S) }

  function InsertedOn(it: Item, S: Side): bool { Key(it, S) > 0 }

  /** `is_more_left` and `is_more_right`. */
  function IsMore(S: Side, a: Item, b: Item): bool {
    if InsertedOn(b, S) then InsertedOn(a, S) && b.timestamp < a.timestamp
    else InsertedOn(a, S) || a.timestamp < b.timestamp
  }

  function At(m: Mem, n: int): Item { if n in m then m[n] else Item(n, n, true, 0, 0, 0) }

  // ---------------------------------------------------------------- walks

  ghost predicate LeadsOn(m: Mem, S: Side, p: seq<int>, i: nat)
    requires i < |p|
  {
    Link(At(m, p[i]), Opp(S)) == p[if i + 1 < |p| then i + 1 else i]
  }

  ghost predicate Falls(m: Mem, S: Side, p: seq<int>, i: nat, j: nat)
    requires i < |p| && j < |p|
  {
    Key(At(m, p[i]), S) > Key(At(m, p[j]), S)
  }

  /** A walk that starts at end S and follows the links away from it to an item that links to itself. */
  ghost predicate Walk(m: Mem, S: Side, p: seq<int>) {
    && |p| > 0
    && (forall i :: 0 <= i < |p| ==> p[i] in m)
    && (forall i {:trigger LeadsOn(m, S, p, i)} :: 0 <= i < |p| ==> LeadsOn(m, S, p, i))
    && (forall i, j {:trigger Falls(m, S, p, i, j)} :: 0 <= i < j < |p| ==> Falls(m, S, p, i, j))
  }

  /** Item i of the live ones, counted from end S. */
  function FromEnd(live: seq<int>, S: Side, i: int): int
    requires 0 <= i < |live|
  {
    if S == LeftSide then live[i] else live[|live| - 1 - i]
  }

  /** The live items lie together on the walk, from place a on. */
  ghost predicate Places(p: seq<int>, a: nat, live: seq<int>, S: Side) {
    a + |live| <= |p| && forall i {:trigger FromEnd(live, S, i)} :: 0 <= i < |live| ==> p[a + i] == FromEnd(live, S, i)
  }

  /** All other items on the walk are taken. */
  ghost predicate TakenBut(m: Mem, p: seq<int>, a: nat, n: nat) {
    forall j :: 0 <= j < |p| ==> (At(m, p[j]).taken <==> j < a || a + n <= j)
  }

  ghost predicate InRange(m: Mem, p: seq<int>, next: int) { forall i :: 0 <= i < |p| ==> -next < At(m, p[i]).index < next }

  /** The walks of one list from either end, where its live items start on each, and the live items from left to right. */
  datatype Buf = Buf(fromLeft: seq<int>, fromRight: seq<int>, skipLeft: nat, skipRight: nat, live: seq<int>)

  function WalkOf(B: Buf, S: Side): seq<int> { if S == LeftSide then B.fromLeft else B.fromRight }
  function SkipOf(B: Buf, S: Side): nat { if S == LeftSide then B.skipLeft else B.skipRight }

  function MakeBuf(S: Side, p: seq<int>, q: seq<int>, a: nat, b: nat, live: seq<int>): Buf {
    if S == LeftSide then Buf(p, q, a, b, live) else Buf(q, p, b, a, live)
  }

  ghost predicate EndOk(m: Mem, B: Buf, S: Side, next: int) {
    var p := WalkOf(B, S);
    Walk(m, S, p) && Places(p, SkipOf(B, S), B.live, S) && TakenBut(m, p, SkipOf(B, S), |B.live|) && InRange(m, p, next)
  }

  ghost predicate LeftOf(m: Mem, live: seq<int>, i: nat, j: nat)
    requires i < |live| && j < |live|
  {
    IsMore(LeftSide, At(m, live[i]), At(m, live[j]))
  }

  /** The live items are inserted ones, and their order in the list is their order in the deque. */
  ghost predicate LiveOk(m: Mem, live: seq<int>) {
    && (forall i :: 0 <= i < |live| ==> live[i] in m && At(m, live[i]).index != 0)
    && (forall i, j {:trigger LeftOf(m, live, i, j)} :: 0 <= i < j < |live| ==> LeftOf(m, live, i, j))
  }

  ghost predicate BufOk(m: Mem, B: Buf, next: int) { EndOk(m, B, LeftSide, next) && EndOk(m, B, RightSide, next) && LiveOk(m, B.live) }

  /** What a list consists of. */
  predicate Owns(B: Buf, n: int) { n in B.fromLeft || n in B.fromRight }

  lemma Mirror(a: Item, b: Item)
    requires a.index != 0 && b.index != 0
    ensures IsMore(RightSide, a, b) <==> IsMore(LeftSide, b, a)
  {
  }

  lemma Asymmetric(S: Side, a: Item, b: Item)
    requires a.index != 0 && b.index != 0 && IsMore(S, a, b)
    ensures !IsMore(S, b, a)
  {
  }

  // ---------------------------------------------------------------- operations on one list

  lemma EndFrame(m: Mem, m': Mem, B: Buf, S: Side, next: int, next': int)
    requires EndOk(m, B, S, next) && next <= next'
    requires forall n :: n in WalkOf(B, S) ==> n in m' && At(m', n) == At(m, n)
    ensures EndOk(m', B, S, next')
  {
    WalkFrame(m, m', S, WalkOf(B, S));
    assert forall i :: 0 <= i < |WalkOf(B, S)| ==> WalkOf(B, S)[i] in WalkOf(B, S);
  }

  lemma LiveInWalk(m: Mem, B: Buf, S: Side, next: int)
    requires EndOk(m, B, S, next)
    ensures forall n :: n in B.live ==> n in WalkOf(B, S)
  {
    forall n | n in B.live ensures n in WalkOf(B, S) {
      var i :| 0 <= i < |B.live| && B.live[i] == n;
      var k := if S == LeftSide then i else |B.live| - 1 - i;
      assert FromEnd(B.live, S, k) == n && WalkOf(B, S)[SkipOf(B, S) + k] == n;
    }
  }

  lemma BufFrame(m: Mem, m': Mem, B: Buf, next: int, next': int)
    requires BufOk(m, B, next) && next <= next'
    requires forall n :: Owns(B, n) ==> n in m' && At(m', n) == At(m, n)
    ensures BufOk(m', B, next')
  {
    EndFrame(m, m', B, LeftSide, next, next');
    EndFrame(m, m', B, RightSide, next, next');
    LiveInWalk(m, B, LeftSide, next);
    assert forall i :: 0 <= i < |B.live| ==> B.live[i] in B.live;
    forall i, j {:trigger LeftOf(m', B.live, i, j)} | 0 <= i < j < |B.live| ensures LeftOf(m', B.live, i, j) { assert LeftOf(m, B.live, i, j); }
  }

  /** A new item at end S of a list with live items. */
  function Inserted(B: Buf, S: Side, n: int): Buf {
    var T := Opp(S);
    var p, q := WalkOf(B, S), WalkOf(B, T);
    if B.live != [] && SkipOf(B, S) <= |p| && SkipOf(B, T) + |B.live| <= |q| then
      MakeBuf(S, [n] + p[SkipOf(B, S)..], q[..SkipOf(B, T) + |B.live|] + [n], 0, SkipOf(B, T), Add(S, B.live, n))
    else if |p| > 0 then MakeBuf(S, [n, p[0]], [p[0], n], 0, 1, [n])
    else B
  }

  /** The item the new one is linked to. */
  function Base(B: Buf, S: Side): int
    requires |WalkOf(B, S)| > 0
  {
    if B.live != [] then FromEnd(B.live, S, 0) else WalkOf(B, S)[0]
  }

  /** The memory after an insertion: the base gets a link to the new item, and if the list was empty it becomes its far end. */
  function Linked(m: Mem, B: Buf, S: Side, n: int, it: Item): Mem
    requires |WalkOf(B, S)| > 0
  {
    var b := Base(B, S);
    var x := SetLink(At(m, b), S, n);
    m[n := SetLink(SetLink(it, S, n), Opp(S), b)][b := if B.live != [] then x else SetLink(x, Opp(S), b)]
  }

  ghost predicate CanInsert(m: Mem, B: Buf, S: Side, next: int, n: int, it: Item) {
    && BufOk(m, B, next) && next > 0 && !Owns(B, n) && !it.taken && it.index == next * Dir(S)
  }

  /** What an insertion leaves alone in every other item: all but the two links of the base. */
  lemma LinkedAt(m: Mem, B: Buf, S: Side, n: int, it: Item, x: int)
    requires |WalkOf(B, S)| > 0 && x != n && n != Base(B, S) && Base(B, S) in m
    ensures var y, y' := At(m, x), At(Linked(m, B, S, n, it), x);
            && (x in m ==> x in Linked(m, B, S, n, it))
            && (x in m ==> y'.taken == y.taken && y'.index == y.index && y'.timestamp == y.timestamp && y'.data == y.data)
            && (x != Base(B, S) && x in m ==> y' == y)
            && (x == Base(B, S) ==> Link(y', S) == n && Link(y', Opp(S)) == if B.live != [] then Link(y, Opp(S)) else x)
  {
  }

  lemma LinkedNew(m: Mem, B: Buf, S: Side, n: int, it: Item)
    requires |WalkOf(B, S)| > 0 && n != Base(B, S)
    ensures var z := At(Linked(m, B, S, n, it), n);
            && n in Linked(m, B, S, n, it) && Link(z, S) == n && Link(z, Opp(S)) == Base(B, S)
            && z.taken == it.taken && z.index == it.index && z.timestamp == it.timestamp && z.data == it.data
  {
  }

  // Walks under updates.

  lemma WalkFrame(m: Mem, m': Mem, S: Side, p: seq<int>)
    requires Walk(m, S, p)
    requires forall x :: x in p ==> x in m' && Link(At(m', x), Opp(S)) == Link(At(m, x), Opp(S)) && At(m', x).index == At(m, x).index
    ensures Walk(m', S, p)
  {
    forall i | 0 <= i < |p| ensures p[i] in m' {
      var x := p[i];
      assert x in p && x in m';
    }
    forall i {:trigger LeadsOn(m', S, p, i)} | 0 <= i < |p| ensures LeadsOn(m', S, p, i) { assert LeadsOn(m, S, p, i) && p[i] in p; }
    forall i, j {:trigger Falls(m', S, p, i, j)} | 0 <= i < j < |p| ensures Falls(m', S, p, i, j) { assert Falls(m, S, p, i, j) && p[i] in p && p[j] in p; }
  }

  lemma WalkDrop(m: Mem, S: Side, p: seq<int>, a: nat)
    requires Walk(m, S, p) && a < |p|
    ensures Walk(m, S, p[a..])
  {
    var q := p[a..];
    forall i {:trigger LeadsOn(m, S, q, i)} | 0 <= i < |q| ensures LeadsOn(m, S, q, i) { assert LeadsOn(m, S, p, a + i); }
    forall i, j {:trigger Falls(m, S, q, i, j)} | 0 <= i < j < |q| ensures Falls(m, S, q, i, j) { assert Falls(m, S, p, a + i, a + j); }
  }

  lemma WalkCons(m: Mem, S: Side, n: int, q: seq<int>)
    requires Walk(m, S, q) && n in m && Link(At(m, n), Opp(S)) == q[0] && Key(At(m, n), S) > Key(At(m, q[0]), S)
    ensures Walk(m, S, [n] + q)
  {
    var p := [n] + q;
    forall i {:trigger LeadsOn(m, S, p, i)} | 0 <= i < |p| ensures LeadsOn(m, S, p, i) {
      if i > 0 { assert LeadsOn(m, S, q, i - 1); }
    }
    forall i, j {:trigger Falls(m, S, p, i, j)} | 0 <= i < j < |p| ensures Falls(m, S, p, i, j) {
      if i > 0 { assert Falls(m, S, q, i - 1, j - 1); } else if j > 1 { assert Falls(m, S, q, 0, j - 1); }
    }
  }

  /** An item of a walk that is cut after item k - 1 keeps its link unless it is the last. */
  ghost predicate FarAt(m: Mem, m': Mem, T: Side, q: seq<int>, k: nat, i: nat)
    requires i < |q|
  {
    q[i] in m' && At(m', q[i]).index == At(m, q[i]).index && (i < k - 1 ==> Link(At(m', q[i]), Opp(T)) == Link(At(m, q[i]), Opp(T)))
  }

  /** A walk cut after its item k - 1, which now links to a new last item. */
  lemma WalkSnoc(m: Mem, m': Mem, S: Side, q: seq<int>, k: nat, n: int)
    requires Walk(m, S, q) && 0 < k <= |q| && n in m' && Link(At(m', n), Opp(S)) == n && Key(At(m', n), S) < Key(At(m, q[k - 1]), S)
    requires forall i {:trigger FarAt(m, m', S, q, k, i)} :: 0 <= i < k ==> FarAt(m, m', S, q, k, i)
    requires Link(At(m', q[k - 1]), Opp(S)) == n
    ensures Walk(m', S, q[..k] + [n])
  {
    var p := q[..k] + [n];
    forall i | 0 <= i < |p| ensures p[i] in m' { assert i < k ==> FarAt(m, m', S, q, k, i); }
    forall i {:trigger LeadsOn(m', S, p, i)} | 0 <= i < |p| ensures LeadsOn(m', S, p, i) {
      if i < k { assert FarAt(m, m', S, q, k, i); assert LeadsOn(m, S, q, i) && p[i] == q[i]; }
    }
    forall i, j {:trigger Falls(m', S, p, i, j)} | 0 <= i < j < |p| ensures Falls(m', S, p, i, j) {
      assert FarAt(m, m', S, q, k, i) && (j < k ==> FarAt(m, m', S, q, k, j)) && FarAt(m, m', S, q, k, k - 1);
      if j < k { assert Falls(m, S, q, i, j); } else if i < k - 1 { assert Falls(m, S, q, i, k - 1); }
    }
  }

  // Insertion into a list with live items.

  /** An item of the walk from end S keeps all but its link towards S. */
  lemma NearAt(m: Mem, B: Buf, S: Side, next: int, n: int, it: Item, x: int)
    requires CanInsert(m, B, S, next, n, it) && B.live != [] && EndOk(m, B, S, next) && x in WalkOf(B, S)
    ensures var m' := Linked(m, B, S, n, it);
            && x in m' && Link(At(m', x), Opp(S)) == Link(At(m, x), Opp(S))
            && At(m', x).index == At(m, x).index && At(m', x).taken == At(m, x).taken
  {
    BaseIn(m, B, S, next);
    assert Owns(B, x);
    LinkedAt(m, B, S, n, it, x);
  }

  lemma NewFirst(m: Mem, B: Buf, S: Side, next: int, n: int, it: Item)
    requires CanInsert(m, B, S, next, n, it) && B.live != [] && EndOk(m, B, S, next)
    ensures var m', b := Linked(m, B, S, n, it), WalkOf(B, S)[SkipOf(B, S)];
            && SkipOf(B, S) < |WalkOf(B, S)| && n in m' && Link(At(m', n), Opp(S)) == b && Key(At(m', n), S) > Key(At(m', b), S)
  {
    BaseIn(m, B, S, next);
    assert Owns(B, Base(B, S));
    LinkedNew(m, B, S, n, it);
    LinkedAt(m, B, S, n, it, Base(B, S));
  }

  lemma NearWalk(m: Mem, B: Buf, S: Side, next: int, n: int, it: Item)
    requires CanInsert(m, B, S, next, n, it) && B.live != [] && EndOk(m, B, S, next)
    ensures Walk(Linked(m, B, S, n, it), S, [n] + WalkOf(B, S)[SkipOf(B, S)..])
  {
    var m' := Linked(m, B, S, n, it);
    var p, a := WalkOf(B, S), SkipOf(B, S);
    NewFirst(m, B, S, next, n, it);
    forall x | x in p ensures x in m' && Link(At(m', x), Opp(S)) == Link(At(m, x), Opp(S)) && At(m', x).index == At(m, x).index {
      NearAt(m, B, S, next, n, it, x);
    }
    WalkFrame(m, m', S, p);
    WalkDrop(m', S, p, a);
    WalkCons(m', S, n, p[a..]);
  }

  lemma BaseIn(m: Mem, B: Buf, S: Side, next: int)
    requires EndOk(m, B, S, next)
    ensures Base(B, S) in m && Base(B, S) in WalkOf(B, S) && -next < At(m, Base(B, S)).index < next
    ensures B.live != [] ==> Base(B, S) == WalkOf(B, S)[SkipOf(B, S)]
  {
    if B.live != [] { assert WalkOf(B, S)[SkipOf(B, S) + 0] == FromEnd(B.live, S, 0); }
  }

  lemma NearPlaces(p: seq<int>, a: nat, live: seq<int>, S: Side, n: int)
    requires Places(p, a, live, S)
    ensures Places([n] + p[a..], 0, Add(S, live, n), S)
  {
    var live' := Add(S, live, n);
    forall i {:trigger FromEnd(live', S, i)} | 0 <= i < |live'| ensures ([n] + p[a..])[0 + i] == FromEnd(live', S, i) {
      if i > 0 { assert FromEnd(live', S, i) == FromEnd(live, S, i - 1) == p[a + (i - 1)]; }
    }
  }

  lemma NearTaken(m: Mem, m': Mem, p: seq<int>, a: nat, k: nat, n: int, next: int)
    requires TakenBut(m, p, a, k) && InRange(m, p, next) && a <= |p|
    requires forall x :: x in p ==> At(m', x).taken == At(m, x).taken && At(m', x).index == At(m, x).index
    requires !At(m', n).taken && -next <= At(m', n).index <= next
    ensures TakenBut(m', [n] + p[a..], 0, k + 1) && InRange(m', [n] + p[a..], next + 1)
  {
    var q := [n] + p[a..];
    forall j | 0 <= j < |q| ensures (At(m', q[j]).taken <==> k + 1 <= j) && -(next + 1) < At(m', q[j]).index < next + 1 {
      if j > 0 { assert q[j] == p[a + j - 1] && q[j] in p; }
    }
  }

  lemma NearOk(m: Mem, B: Buf, S: Side, next: int, n: int, it: Item)
    requires CanInsert(m, B, S, next, n, it) && B.live != [] && EndOk(m, B, S, next) && EndOk(m, B, Opp(S), next)
    ensures EndOk(Linked(m, B, S, n, it), Inserted(B, S, n), S, next + 1)
  {
    var m' := Linked(m, B, S, n, it);
    var p, a := WalkOf(B, S), SkipOf(B, S);
    InsertedParts(m, B, S, next, n);
    NearWalk(m, B, S, next, n, it);
    BaseIn(m, B, S, next);
    LinkedNew(m, B, S, n, it);
    NearPlaces(p, a, B.live, S, n);
    forall x | x in p ensures At(m', x).taken == At(m, x).taken && At(m', x).index == At(m, x).index { NearAt(m, B, S, next, n, it, x); }
    NearTaken(m, m', p, a, |B.live|, n, next);
  }

  lemma FarPlaces(q: seq<int>, b: nat, live: seq<int>, T: Side, n: int)
    requires Places(q, b, live, T)
    ensures Places(q[..b + |live|] + [n], b, Add(Opp(T), live, n), T)
  {
    var live' := Add(Opp(T), live, n);
    forall i {:trigger FromEnd(live', T, i)} | 0 <= i < |live'| ensures (q[..b + |live|] + [n])[b + i] == FromEnd(live', T, i) {
      if i < |live| { assert FromEnd(live', T, i) == FromEnd(live, T, i) == q[b + i]; }
    }
  }

  lemma FarTaken(m: Mem, m': Mem, q: seq<int>, b: nat, k: nat, n: int, next: int)
    requires TakenBut(m, q, b, k) && InRange(m, q, next) && b + k <= |q|
    requires forall x :: x in q ==> At(m', x).taken == At(m, x).taken && At(m', x).index == At(m, x).index
    requires !At(m', n).taken && -next <= At(m', n).index <= next
    ensures TakenBut(m', q[..b + k] + [n], b, k + 1) && InRange(m', q[..b + k] + [n], next + 1)
  {
    var p := q[..b + k] + [n];
    forall j | 0 <= j < |p| ensures (At(m', p[j]).taken <==> j < b || b + k + 1 <= j) && -(next + 1) < At(m', p[j]).index < next + 1 {
      if j < b + k { assert p[j] == q[j] && q[j] in q; }
    }
  }

  lemma FarWalk(m: Mem, B: Buf, S: Side, next: int, n: int, it: Item)
    requires CanInsert(m, B, S, next, n, it) && B.live != [] && EndOk(m, B, S, next) && EndOk(m, B, Opp(S), next)
    ensures Walk(Linked(m, B, S, n, it), Opp(S), WalkOf(B, Opp(S))[..SkipOf(B, Opp(S)) + |B.live|] + [n])
  {
    var T := Opp(S);
    var m' := Linked(m, B, S, n, it);
    var q, k := WalkOf(B, T), SkipOf(B, T) + |B.live|;
    NewLast(m, B, S, next, n, it);
    forall i {:trigger FarAt(m, m', T, q, k, i)} | 0 <= i < k ensures FarAt(m, m', T, q, k, i) { FarKeeps(m, B, S, next, n, it, i); }
    WalkSnoc(m, m', T, q, k, n);
  }

  lemma FarKeeps(m: Mem, B: Buf, S: Side, next: int, n: int, it: Item, i: nat)
    requires CanInsert(m, B, S, next, n, it) && B.live != [] && EndOk(m, B, S, next) && EndOk(m, B, Opp(S), next)
    requires i < SkipOf(B, Opp(S)) + |B.live|
    ensures FarAt(m, Linked(m, B, S, n, it), Opp(S), WalkOf(B, Opp(S)), SkipOf(B, Opp(S)) + |B.live|, i)
  {
    var T := Opp(S);
    var q, k := WalkOf(B, T), SkipOf(B, T) + |B.live|;
    NewLast(m, B, S, next, n, it);
    assert q[i] in q && Owns(B, q[i]);
    assert i < k - 1 ==> Falls(m, T, q, i, k - 1);
    BaseIn(m, B, S, next);
    LinkedAt(m, B, S, n, it, q[i]);
  }

  /** Seen from the other end, the new item comes after the base. */
  lemma NewLast(m: Mem, B: Buf, S: Side, next: int, n: int, it: Item)
    requires CanInsert(m, B, S, next, n, it) && B.live != [] && EndOk(m, B, S, next) && EndOk(m, B, Opp(S), next)
    ensures var T, m' := Opp(S), Linked(m, B, S, n, it); var q, k := WalkOf(B, T), SkipOf(B, T) + |B.live|;
            && 0 < k <= |q| && q[k - 1] == Base(B, S) && n in m' && Link(At(m', n), Opp(T)) == n
            && Key(At(m', n), T) < Key(At(m, q[k - 1]), T) && Link(At(m', q[k - 1]), Opp(T)) == n
  {
    var T := Opp(S);
    BaseIn(m, B, S, next);
    assert Owns(B, Base(B, S));
    LinkedNew(m, B, S, n, it);
    LinkedAt(m, B, S, n, it, Base(B, S));
    assert WalkOf(B, T)[SkipOf(B, T) + (|B.live| - 1)] == FromEnd(B.live, T, |B.live| - 1) == Base(B, S);
  }

  lemma InsertedParts(m: Mem, B: Buf, S: Side, next: int, n: int)
    requires B.live != [] && EndOk(m, B, S, next) && EndOk(m, B, Opp(S), next)
    ensures var T, B' := Opp(S), Inserted(B, S, n);
            && WalkOf(B', S) == [n] + WalkOf(B, S)[SkipOf(B, S)..] && SkipOf(B', S) == 0
            && WalkOf(B', T) == WalkOf(B, T)[..SkipOf(B, T) + |B.live|] + [n] && SkipOf(B', T) == SkipOf(B, T)
            && B'.live == Add(S, B.live, n) && |B'.live| == |B.live| + 1
  {
  }

  lemma KeptAt(m: Mem, B: Buf, S: Side, next: int, n: int, it: Item, x: int)
    requires CanInsert(m, B, S, next, n, it) && EndOk(m, B, S, next) && EndOk(m, B, Opp(S), next) && x in WalkOf(B, Opp(S))
    ensures At(Linked(m, B, S, n, it), x).taken == At(m, x).taken && At(Linked(m, B, S, n, it), x).index == At(m, x).index
  {
    BaseIn(m, B, S, next);
    assert Owns(B, x) && Owns(B, Base(B, S));
    LinkedAt(m, B, S, n, it, x);
  }

  lemma FarShown(m: Mem, B: Buf, S: Side, next: int, n: int, it: Item)
    requires CanInsert(m, B, S, next, n, it) && B.live != [] && EndOk(m, B, S, next) && EndOk(m, B, Opp(S), next)
    ensures var m', q, b, k := Linked(m, B, S, n, it), WalkOf(B, Opp(S)), SkipOf(B, Opp(S)), |B.live|;
            b + k <= |q| && TakenBut(m', q[..b + k] + [n], b, k + 1) && InRange(m', q[..b + k] + [n], next + 1)
  {
    var m', q := Linked(m, B, S, n, it), WalkOf(B, Opp(S));
    BaseIn(m, B, S, next);
    LinkedNew(m, B, S, n, it);
    forall x | x in q ensures At(m', x).taken == At(m, x).taken && At(m', x).index == At(m, x).index { KeptAt(m, B, S, next, n, it, x); }
    FarTaken(m, m', q, SkipOf(B, Opp(S)), |B.live|, n, next);
  }

  lemma FarOk(m: Mem, B: Buf, S: Side, next: int, n: int, it: Item)
    requires CanInsert(m, B, S, next, n, it) && B.live != [] && EndOk(m, B, S, next) && EndOk(m, B, Opp(S), next)
    ensures EndOk(Linked(m, B, S, n, it), Inserted(B, S, n), Opp(S), next + 1)
  {
    var T := Opp(S);
    InsertedParts(m, B, S, next, n);
    FarWalk(m, B, S, next, n, it);
    FarPlaces(WalkOf(B, T), SkipOf(B, T), B.live, T, n);
    FarShown(m, B, S, next, n, it);
  }

  // Insertion into a list with no live item.

  lemma PairWalk(m: Mem, S: Side, x: int, y: int)
    requires x in m && y in m && Link(At(m, x), Opp(S)) == y && Link(At(m, y), Opp(S)) == y && Key(At(m, x), S) > Key(At(m, y), S)
    ensures Walk(m, S, [x, y])
  {
  }

  /** The new item n and the end x of a list that was empty. */
  ghost predicate Pair(m: Mem, S: Side, n: int, x: int, next: int) {
    && n in m && x in m && Link(At(m, n), Opp(S)) == x && Link(At(m, x), Opp(S)) == x && Link(At(m, x), S) == n && Link(At(m, n), S) == n
    && Key(At(m, n), S) == next && -next < At(m, x).index < next && !At(m, n).taken && At(m, x).taken
  }

  lemma PairMade(m: Mem, B: Buf, S: Side, next: int, n: int, it: Item)
    requires CanInsert(m, B, S, next, n, it) && B.live == [] && EndOk(m, B, S, next)
    ensures Pair(Linked(m, B, S, n, it), S, n, WalkOf(B, S)[0], next)
  {
    BaseIn(m, B, S, next);
    LinkedNew(m, B, S, n, it);
    LinkedAt(m, B, S, n, it, WalkOf(B, S)[0]);
  }

  lemma PairEnds(m: Mem, S: Side, n: int, x: int, next: int)
    requires Pair(m, S, n, x, next)
    ensures var B' := MakeBuf(S, [n, x], [x, n], 0, 1, [n]); EndOk(m, B', S, next + 1) && EndOk(m, B', Opp(S), next + 1)
  {
    PairWalk(m, S, n, x);
    PairWalk(m, Opp(S), x, n);
  }

  lemma EmptyOk(m: Mem, B: Buf, S: Side, next: int, n: int, it: Item)
    requires CanInsert(m, B, S, next, n, it) && B.live == [] && EndOk(m, B, S, next)
    ensures var m', B' := Linked(m, B, S, n, it), Inserted(B, S, n); EndOk(m', B', S, next + 1) && EndOk(m', B', Opp(S), next + 1)
  {
    PairMade(m, B, S, next, n, it);
    PairEnds(Linked(m, B, S, n, it), S, n, WalkOf(B, S)[0], next);
  }

  /** An insertion puts the new item at its end of the live ones. */
  lemma InsertOk(m: Mem, B: Buf, S: Side, next: int, n: int, it: Item)
    requires CanInsert(m, B, S, next, n, it)
    requires forall i :: 0 <= i < |B.live| ==> At(m, B.live[i]).timestamp < it.timestamp
    ensures var m', B' := Linked(m, B, S, n, it), Inserted(B, S, n);
            BufOk(m', B', next + 1) && B'.live == Add(S, B.live, n) && WalkOf(B', S)[0] == n
  {
    assert EndOk(m, B, S, next) && EndOk(m, B, Opp(S), next);
    if B.live == [] { EmptyOk(m, B, S, next, n, it); } else { NearOk(m, B, S, next, n, it); FarOk(m, B, S, next, n, it); }
    InsertLive(m, B, S, next, n, it);
  }

  lemma InsertLive(m: Mem, B: Buf, S: Side, next: int, n: int, it: Item)
    requires CanInsert(m, B, S, next, n, it) && EndOk(m, B, S, next)
    requires forall i :: 0 <= i < |B.live| ==> At(m, B.live[i]).timestamp < it.timestamp
    ensures LiveOk(Linked(m, B, S, n, it), Add(S, B.live, n))
  {
    var m' := Linked(m, B, S, n, it);
    var live' := Add(S, B.live, n);
    BaseIn(m, B, S, next);
    LinkedNew(m, B, S, n, it);
    LiveInWalk(m, B, S, next);
    forall x | x in B.live ensures x in m' && At(m', x).index == At(m, x).index && At(m', x).timestamp == At(m, x).timestamp { LinkedAt(m, B, S, n, it, x); }
    forall i | 0 <= i < |B.live| ensures B.live[i] in B.live {}
    forall i | 0 <= i < |live'| ensures live'[i] in m' && At(m', live'[i]).index != 0 {
      if live'[i] != n { assert live'[i] in B.live; }
    }
    forall i, j {:trigger LeftOf(m', live', i, j)} | 0 <= i < j < |live'| ensures LeftOf(m', live', i, j) {
      var d := if S == LeftSide then 1 else 0;
      if i >= d && j - d < |B.live| { assert LeftOf(m, B.live, i - d, j - d); }
      else if S == LeftSide { assert live'[j] == B.live[j - 1]; }
      else { assert live'[i] == B.live[i]; }
    }
  }

  // Removal.

  function Rest(live: seq<int>, S: Side): seq<int>
    requires live != []
  {
    if S == LeftSide then live[1..] else live[..|live| - 1]
  }

  function Taken(m: Mem, n: int): Mem { m[n := At(m, n).(taken := true)] }

  /** The first live item from end S is taken; the end pointer moves to it, or stays if its compare-and-swap fails. */
  function Removed(B: Buf, S: Side, moved: bool): Buf
    requires B.live != []
  {
    var p, a := WalkOf(B, S), SkipOf(B, S);
    if moved && a <= |p| then MakeBuf(S, p[a..], WalkOf(B, Opp(S)), 1, SkipOf(B, Opp(S)), Rest(B.live, S))
    else MakeBuf(S, p, WalkOf(B, Opp(S)), a + 1, SkipOf(B, Opp(S)), Rest(B.live, S))
  }

  lemma NearShrinks(m: Mem, p: seq<int>, a: nat, live: seq<int>, S: Side)
    requires Places(p, a, live, S) && live != [] && Walk(m, S, p) && TakenBut(m, p, a, |live|)
    ensures p[a] == FromEnd(live, S, 0) && Places(p, a + 1, Rest(live, S), S) && Places(p[a..], 1, Rest(live, S), S)
    ensures var m' := Taken(m, p[a]); TakenBut(m', p, a + 1, |live| - 1) && TakenBut(m', p[a..], 1, |live| - 1)
  {
    assert p[a + 0] == FromEnd(live, S, 0);
    var r := Rest(live, S);
    forall i {:trigger FromEnd(r, S, i)} | 0 <= i < |r| ensures p[a + 1 + i] == FromEnd(r, S, i) && p[a..][1 + i] == FromEnd(r, S, i) {
      assert p[a + (i + 1)] == FromEnd(live, S, i + 1);
    }
    forall j | 0 <= j < |p| && j != a ensures p[j] != p[a] {
      assert j < a ==> Falls(m, S, p, j, a);
      assert a < j ==> Falls(m, S, p, a, j);
    }
    forall j | 0 <= j < |p[a..]| ensures p[a..][j] == p[a + j] {}
  }

  lemma FarShrinks(m: Mem, q: seq<int>, b: nat, live: seq<int>, S: Side)
    requires Places(q, b, live, Opp(S)) && live != [] && Walk(m, Opp(S), q) && TakenBut(m, q, b, |live|)
    ensures q[b + |live| - 1] == FromEnd(live, S, 0) && Places(q, b, Rest(live, S), Opp(S))
    ensures TakenBut(Taken(m, FromEnd(live, S, 0)), q, b, |live| - 1)
  {
    var T := Opp(S);
    var k := b + |live| - 1;
    assert q[b + (|live| - 1)] == FromEnd(live, T, |live| - 1);
    var r := Rest(live, S);
    forall i {:trigger FromEnd(r, T, i)} | 0 <= i < |r| ensures q[b + i] == FromEnd(r, T, i) { assert q[b + i] == FromEnd(live, T, i); }
    forall j | 0 <= j < |q| && j != k ensures q[j] != q[k] {
      assert j < k ==> Falls(m, T, q, j, k);
      assert k < j ==> Falls(m, T, q, k, j);
    }
  }

  lemma RangeKept(m: Mem, p: seq<int>, a: nat, n: int, next: int)
    requires InRange(m, p, next) && a <= |p|
    ensures InRange(Taken(m, n), p, next) && InRange(Taken(m, n), p[a..], next)
  {
    assert forall j :: 0 <= j < |p[a..]| ==> p[a..][j] == p[a + j];
  }

  lemma RemovedParts(B: Buf, S: Side, moved: bool)
    requires B.live != [] && SkipOf(B, S) <= |WalkOf(B, S)|
    ensures Removed(B, S, moved).live == Rest(B.live, S)
    ensures var B' := Removed(B, S, moved);
            (if moved then WalkOf(B', S) == WalkOf(B, S)[SkipOf(B, S)..] && SkipOf(B', S) == 1
                else WalkOf(B', S) == WalkOf(B, S) && SkipOf(B', S) == SkipOf(B, S) + 1)
  {
  }

  lemma RemoveNear(m: Mem, B: Buf, S: Side, next: int, moved: bool)
    requires B.live != [] && EndOk(m, B, S, next)
    ensures EndOk(Taken(m, FromEnd(B.live, S, 0)), Removed(B, S, moved), S, next)
  {
    var m' := Taken(m, FromEnd(B.live, S, 0));
    var p, a := WalkOf(B, S), SkipOf(B, S);
    NearShrinks(m, p, a, B.live, S);
    WalkFrame(m, m', S, p);
    WalkDrop(m', S, p, a);
    RangeKept(m, p, a, p[a], next);
    RemovedParts(B, S, moved);
  }

  lemma RemoveFar(m: Mem, B: Buf, S: Side, next: int, moved: bool)
    requires B.live != [] && EndOk(m, B, Opp(S), next)
    ensures EndOk(Taken(m, FromEnd(B.live, S, 0)), Removed(B, S, moved), Opp(S), next)
  {
    var m' := Taken(m, FromEnd(B.live, S, 0));
    FarShrinks(m, WalkOf(B, Opp(S)), SkipOf(B, Opp(S)), B.live, S);
    WalkFrame(m, m', Opp(S), WalkOf(B, Opp(S)));
  }

  /** Removing the first live item from end S leaves the list in order. */
  lemma RemoveOk(m: Mem, B: Buf, S: Side, next: int, moved: bool)
    requires BufOk(m, B, next) && B.live != []
    ensures BufOk(Taken(m, FromEnd(B.live, S, 0)), Removed(B, S, moved), next)
  {
    assert EndOk(m, B, S, next) && EndOk(m, B, Opp(S), next);
    RemoveNear(m, B, S, next, moved);
    RemoveFar(m, B, S, next, moved);
    RemoveLive(m, B.live, S);
  }

  lemma RemoveLive(m: Mem, live: seq<int>, S: Side)
    requires LiveOk(m, live) && live != []
    ensures LiveOk(Taken(m, FromEnd(live, S, 0)), Rest(live, S))
  {
    var m' := Taken(m, FromEnd(live, S, 0));
    var r := Rest(live, S);
    var d := if S == LeftSide then 1 else 0;
    forall i | 0 <= i < |r| ensures r[i] == live[i + d] && r[i] in m' && At(m', r[i]).index == At(m, live[i + d]).index != 0 {}
    forall i, j {:trigger LeftOf(m', r, i, j)} | 0 <= i < j < |r| ensures LeftOf(m', r, i, j) {
      assert LeftOf(m, live, i + d, j + d);
      SameOrder(m, live[i + d], live[j + d], FromEnd(live, S, 0));
    }
  }

  lemma SameOrder(m: Mem, a: int, b: int, n: int)
    requires IsMore(LeftSide, At(m, a), At(m, b))
    ensures IsMore(LeftSide, At(Taken(m, n), a), At(Taken(m, n), b))
  {
  }
}
