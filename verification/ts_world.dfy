/** All thread-local lists of ts_deque_buffer.h together: by insertion side and timestamp they are one deque. */
module TSWorld {
  import opened DequeSpec
  import opened TSList

  datatype ItemPtr = ItemPtr(item: int, cntr: int)

  // ---------------------------------------------------------------- one deque out of many lists

  ghost predicate Listed(bufs: seq<Buf>, owner: map<int, nat>, x: int) { x in owner && owner[x] < |bufs| && x in bufs[owner[x]].live }

  ghost predicate Ordered(bufs: seq<Buf>, owner: map<int, nat>, order: seq<int>) {
    && (forall x {:trigger Listed(bufs, owner, x)} :: x in order ==> Listed(bufs, owner, x))
    && (forall t, x :: 0 <= t < |bufs| && x in bufs[t].live ==> x in order && x in owner && owner[x] == t)
  }

  /** `order` lists the live items of all lists from left to right: by insertion side, then by timestamp. */
  ghost predicate Merged(m: Mem, bufs: seq<Buf>, owner: map<int, nat>, order: seq<int>, clock: int) {
    Ordered(bufs, owner, order) && LiveOk(m, order) && forall x :: x in order ==> At(m, x).timestamp < clock
  }

  lemma Extreme(m: Mem, live: seq<int>, S: Side, x: int)
    requires LiveOk(m, live) && x in live
    ensures x == FromEnd(live, S, 0) || IsMore(S, At(m, FromEnd(live, S, 0)), At(m, x))
  {
    var i :| 0 <= i < |live| && live[i] == x;
    assert i > 0 ==> LeftOf(m, live, 0, i);
    assert i < |live| - 1 ==> LeftOf(m, live, i, |live| - 1);
    if S == RightSide && i < |live| - 1 { Mirror(At(m, live[|live| - 1]), At(m, x)); }
  }

  /** The item at an end of the deque is at that end of its own list. */
  lemma EndsMeet(m: Mem, bufs: seq<Buf>, owner: map<int, nat>, order: seq<int>, clock: int, S: Side)
    requires Merged(m, bufs, owner, order, clock) && order != [] && forall t :: 0 <= t < |bufs| ==> LiveOk(m, bufs[t].live)
    ensures var e := FromEnd(order, S, 0);
            e in owner && owner[e] < |bufs| && bufs[owner[e]].live != [] && FromEnd(bufs[owner[e]].live, S, 0) == e
  {
    var e := FromEnd(order, S, 0);
    assert e in order && Listed(bufs, owner, e);
    var live := bufs[owner[e]].live;
    var f := FromEnd(live, S, 0);
    assert f in live;
    Extreme(m, live, S, e);
    Extreme(m, order, S, f);
    if f != e { Asymmetric(S, At(m, f), At(m, e)); }
  }

  lemma Stays(live: seq<int>, S: Side, x: int)
    requires live != [] && x in live && x != FromEnd(live, S, 0)
    ensures x in Rest(live, S)
  {
    var i :| 0 <= i < |live| && live[i] == x;
    assert x == if S == LeftSide then live[1..][i - 1] else live[..|live| - 1][i];
  }

  lemma NotAgain(m: Mem, live: seq<int>, S: Side)
    requires LiveOk(m, live) && live != []
    ensures FromEnd(live, S, 0) !in Rest(live, S) && forall x :: x in Rest(live, S) ==> x in live
  {
    var r, e := Rest(live, S), FromEnd(live, S, 0);
    forall x | x in r ensures x in live && x != e {
      var i :| 0 <= i < |r| && r[i] == x;
      var j := if S == LeftSide then i + 1 else i;
      assert live[j] == x;
      assert LeftOf(m, live, if S == LeftSide then 0 else j, if S == LeftSide then j else |live| - 1);
    }
  }

  ghost predicate CanPop(m: Mem, bufs: seq<Buf>, owner: map<int, nat>, order: seq<int>, clock: int, S: Side, t: nat) {
    && Merged(m, bufs, owner, order, clock) && order != [] && t < |bufs| && LiveOk(m, bufs[t].live)
    && bufs[t].live != [] && FromEnd(bufs[t].live, S, 0) == FromEnd(order, S, 0)
  }

  lemma PopListed(m: Mem, bufs: seq<Buf>, owner: map<int, nat>, order: seq<int>, clock: int, S: Side, t: nat, moved: bool, x: int)
    requires CanPop(m, bufs, owner, order, clock, S, t) && x in Rest(order, S)
    ensures x in order && Listed(bufs[t := Removed(bufs[t], S, moved)], owner, x)
  {
    NotAgain(m, order, S);
    assert Listed(bufs, owner, x);
    if owner[x] == t { Stays(bufs[t].live, S, x); }
  }

  lemma PopOwned(m: Mem, bufs: seq<Buf>, owner: map<int, nat>, order: seq<int>, clock: int, S: Side, t: nat, moved: bool, u: nat, x: int)
    requires CanPop(m, bufs, owner, order, clock, S, t) && u < |bufs| && x in bufs[t := Removed(bufs[t], S, moved)][u].live
    ensures x in Rest(order, S) && x in owner && owner[x] == u
  {
    var e := FromEnd(order, S, 0);
    NotAgain(m, bufs[t].live, S);
    assert e in bufs[t].live && owner[e] == t;
    assert x in bufs[u].live && x in order;
    Stays(order, S, x);
  }

  /** Removing an end of the deque. */
  lemma PopMerged(m: Mem, bufs: seq<Buf>, owner: map<int, nat>, order: seq<int>, clock: int, S: Side, t: nat, moved: bool)
    requires CanPop(m, bufs, owner, order, clock, S, t)
    ensures Merged(Taken(m, FromEnd(order, S, 0)), bufs[t := Removed(bufs[t], S, moved)], owner, Rest(order, S), clock)
  {
    PopOrdered(m, bufs, owner, order, clock, S, t, moved);
    NotAgain(m, order, S);
    RemoveLive(m, order, S);
  }

  lemma PopOrdered(m: Mem, bufs: seq<Buf>, owner: map<int, nat>, order: seq<int>, clock: int, S: Side, t: nat, moved: bool)
    requires CanPop(m, bufs, owner, order, clock, S, t)
    ensures Ordered(bufs[t := Removed(bufs[t], S, moved)], owner, Rest(order, S))
  {
    var bufs', order' := bufs[t := Removed(bufs[t], S, moved)], Rest(order, S);
    forall x {:trigger Listed(bufs', owner, x)} | x in order' ensures Listed(bufs', owner, x) { PopListed(m, bufs, owner, order, clock, S, t, moved, x); }
    forall u, x | 0 <= u < |bufs'| && x in bufs'[u].live ensures x in order' && x in owner && owner[x] == u {
      PopOwned(m, bufs, owner, order, clock, S, t, moved, u, x);
    }
  }

  lemma PushMerged(m: Mem, m': Mem, bufs: seq<Buf>, owner: map<int, nat>, order: seq<int>, clock: int, S: Side, t: nat, B': Buf, n: int)
    requires Merged(m, bufs, owner, order, clock) && t < |bufs| && n !in owner && B'.live == Add(S, bufs[t].live, n)
    requires forall x :: x in order ==> x in m' && At(m', x).index == At(m, x).index && At(m', x).timestamp == At(m, x).timestamp
    requires n in m' && InsertedOn(At(m', n), S) && At(m', n).timestamp == clock
    ensures Merged(m', bufs[t := B'], owner[n := t], Add(S, order, n), clock + 1)
  {
    var bufs', owner', order' := bufs[t := B'], owner[n := t], Add(S, order, n);
    forall x {:trigger Listed(bufs', owner', x)} | x in order' ensures Listed(bufs', owner', x) {
      if x != n { assert Listed(bufs, owner, x); }
    }
    forall u, x | 0 <= u < |bufs'| && x in bufs'[u].live ensures x in order' && x in owner' && owner'[x] == u {
      if x != n { assert x in bufs[u].live && x in order; }
    }
    PushLive(m, m', order, S, n);
  }

  lemma PushLive(m: Mem, m': Mem, live: seq<int>, S: Side, n: int)
    requires LiveOk(m, live) && n in m' && InsertedOn(At(m', n), S)
    requires forall x :: x in live ==> x in m' && At(m', x).index == At(m, x).index && At(m', x).timestamp == At(m, x).timestamp < At(m', n).timestamp
    ensures LiveOk(m', Add(S, live, n))
  {
    var live' := Add(S, live, n);
    forall i | 0 <= i < |live| ensures live[i] in live {}
    var d := if S == LeftSide then 1 else 0;
    forall i, j {:trigger LeftOf(m', live', i, j)} | 0 <= i < j < |live'| ensures LeftOf(m', live', i, j) {
      if i >= d && j - d < |live| { assert LeftOf(m, live, i - d, j - d); }
      else if S == LeftSide { assert live'[j] == live[j - 1]; }
      else { assert live'[i] == live[i]; }
    }
  }

  function Values(m: Mem, order: seq<int>): seq<int> { seq(|order|, i requires 0 <= i < |order| => At(m, order[i]).data) }

  lemma ValuesAdd(m: Mem, m': Mem, order: seq<int>, S: Side, n: int)
    requires forall x :: x in order ==> At(m', x).data == At(m, x).data
    ensures Values(m', Add(S, order, n)) == Add(S, Values(m, order), At(m', n).data)
  {
    assert forall i :: 0 <= i < |order| ==> order[i] in order;
  }

  lemma ValuesRest(m: Mem, order: seq<int>, S: Side)
    requires order != []
    ensures var e := FromEnd(order, S, 0); Values(m, order) == Add(S, Values(Taken(m, e), Rest(order, S)), At(m, e).data)
  {
  }

  // ---------------------------------------------------------------- all lists together

  ghost predicate ListIn(m: Mem, bufs: seq<Buf>, next: seq<int>, t: nat)
    requires t < |bufs| == |next|
  {
    next[t] > 0 && BufOk(m, bufs[t], next[t])
  }

  /** Every list is in order, no item is in two of them, and together they are the deque. */
  ghost predicate World(m: Mem, bufs: seq<Buf>, next: seq<int>, owner: map<int, nat>, order: seq<int>, clock: int, bound: int) {
    && |next| == |bufs|
    && (forall t {:trigger ListIn(m, bufs, next, t)} :: 0 <= t < |bufs| ==> ListIn(m, bufs, next, t))
    && (forall t, x {:trigger Owns(bufs[t], x)} :: 0 <= t < |bufs| && Owns(bufs[t], x) ==> x in owner && owner[x] == t && x in m)
    && (forall x :: x in owner ==> x < bound)
    && Merged(m, bufs, owner, order, clock)
  }

  lemma LiveOwned(m: Mem, bufs: seq<Buf>, next: seq<int>, owner: map<int, nat>, order: seq<int>, clock: int, bound: int, x: int)
    requires World(m, bufs, next, owner, order, clock, bound) && x in order
    ensures x in owner && owner[x] < |bufs| && Owns(bufs[owner[x]], x) && x in m
  {
    assert Listed(bufs, owner, x);
    var t := owner[x];
    assert ListIn(m, bufs, next, t);
    LiveInWalk(m, bufs[t], LeftSide, next[t]);
  }

  lemma BaseKnown(m: Mem, bufs: seq<Buf>, next: seq<int>, owner: map<int, nat>, order: seq<int>, clock: int, bound: int, S: Side, t: nat)
    requires World(m, bufs, next, owner, order, clock, bound) && t < |bufs|
    ensures EndOk(m, bufs[t], S, next[t]) && EndOk(m, bufs[t], Opp(S), next[t]) && |WalkOf(bufs[t], S)| > 0 && Base(bufs[t], S) < bound
  {
    assert ListIn(m, bufs, next, t);
    BaseIn(m, bufs[t], S, next[t]);
    assert Owns(bufs[t], Base(bufs[t], S));
  }

  ghost predicate CanPush(m: Mem, bufs: seq<Buf>, next: seq<int>, owner: map<int, nat>, order: seq<int>, clock: int, n: int, S: Side, t: nat, it: Item) {
    && World(m, bufs, next, owner, order, clock, n) && t < |bufs|
    && |WalkOf(bufs[t], S)| > 0 && !it.taken && it.index == next[t] * Dir(S) && it.timestamp == clock
  }

  lemma PushBase(m: Mem, bufs: seq<Buf>, next: seq<int>, owner: map<int, nat>, order: seq<int>, clock: int, n: int, S: Side, t: nat, it: Item)
    requires CanPush(m, bufs, next, owner, order, clock, n, S, t, it)
    ensures CanInsert(m, bufs[t], S, next[t], n, it) && EndOk(m, bufs[t], S, next[t])
    ensures var b := Base(bufs[t], S); b in m && b in owner && owner[b] == t && b != n && n !in owner
    ensures forall i :: 0 <= i < |bufs[t].live| ==> At(m, bufs[t].live[i]).timestamp < it.timestamp
  {
    assert ListIn(m, bufs, next, t);
    assert EndOk(m, bufs[t], S, next[t]);
    BaseIn(m, bufs[t], S, next[t]);
    assert Owns(bufs[t], Base(bufs[t], S));
    forall i | 0 <= i < |bufs[t].live| ensures At(m, bufs[t].live[i]).timestamp < it.timestamp { assert bufs[t].live[i] in bufs[t].live; }
  }

  lemma PushLists(m: Mem, bufs: seq<Buf>, next: seq<int>, owner: map<int, nat>, order: seq<int>, clock: int, n: int, S: Side, t: nat, it: Item, u: nat)
    requires CanPush(m, bufs, next, owner, order, clock, n, S, t, it) && u < |bufs|
    ensures ListIn(Linked(m, bufs[t], S, n, it), bufs[t := Inserted(bufs[t], S, n)], next[t := next[t] + 1], u)
  {
    PushBase(m, bufs, next, owner, order, clock, n, S, t, it);
    assert ListIn(m, bufs, next, u);
    if u == t {
      InsertOk(m, bufs[t], S, next[t], n, it);
    } else {
      var m' := Linked(m, bufs[t], S, n, it);
      forall x | Owns(bufs[u], x) ensures x in m' && At(m', x) == At(m, x) { LinkedAt(m, bufs[t], S, n, it, x); }
      BufFrame(m, m', bufs[u], next[u], next[u]);
    }
  }

  lemma PushOwned(m: Mem, bufs: seq<Buf>, next: seq<int>, owner: map<int, nat>, order: seq<int>, clock: int, n: int, S: Side, t: nat, it: Item, u: nat, x: int)
    requires CanPush(m, bufs, next, owner, order, clock, n, S, t, it) && u < |bufs| && Owns(bufs[t := Inserted(bufs[t], S, n)][u], x)
    ensures x in owner[n := t] && owner[n := t][x] == u && x in Linked(m, bufs[t], S, n, it)
  {
    PushBase(m, bufs, next, owner, order, clock, n, S, t, it);
    if x != n {
      assert Owns(bufs[u], x);
      LinkedAt(m, bufs[t], S, n, it, x);
    }
  }

  lemma PushOrder(m: Mem, bufs: seq<Buf>, next: seq<int>, owner: map<int, nat>, order: seq<int>, clock: int, n: int, S: Side, t: nat, it: Item)
    requires CanPush(m, bufs, next, owner, order, clock, n, S, t, it)
    ensures Merged(Linked(m, bufs[t], S, n, it), bufs[t := Inserted(bufs[t], S, n)], owner[n := t], Add(S, order, n), clock + 1)
    ensures forall x :: x in order ==> At(Linked(m, bufs[t], S, n, it), x).data == At(m, x).data
    ensures At(Linked(m, bufs[t], S, n, it), n).data == it.data
  {
    PushNew(m, bufs, next, owner, order, clock, n, S, t, it);
    var m' := Linked(m, bufs[t], S, n, it);
    forall x | x in order ensures x in m' && At(m', x).index == At(m, x).index && At(m', x).timestamp == At(m, x).timestamp && At(m', x).data == At(m, x).data {
      PushKept(m, bufs, next, owner, order, clock, n, S, t, it, x);
    }
    PushMerged(m, m', bufs, owner, order, clock, S, t, Inserted(bufs[t], S, n), n);
  }

  lemma PushKept(m: Mem, bufs: seq<Buf>, next: seq<int>, owner: map<int, nat>, order: seq<int>, clock: int, n: int, S: Side, t: nat, it: Item, x: int)
    requires CanPush(m, bufs, next, owner, order, clock, n, S, t, it) && x in order
    ensures var m' := Linked(m, bufs[t], S, n, it);
            x in m' && At(m', x).index == At(m, x).index && At(m', x).timestamp == At(m, x).timestamp && At(m', x).data == At(m, x).data
  {
    PushBase(m, bufs, next, owner, order, clock, n, S, t, it);
    LiveOwned(m, bufs, next, owner, order, clock, n, x);
    LinkedAt(m, bufs[t], S, n, it, x);
  }

  lemma PushNew(m: Mem, bufs: seq<Buf>, next: seq<int>, owner: map<int, nat>, order: seq<int>, clock: int, n: int, S: Side, t: nat, it: Item)
    requires CanPush(m, bufs, next, owner, order, clock, n, S, t, it)
    ensures var m' := Linked(m, bufs[t], S, n, it);
            n !in owner && n in m' && InsertedOn(At(m', n), S) && At(m', n).timestamp == clock && At(m', n).data == it.data
    ensures Inserted(bufs[t], S, n).live == Add(S, bufs[t].live, n)
  {
    PushBase(m, bufs, next, owner, order, clock, n, S, t, it);
    LinkedNew(m, bufs[t], S, n, it);
    assert Inserted(bufs[t], S, n).live == Add(S, bufs[t].live, n) by { InsertOk(m, bufs[t], S, next[t], n, it); }
  }

  /** A push keeps everything in order and adds its item at its end of the deque. */
  lemma PushWorld(m: Mem, bufs: seq<Buf>, next: seq<int>, owner: map<int, nat>, order: seq<int>, clock: int, n: int, S: Side, t: nat, it: Item)
    requires CanPush(m, bufs, next, owner, order, clock, n, S, t, it)
    ensures World(Linked(m, bufs[t], S, n, it), bufs[t := Inserted(bufs[t], S, n)], next[t := next[t] + 1], owner[n := t], Add(S, order, n), clock + 1, n + 1)
    ensures forall x :: x in order ==> At(Linked(m, bufs[t], S, n, it), x).data == At(m, x).data
    ensures At(Linked(m, bufs[t], S, n, it), n).data == it.data
  {
    PushBase(m, bufs, next, owner, order, clock, n, S, t, it);
    var m', bufs', next' := Linked(m, bufs[t], S, n, it), bufs[t := Inserted(bufs[t], S, n)], next[t := next[t] + 1];
    forall u {:trigger ListIn(m', bufs', next', u)} | 0 <= u < |bufs'| ensures ListIn(m', bufs', next', u) {
      PushLists(m, bufs, next, owner, order, clock, n, S, t, it, u);
    }
    forall u, x {:trigger Owns(bufs'[u], x)} | 0 <= u < |bufs'| && Owns(bufs'[u], x) ensures x in owner[n := t] && owner[n := t][x] == u && x in m' {
      PushOwned(m, bufs, next, owner, order, clock, n, S, t, it, u, x);
    }
    PushOrder(m, bufs, next, owner, order, clock, n, S, t, it);
  }

  lemma PopLists(m: Mem, bufs: seq<Buf>, next: seq<int>, owner: map<int, nat>, order: seq<int>, clock: int, bound: int, S: Side, t: nat, moved: bool, u: nat)
    requires World(m, bufs, next, owner, order, clock, bound) && t < |bufs| && u < |bufs| && bufs[t].live != []
    ensures ListIn(Taken(m, FromEnd(bufs[t].live, S, 0)), bufs[t := Removed(bufs[t], S, moved)], next, u)
    ensures forall x :: Owns(bufs[t := Removed(bufs[t], S, moved)][u], x) ==> x in owner && owner[x] == u && x in m
  {
    var e := FromEnd(bufs[t].live, S, 0);
    assert ListIn(m, bufs, next, t) && ListIn(m, bufs, next, u);
    LiveInWalk(m, bufs[t], LeftSide, next[t]);
    assert e in bufs[t].live && Owns(bufs[t], e);
    forall x | Owns(bufs[t := Removed(bufs[t], S, moved)][u], x) ensures x in owner && owner[x] == u && x in m { assert Owns(bufs[u], x); }
    if u == t {
      RemoveOk(m, bufs[t], S, next[t], moved);
    } else {
      forall x | Owns(bufs[u], x) ensures x in Taken(m, e) && At(Taken(m, e), x) == At(m, x) {}
      BufFrame(m, Taken(m, e), bufs[u], next[u], next[u]);
    }
  }

  /** Taking the item at an end of the deque keeps everything in order. */
  lemma PopWorld(m: Mem, bufs: seq<Buf>, next: seq<int>, owner: map<int, nat>, order: seq<int>, clock: int, bound: int, S: Side, t: nat, moved: bool)
    requires World(m, bufs, next, owner, order, clock, bound) && t < |bufs| && order != []
    requires bufs[t].live != [] && FromEnd(bufs[t].live, S, 0) == FromEnd(order, S, 0)
    ensures World(Taken(m, FromEnd(order, S, 0)), bufs[t := Removed(bufs[t], S, moved)], next, owner, Rest(order, S), clock, bound)
  {
    var m', bufs' := Taken(m, FromEnd(order, S, 0)), bufs[t := Removed(bufs[t], S, moved)];
    forall u {:trigger ListIn(m', bufs', next, u)} | 0 <= u < |bufs'| ensures ListIn(m', bufs', next, u) {
      PopLists(m, bufs, next, owner, order, clock, bound, S, t, moved, u);
    }
    forall u, x {:trigger Owns(bufs'[u], x)} | 0 <= u < |bufs'| && Owns(bufs'[u], x) ensures x in owner && owner[x] == u && x in m' {
      PopLists(m, bufs, next, owner, order, clock, bound, S, t, moved, u);
    }
    assert ListIn(m, bufs, next, t);
    PopMerged(m, bufs, owner, order, clock, S, t, moved);
  }

  /** Where the end pointers belong after a removal. */
  lemma RemovedEnds(m: Mem, B: Buf, S: Side, next: int, moved: bool)
    requires BufOk(m, B, next) && EndOk(m, B, S, next) && EndOk(m, B, Opp(S), next) && B.live != []
    ensures var B' := Removed(B, S, moved);
            && |WalkOf(B', S)| > 0 && WalkOf(B', S)[0] == (if moved then FromEnd(B.live, S, 0) else WalkOf(B, S)[0])
            && |WalkOf(B', Opp(S))| > 0 && WalkOf(B', Opp(S))[0] == WalkOf(B, Opp(S))[0]
  {
    assert WalkOf(B, S)[SkipOf(B, S) + 0] == FromEnd(B.live, S, 0);
  }

  // ---------------------------------------------------------------- the scan of a pop

  /** The candidate is at least as far towards side S as the first item of the list. */
  ghost predicate Beats(m: Mem, S: Side, result: Option<int>, live: seq<int>) {
    live != [] ==> result.Some? && (result.value == FromEnd(live, S, 0) || IsMore(S, At(m, result.value), At(m, FromEnd(live, S, 0))))
  }

  lemma Transitive(S: Side, a: Item, b: Item, c: Item)
    requires IsMore(S, a, b) && IsMore(S, b, c)
    ensures IsMore(S, a, c)
  {
  }

  lemma Total(m: Mem, order: seq<int>, S: Side, a: int, b: int)
    requires LiveOk(m, order) && a in order && b in order && a != b
    ensures IsMore(S, At(m, a), At(m, b)) || IsMore(S, At(m, b), At(m, a))
  {
    var i :| 0 <= i < |order| && order[i] == a;
    var j :| 0 <= j < |order| && order[j] == b;
    if i < j { assert LeftOf(m, order, i, j); } else { assert LeftOf(m, order, j, i); }
    if S == RightSide {
      Mirror(At(m, a), At(m, b));
      Mirror(At(m, b), At(m, a));
    }
  }

  /** A better candidate beats whatever the old one beat, and a candidate that is kept beats the one that is not better. */
  lemma Better(m: Mem, order: seq<int>, S: Side, r: int, n: int, live: seq<int>)
    requires LiveOk(m, order) && r in order && n in order && Beats(m, S, Some(r), live)
    ensures IsMore(S, At(m, n), At(m, r)) ==> Beats(m, S, Some(n), live)
    ensures !IsMore(S, At(m, n), At(m, r)) ==> r == n || IsMore(S, At(m, r), At(m, n))
  {
    if r != n { Total(m, order, S, r, n); }
    if live != [] && IsMore(S, At(m, n), At(m, r)) && r != FromEnd(live, S, 0) { Transitive(S, At(m, n), At(m, r), At(m, FromEnd(live, S, 0))); }
  }

  /** A candidate that beats every list is the item at the end of the deque; without one the deque is empty. */
  lemma Winner(m: Mem, bufs: seq<Buf>, next: seq<int>, owner: map<int, nat>, order: seq<int>, clock: int, bound: int, S: Side, result: Option<int>)
    requires World(m, bufs, next, owner, order, clock, bound)
    requires forall t :: 0 <= t < |bufs| ==> Beats(m, S, result, bufs[t].live)
    requires result.Some? ==> result.value in order
    ensures result == if order == [] then None else Some(FromEnd(order, S, 0))
  {
    if order != [] {
      var e := FromEnd(order, S, 0);
      forall t | 0 <= t < |bufs| ensures LiveOk(m, bufs[t].live) { assert ListIn(m, bufs, next, t); }
      EndsMeet(m, bufs, owner, order, clock, S);
      assert Beats(m, S, result, bufs[owner[e]].live);
      Extreme(m, order, S, result.value);
      if result.value != e { Asymmetric(S, At(m, result.value), At(m, e)); }
    }
  }

  /** The end pointers of a list of thread t are those that the pops of thread tid remember. */
  ghost predicate Same(seen: map<Side, seq<seq<ItemPtr>>>, ends: map<Side, seq<ItemPtr>>, tid: nat, t: nat) {
    forall S: Side :: S in seen && S in ends && tid < |seen[S]| && t < |seen[S][tid]| && t < |ends[S]| && seen[S][tid][t] == ends[S][t]
  }

  /** The end pointers of a list are where its walks begin. */
  ghost predicate EndsAt(ends: map<Side, seq<ItemPtr>>, B: Buf, t: nat) {
    forall S: Side :: S in ends && t < |ends[S]| && |WalkOf(B, S)| > 0 && ends[S][t].item == WalkOf(B, S)[0]
  }

  lemma EndsKept(ends: map<Side, seq<ItemPtr>>, ends': map<Side, seq<ItemPtr>>, bufs: seq<Buf>, S: Side, t: nat, B': Buf)
    requires t < |bufs| && forall u {:trigger EndsAt(ends, bufs[u], u)} :: 0 <= u < |bufs| ==> EndsAt(ends, bufs[u], u)
    requires forall T: Side :: T in ends' && |ends'[T]| == |bufs|
    requires forall T: Side :: T in ends && |ends[T]| == |bufs|
    requires forall T: Side, u :: 0 <= u < |bufs| && u != t ==> ends'[T][u] == ends[T][u]
    requires |WalkOf(B', S)| > 0 && ends'[S][t].item == WalkOf(B', S)[0]
    requires |WalkOf(B', Opp(S))| > 0 && ends'[Opp(S)][t].item == WalkOf(B', Opp(S))[0]
    ensures forall u {:trigger EndsAt(ends', bufs[t := B'][u], u)} :: 0 <= u < |bufs| ==> EndsAt(ends', bufs[t := B'][u], u)
  {
    forall u {:trigger EndsAt(ends', bufs[t := B'][u], u)} | 0 <= u < |bufs| ensures EndsAt(ends', bufs[t := B'][u], u) {
      assert EndsAt(ends, bufs[u], u);
      forall T: Side ensures |WalkOf(bufs[t := B'][u], T)| > 0 && ends'[T][u].item == WalkOf(bufs[t := B'][u], T)[0] {
        assert T == S || T == Opp(S);
      }
    }
  }

  /** Where the end pointers belong after an insertion. */
  lemma InsertedEnds(m: Mem, B: Buf, S: Side, next: int, n: int)
    requires EndOk(m, B, S, next) && EndOk(m, B, Opp(S), next)
    ensures var B', p, q := Inserted(B, S, n), WalkOf(B, S), WalkOf(B, Opp(S));
            && |WalkOf(B', S)| > 0 && WalkOf(B', S)[0] == n
            && |WalkOf(B', Opp(S))| > 0 && WalkOf(B', Opp(S))[0] == if B.live != [] then q[0] else p[0]
  {
  }

  // ---------------------------------------------------------------- the stores of an insertion, and the start of a scan

  /** The three stores of an insertion make up `Linked`. */
  lemma LinkedSteps(m: Mem, B: Buf, S: Side, n: int, it: Item)
    requires |WalkOf(B, S)| > 0 && n != Base(B, S)
    ensures var b, x := Base(B, S), SetLink(SetLink(it, S, n), Opp(S), Base(B, S));
            var m1 := if B.live != [] then m else m[b := SetLink(At(m, b), Opp(S), b)];
            m1[n := x][b := SetLink(At(m1[n := x], b), S, n)] == Linked(m, B, S, n, it)
  {
  }

  /** Stamping the new item afterwards is the same as inserting it stamped. */
  lemma Stamp(m: Mem, B: Buf, S: Side, n: int, it: Item, top: int)
    requires |WalkOf(B, S)| > 0 && n != Base(B, S)
    ensures var m' := Linked(m, B, S, n, it.(timestamp := top)); m'[n := At(m', n).(timestamp := it.timestamp)] == Linked(m, B, S, n, it)
  {
  }

  lemma FirstIn(s: seq<int>)
    ensures s == [] || s[0] in s
  {
  }

  /** The live items lie between the two end pointers. */
  lemma FirstLive(m: Mem, B: Buf, S: Side, next: int)
    requires B.live != [] && EndOk(m, B, S, next) && EndOk(m, B, Opp(S), next)
    ensures var p, q, a := WalkOf(B, S), WalkOf(B, Opp(S)), SkipOf(B, S);
            && a < |p| && p[a] == FromEnd(B.live, S, 0)
            && forall j :: 0 <= j <= a ==> Key(At(m, p[j]), Opp(S)) <= Key(At(m, q[0]), Opp(S))
  {
    var p, q, a, b := WalkOf(B, S), WalkOf(B, Opp(S)), SkipOf(B, S), SkipOf(B, Opp(S));
    assert p[a + 0] == FromEnd(B.live, S, 0);
    var k := b + (|B.live| - 1);
    assert q[k] == FromEnd(B.live, Opp(S), |B.live| - 1) == p[a];
    assert k > 0 ==> Falls(m, Opp(S), q, 0, k);
    forall j | 0 <= j <= a ensures Key(At(m, p[j]), Opp(S)) <= Key(At(m, q[0]), Opp(S)) {
      assert j < a ==> Falls(m, S, p, j, a);
    }
  }
}
