/** The timestamped deque of ts_deque.h over the buffers of ts_deque_buffer.h, whole calls by any threads. */
module TSDeque {
  import opened DequeSpec
  import opened Ring
  import opened TSList
  import opened TSWorld

  /** The answer of a pop that finds nothing, and the null element of the buffers. */
  const EMPTY := 0

  /** The timestamp of an item that has none yet. */
  const TOP := 0xFFFF_FFFF_FFFF_FFFF

  /** A list of its sentinel alone. */
  lemma SentinelOk(m: Mem, t: int)
    requires t in m && m[t] == Item(t, t, true, 0, 0, 0)
    ensures BufOk(m, Buf([t], [t], 0, 0, []), 1)
  {
    assert LeadsOn(m, LeftSide, [t], 0) && LeadsOn(m, RightSide, [t], 0);
  }

  lemma Sentinels(threads: nat, m: Mem, bufs: seq<Buf>, next: seq<int>, owner: map<int, nat>)
    requires |bufs| == |next| == threads
    requires forall n :: n in m <==> 0 <= n < threads
    requires forall n :: 0 <= n < threads ==> m[n] == Item(n, n, true, 0, 0, 0) && n in owner && owner[n] == n
    requires forall n :: n in owner ==> n in m
    requires forall t :: 0 <= t < threads ==> bufs[t] == Buf([t], [t], 0, 0, []) && next[t] == 1
    ensures World(m, bufs, next, owner, [], 1, threads)
  {
    forall t {:trigger ListIn(m, bufs, next, t)} | 0 <= t < threads ensures ListIn(m, bufs, next, t) { SentinelOk(m, t); }
  }

  class Deque {
    const threads: nat
    /** All items ever inserted; the item pool does not hand an item out twice. */
    var items: Mem
    var nextItem: int
    /** The pointers to the two ends of each thread's list. */
    var ends: map<Side, seq<ItemPtr>>
    var nextIndex: seq<int>
    /** What each thread's pops remember of the end pointers, for their emptiness check. */
    var seen: map<Side, seq<seq<ItemPtr>>>
    var clock: int
    /** How often the weak compare-and-swap on `taken` may still fail for no reason. */
    var failures: nat

    ghost var bufs: seq<Buf>
    ghost var owner: map<int, nat>
    /** The live items of the deque from left to right. */
    ghost var order: seq<int>

    ghost predicate Shape()
      reads this
    {
      && threads > 0 && |nextIndex| == threads && |bufs| == threads
      && (forall S: Side :: S in ends && S in seen)
      && (forall S: Side :: |ends[S]| == threads && |seen[S]| == threads)
      && (forall S: Side, t :: 0 <= t < threads ==> |seen[S][t]| == threads)
    }


    ghost predicate Valid()
      reads this
    {
      && Shape()
      && (forall t {:trigger EndsAt(ends, bufs[t], t)} :: 0 <= t < threads ==> EndsAt(ends, bufs[t], t))
      && World(items, bufs, nextIndex, owner, order, clock, nextItem)
    }

    /** `initialize`: one taken sentinel for each thread; what a pop remembers is the junk that the memory held. */
    constructor (threads: nat, junk: ItemPtr, failures: nat)
      requires threads > 0
      ensures Valid() && Contents() == [] && this.threads == threads && this.failures == failures
      ensures ends[LeftSide][0].item == 0 && forall tid :: 0 <= tid < threads ==> seen[LeftSide][tid][0] == junk
    {
      this.failures := failures;
      this.threads := threads;
      var its: Mem := map n | 0 <= n < threads :: Item(n, n, true, 0, 0, 0);
      items := its;
      nextItem := threads;
      var sentinels := seq(threads, t => ItemPtr(t, 0));
      ends := map[LeftSide := sentinels, RightSide := sentinels];
      nextIndex := seq(threads, _ => 1);
      seen := map[LeftSide := seq(threads, _ => seq(threads, _ => junk)), RightSide := seq(threads, _ => seq(threads, _ => junk))];
      clock := 1;
      bufs := seq(threads, t => Buf([t], [t], 0, 0, []));
      owner := map n | n in its :: if n >= 0 then n else 0;
      order := [];
      new;
      forall S: Side ensures S in ends && S in seen && |ends[S]| == threads && ends[S] == sentinels && |seen[S]| == threads { if S == LeftSide {} }
      Sentinels(threads, items, bufs, nextIndex, owner);
      forall t {:trigger EndsAt(ends, bufs[t], t)} | 0 <= t < threads ensures EndsAt(ends, bufs[t], t) {}
    }

    /** The values of the deque from left to right. */
    ghost function Contents(): seq<int>
      reads this
    {
      Values(items, order)
    }

    // -------------------------------------------------------------- get_left_item, get_right_item

    /** The first live item of a list from end S. */
    method GetItem(S: Side, t: nat) returns (r: Option<int>)
      requires Shape() && t < threads && EndsAt(ends, bufs[t], t)
      requires EndOk(items, bufs[t], S, nextIndex[t]) && EndOk(items, bufs[t], Opp(S), nextIndex[t])
      ensures r == if bufs[t].live == [] then None else Some(FromEnd(bufs[t].live, S, 0))
    {
      ghost var B := bufs[t];
      ghost var p, a := WalkOf(B, S), SkipOf(B, S);
      var threshold := At(items, ends[Opp(S)][t].item).index;
      var result := ends[S][t].item;
      ghost var j := 0;
      if B.live != [] { FirstLive(items, B, S, nextIndex[t]); }
      while true
        invariant 0 <= j < |p| && result == p[j] && (B.live != [] ==> j <= a)
        decreases |p| - j
      {
        if (At(items, result).index - threshold) * Dir(Opp(S)) > 0 { return None; }
        if !At(items, result).taken { return Some(result); }
        assert j + 1 < |p| ==> Falls(items, S, p, j, j + 1);
        assert LeadsOn(items, S, p, j);
        if Link(At(items, result), Opp(S)) == result { return None; }
        result := Link(At(items, result), Opp(S));
        j := j + 1;
      }
    }

    // -------------------------------------------------------------- insert_left, insert_right

    /** What an insertion needs to know of its list. */
    ghost predicate ListAt(S: Side, t: nat)
      requires Shape() && t < threads
      reads this
    {
      && EndsAt(ends, bufs[t], t) && EndOk(items, bufs[t], S, nextIndex[t]) && EndOk(items, bufs[t], Opp(S), nextIndex[t])
      && Base(bufs[t], S) < nextItem
    }

    /** The first item from end S that is not taken, or the far end of the list if all are. */
    method FindBase(S: Side, t: nat) returns (base: int)
      requires Shape() && t < threads && ListAt(S, t)
      ensures base in items
      ensures if bufs[t].live != [] then base == FromEnd(bufs[t].live, S, 0) && !At(items, base).taken
              else At(items, base).taken && Link(At(items, base), Opp(S)) == base
    {
      ghost var B := bufs[t];
      ghost var p, a := WalkOf(B, S), SkipOf(B, S);
      base := ends[S][t].item;
      ghost var j := 0;
      if B.live != [] { FirstLive(items, B, S, nextIndex[t]); }
      while Link(At(items, base), Opp(S)) != base && At(items, base).taken
        invariant 0 <= j < |p| && base == p[j] && (B.live != [] ==> j <= a)
        decreases |p| - j
      {
        assert LeadsOn(items, S, p, j);
        base := Link(At(items, base), Opp(S));
        j := j + 1;
      }
      assert LeadsOn(items, S, p, j);
      assert j + 1 < |p| ==> Falls(items, S, p, j, j + 1);
    }

    method SetEnd(S: Side, t: nat, p: ItemPtr)
      requires Shape() && t < threads
      modifies `ends
      ensures Shape() && ends[S][t] == p && ends[Opp(S)][t] == old(ends[Opp(S)][t])
      ensures forall T: Side, u :: 0 <= u < threads && u != t ==> ends[T][u] == old(ends[T][u])
    {
      ends := ends[S := ends[S][t := p]];
      forall T: Side ensures T in ends && |ends[T]| == threads && forall u :: 0 <= u < threads && u != t ==> ends[T][u] == old(ends[T][u]) {
        if T != S { assert T == Opp(S); }
      }
    }

    /** The new item has no timestamp yet. */
    method Insert(S: Side, t: nat, element: int) returns (n: int)
      requires Shape() && t < threads && ListAt(S, t)
      modifies `items, `nextItem, `ends, `nextIndex
      ensures Shape() && n == old(nextItem) && nextItem == n + 1 && |WalkOf(bufs[t], S)| > 0
      ensures items == Linked(old(items), bufs[t], S, n, Item(n, n, false, element, TOP, old(nextIndex[t]) * Dir(S)))
      ensures nextIndex == old(nextIndex)[t := old(nextIndex[t]) + 1]
      ensures forall T: Side, u :: 0 <= u < threads && u != t ==> ends[T][u] == old(ends[T][u])
      ensures ends[S][t].item == n
      ensures ends[Opp(S)][t].item == if bufs[t].live != [] then old(ends[Opp(S)][t].item) else old(ends[S][t].item)
    {
      BaseIn(items, bufs[t], S, nextIndex[t]);
      n := nextItem;
      var it := Item(n, n, false, element, TOP, nextIndex[t] * Dir(S));
      LinkedSteps(items, bufs[t], S, n, it);
      var oldEnd := ends[S][t];
      var base := FindBase(S, t);
      nextItem := nextItem + 1;
      nextIndex := nextIndex[t := nextIndex[t] + 1];
      if At(items, base).taken && Link(At(items, base), Opp(S)) == base {
        base := oldEnd.item;
        items := items[base := SetLink(At(items, base), Opp(S), base)];
        SetEnd(Opp(S), t, ItemPtr(base, ends[Opp(S)][t].cntr + 1));
      }
      LinkNew(S, t, n, base, it, oldEnd);
    }

    /** The last stores of an insertion. */
    method LinkNew(S: Side, t: nat, n: int, base: int, it: Item, oldEnd: ItemPtr)
      requires Shape() && t < threads && n != base
      modifies `items, `ends
      ensures var x := old(items)[n := SetLink(SetLink(it, S, n), Opp(S), base)]; items == x[base := SetLink(At(x, base), S, n)]
      ensures Shape() && ends[S][t] == ItemPtr(n, oldEnd.cntr + 1) && ends[Opp(S)][t] == old(ends[Opp(S)][t])
      ensures forall T: Side, u :: 0 <= u < threads && u != t ==> ends[T][u] == old(ends[T][u])
    {
      items := items[n := SetLink(SetLink(it, S, n), Opp(S), base)];
      items := items[base := SetLink(At(items, base), S, n)];
      SetEnd(S, t, ItemPtr(n, oldEnd.cntr + 1));
    }

    /** The item is inserted, then `set_timestamp` stamps it with the clock. */
    method InsertNow(S: Side, t: nat, element: int) returns (n: int)
      requires Shape() && t < threads && ListAt(S, t)
      modifies `items, `nextItem, `ends, `nextIndex, `clock
      ensures Shape() && n == old(nextItem) && nextItem == n + 1 && clock == old(clock) + 1 && |WalkOf(bufs[t], S)| > 0
      ensures items == Linked(old(items), bufs[t], S, n, Item(n, n, false, element, old(clock), old(nextIndex[t]) * Dir(S)))
      ensures nextIndex == old(nextIndex)[t := old(nextIndex[t]) + 1]
      ensures forall T: Side, u :: 0 <= u < threads && u != t ==> ends[T][u] == old(ends[T][u])
      ensures ends[S][t].item == n
      ensures ends[Opp(S)][t].item == if bufs[t].live != [] then old(ends[Opp(S)][t].item) else old(ends[S][t].item)
    {
      Stamp(items, bufs[t], S, nextItem, Item(nextItem, nextItem, false, element, clock, nextIndex[t] * Dir(S)), TOP);
      n := Insert(S, t, element);
      items := items[n := At(items, n).(timestamp := clock)];
      clock := clock + 1;
    }

    /** The new item joins the history; e0 are the end pointers before. */
    ghost method Record(S: Side, t: nat, n: int, B': Buf, e0: map<Side, seq<ItemPtr>>)
      requires Shape() && t < threads
      requires forall u {:trigger EndsAt(e0, bufs[u], u)} :: 0 <= u < threads ==> EndsAt(e0, bufs[u], u)
      requires forall T: Side :: T in e0 && |e0[T]| == threads
      requires forall T: Side, u :: 0 <= u < threads && u != t ==> ends[T][u] == e0[T][u]
      requires |WalkOf(B', S)| > 0 && ends[S][t].item == WalkOf(B', S)[0]
      requires |WalkOf(B', Opp(S))| > 0 && ends[Opp(S)][t].item == WalkOf(B', Opp(S))[0]
      requires World(items, bufs[t := B'], nextIndex, owner[n := t], Add(S, order, n), clock, nextItem)
      modifies `bufs, `owner, `order
      ensures Valid() && order == Add(S, old(order), n)
    {
      EndsKept(e0, ends, bufs, S, t, B');
      bufs := bufs[t := B'];
      owner := owner[n := t];
      order := Add(S, order, n);
    }

    /** The same from outside. */
    method InsertStamped(S: Side, t: nat, element: int) returns (n: int)
      requires Valid() && t < threads
      modifies `items, `nextItem, `ends, `nextIndex, `clock
      ensures Shape() && n == old(nextItem) && nextItem == n + 1 && clock == old(clock) + 1 && |WalkOf(bufs[t], S)| > 0
      ensures items == Linked(old(items), bufs[t], S, n, Item(n, n, false, element, old(clock), old(nextIndex[t]) * Dir(S)))
      ensures nextIndex == old(nextIndex)[t := old(nextIndex[t]) + 1]
      ensures forall T: Side, u :: 0 <= u < threads && u != t ==> ends[T][u] == old(ends[T][u])
      ensures ends[S][t].item == n
      ensures ends[Opp(S)][t].item == if bufs[t].live != [] then old(ends[Opp(S)][t].item) else old(ends[S][t].item)
    {
      assert ListAt(S, t) by { ListKnown(S, t); }
      n := InsertNow(S, t, element);
    }

    lemma ListKnown(S: Side, t: nat)
      requires Valid() && t < threads
      ensures ListAt(S, t) && |WalkOf(bufs[t], S)| > 0
      ensures var B' := Inserted(bufs[t], S, nextItem); |WalkOf(B', S)| > 0 && nextItem == WalkOf(B', S)[0]
      ensures var B' := Inserted(bufs[t], S, nextItem);
              |WalkOf(B', Opp(S))| > 0 && WalkOf(B', Opp(S))[0] == if bufs[t].live != [] then ends[Opp(S)][t].item else ends[S][t].item
    {
      assert EndsAt(ends, bufs[t], t);
      BaseKnown(items, bufs, nextIndex, owner, order, clock, nextItem, S, t);
      InsertedEnds(items, bufs[t], S, nextIndex[t], nextItem);
    }

    lemma PushPlan(S: Side, t: nat, it: Item)
      requires Valid() && t < threads && it == Item(nextItem, nextItem, false, it.data, clock, nextIndex[t] * Dir(S))
      ensures |WalkOf(bufs[t], S)| > 0
      ensures var m', n := Linked(items, bufs[t], S, nextItem, it), nextItem;
              && World(m', bufs[t := Inserted(bufs[t], S, n)], nextIndex[t := nextIndex[t] + 1], owner[n := t], Add(S, order, n), clock + 1, n + 1)
              && Values(m', Add(S, order, n)) == Add(S, Contents(), it.data)
    {
      assert EndsAt(ends, bufs[t], t);
      PushWorld(items, bufs, nextIndex, owner, order, clock, nextItem, S, t, it);
      ValuesAdd(items, Linked(items, bufs[t], S, nextItem, it), order, S, nextItem);
    }

    /** After the insertion everything but the history is in place. */
    method InsertPlanned(S: Side, t: nat, element: int) returns (n: int)
      requires Valid() && t < threads
      modifies `items, `nextItem, `ends, `nextIndex, `clock
      ensures Shape() && n == old(nextItem)
      ensures World(items, bufs[t := Inserted(bufs[t], S, n)], nextIndex, owner[n := t], Add(S, order, n), clock, nextItem)
      ensures Values(items, Add(S, order, n)) == Add(S, old(Contents()), element)
      ensures forall T: Side, u :: 0 <= u < threads && u != t ==> ends[T][u] == old(ends[T][u])
      ensures ends[S][t].item == n
      ensures ends[Opp(S)][t].item == if bufs[t].live != [] then old(ends[Opp(S)][t].item) else old(ends[S][t].item)
    {
      ghost var it := Item(nextItem, nextItem, false, element, clock, nextIndex[t] * Dir(S));
      PushPlan(S, t, it);
      ghost var m1, next1, clock1, n1 := Linked(items, bufs[t], S, nextItem, it), nextIndex[t := nextIndex[t] + 1], clock + 1, nextItem + 1;
      n := InsertStamped(S, t, element);
      assert items == m1 && nextIndex == next1 && clock == clock1 && nextItem == n1;
    }

    method PushAny(S: Side, t: nat, element: int)
      requires Valid() && t < threads
      modifies this
      ensures Valid() && Contents() == Add(S, old(Contents()), element)
    {
      ghost var e0 := ends;
      ListKnown(S, t);
      var n := InsertPlanned(S, t, element);
      Record(S, t, n, Inserted(bufs[t], S, n), e0);
    }

    /** `left_push` and `right_push`. */
    method Push(S: Side, t: nat, element: int)
      requires Valid() && t < threads && element != EMPTY && EMPTY !in Contents()
      modifies this
      ensures Valid() && Contents() == Add(S, old(Contents()), element) && EMPTY !in Contents()
    {
      PushAny(S, t, element);
    }

    // -------------------------------------------------------------- try_remove_left, try_remove_right

    /** Every end pointer is as the pops of thread tid remember it. */
    ghost predicate Checked(tid: nat)
      reads this
    {
      forall t :: 0 <= t < threads ==> Same(seen, ends, tid, t)
    }

    method Remember(S: Side, tid: nat, t: nat) returns (same: bool)
      requires Shape() && tid < threads && t < threads
      modifies `seen
      ensures Shape() && (same <==> old(seen[S][tid][t]) == ends[S][t]) && seen[S][tid][t] == ends[S][t]
      ensures forall T: Side, u :: 0 <= u < threads && (T != S || u != t) ==> seen[T][tid][u] == old(seen[T][tid][u])
    {
      same := seen[S][tid][t] == ends[S][t];
      if !same { seen := seen[S := seen[S][tid := seen[S][tid][t := ends[S][t]]]]; }
    }

    /** The emptiness check of one list: have its end pointers changed since the last time? */
    method Recheck(S: Side, tid: nat, t: nat) returns (same: bool)
      requires Shape() && tid < threads && t < threads
      modifies `seen
      ensures Shape() && (same <==> old(Same(seen, ends, tid, t))) && Same(seen, ends, tid, t)
      ensures forall T: Side, u :: 0 <= u < threads && u != t ==> seen[T][tid][u] == old(seen[T][tid][u])
    {
      var near := Remember(S, tid, t);
      var far := Remember(Opp(S), tid, t);
      same := near && far;
      forall T: Side ensures seen[T][tid][t] == ends[T][t] { assert T == S || T == Opp(S); }
      if same {
        forall T: Side ensures old(seen[T][tid][t]) == ends[T][t] { assert T == S || T == Opp(S); }
      }
    }

    /** One list's turn in a scan. */
    method Visit(S: Side, tid: nat, t: nat, result: Option<int>, from: nat) returns (best: Option<int>, at: nat, same: bool)
      requires Valid() && tid < threads && t < threads && CandidateOk(S, result, from)
      modifies `seen
      ensures Valid() && CandidateOk(S, best, at) && Beats(items, S, best, bufs[t].live)
      ensures forall u :: 0 <= u < threads && Beats(items, S, result, bufs[u].live) ==> Beats(items, S, best, bufs[u].live)
      ensures if bufs[t].live != [] then !same else (same <==> old(Same(seen, ends, tid, t))) && Same(seen, ends, tid, t)
      ensures forall T: Side, u :: 0 <= u < threads && u != t ==> seen[T][tid][u] == old(seen[T][tid][u])
    {
      best, at := result, from;
      assert EndsAt(ends, bufs[t], t) && ListIn(items, bufs, nextIndex, t);
      var item := GetItem(S, t);
      if item == None {
        same := Recheck(S, tid, t);
      } else {
        same := false;
        best, at := Compare(S, t, item.value, result, from);
      }
    }

    /** The item of this list against the candidate so far. */
    method Compare(S: Side, t: nat, item: int, result: Option<int>, from: nat) returns (best: Option<int>, at: nat)
      requires Valid() && t < threads && CandidateOk(S, result, from) && bufs[t].live != [] && item == FromEnd(bufs[t].live, S, 0)
      ensures CandidateOk(S, best, at) && Beats(items, S, best, bufs[t].live)
      ensures forall u :: 0 <= u < threads && Beats(items, S, result, bufs[u].live) ==> Beats(items, S, best, bufs[u].live)
    {
      best, at := result, from;
      assert item in bufs[t].live && item in order;
      if result.Some? { BeatsAll(S, result.value, item); }
      if result == None || IsMore(S, At(items, item), At(items, result.value)) { best, at := Some(item), t; }
    }

    lemma BeatsAll(S: Side, r: int, x: int)
      requires Valid() && r in order && x in order
      ensures IsMore(S, At(items, x), At(items, r)) ==>
                forall u :: 0 <= u < threads && Beats(items, S, Some(r), bufs[u].live) ==> Beats(items, S, Some(x), bufs[u].live)
      ensures x != r && !IsMore(S, At(items, x), At(items, r)) ==> IsMore(S, At(items, r), At(items, x))
    {
      if IsMore(S, At(items, x), At(items, r)) {
        forall u | 0 <= u < threads && Beats(items, S, Some(r), bufs[u].live) ensures Beats(items, S, Some(x), bufs[u].live) {
          Better(items, order, S, r, x, bufs[u].live);
        }
      }
      Better(items, order, S, r, x, []);
    }

    ghost predicate CandidateOk(S: Side, result: Option<int>, at: nat)
      requires Shape()
      reads this
    {
      result.Some? ==> at < threads && bufs[at].live != [] && result.value == FromEnd(bufs[at].live, S, 0) && result.value in order
    }

    // What a scan that began at list `start` knows after i turns.

    ghost predicate BeatsTo(S: Side, result: Option<int>, start: nat, i: nat)
      requires Shape() && start < threads && i <= threads
      reads this
    {
      forall k {:trigger Index(start, k, threads)} :: 0 <= k < i ==> Beats(items, S, result, bufs[Index(start, k, threads)].live)
    }

    ghost predicate NothingTo(start: nat, i: nat)
      requires Shape() && start < threads && i <= threads
      reads this
    {
      forall k {:trigger Index(start, k, threads)} :: 0 <= k < i ==> bufs[Index(start, k, threads)].live == []
    }

    ghost predicate SameTo(was: map<Side, seq<seq<ItemPtr>>>, tid: nat, start: nat, i: nat)
      requires Shape() && start < threads && i <= threads
      reads this
    {
      forall k {:trigger Index(start, k, threads)} :: 0 <= k < i ==> Same(was, ends, tid, Index(start, k, threads))
    }

    /** The pointers remembered for lists whose turn is to come are as they were. */
    ghost predicate AsBefore(was: map<Side, seq<seq<ItemPtr>>>, tid: nat, start: nat, i: nat)
      requires Shape() && start < threads && tid < threads
      reads this
    {
      forall k {:trigger Index(start, k, threads)} :: i <= k < threads ==>
        forall T: Side :: T in was && tid < |was[T]| && Index(start, k, threads) < |was[T][tid]|
                          && seen[T][tid][Index(start, k, threads)] == was[T][tid][Index(start, k, threads)]
    }

    ghost predicate Scanned(S: Side, tid: nat, start: nat, i: nat, result: Option<int>, at: nat, empty: bool, was: map<Side, seq<seq<ItemPtr>>>)
      reads this
    {
      && Valid() && tid < threads && start < threads && i <= threads
      && CandidateOk(S, result, at) && BeatsTo(S, result, start, i) && AsBefore(was, tid, start, i)
      && (empty <==> NothingTo(start, i) && SameTo(was, tid, start, i))
      && (NothingTo(start, i) ==> SameTo(seen, tid, start, i))
    }

    method NextTurn(S: Side, tid: nat, start: nat, i: nat, t: nat, result: Option<int>, at: nat, empty: bool, ghost was: map<Side, seq<seq<ItemPtr>>>)
      returns (best: Option<int>, from: nat, still: bool)
      requires Scanned(S, tid, start, i, result, at, empty, was) && i < threads && t == Index(start, i, threads)
      modifies `seen
      ensures Scanned(S, tid, start, i + 1, best, from, still, was)
    {
      ghost var before := seen;
      var same;
      best, from, same := Visit(S, tid, t, result, at);
      still := empty && same;
      BeatsMore(S, result, best, start, i);
      SameMore(was, before, tid, start, i);
    }

    lemma BeatsMore(S: Side, result: Option<int>, best: Option<int>, start: nat, i: nat)
      requires Shape() && start < threads && i < threads && BeatsTo(S, result, start, i)
      requires Beats(items, S, best, bufs[Index(start, i, threads)].live)
      requires forall u :: 0 <= u < threads && Beats(items, S, result, bufs[u].live) ==> Beats(items, S, best, bufs[u].live)
      ensures BeatsTo(S, best, start, i + 1)
      ensures NothingTo(start, i + 1) <==> NothingTo(start, i) && bufs[Index(start, i, threads)].live == []
    {
    }

    lemma SameMore(was: map<Side, seq<seq<ItemPtr>>>, before: map<Side, seq<seq<ItemPtr>>>, tid: nat, start: nat, i: nat)
      requires Shape() && start < threads && i < threads && tid < threads
      requires forall T: Side :: T in before && |before[T]| == threads && |before[T][tid]| == threads
      requires forall T: Side, u :: 0 <= u < threads && u != Index(start, i, threads) ==> seen[T][tid][u] == before[T][tid][u]
      requires forall k {:trigger Index(start, k, threads)} :: i <= k < threads ==>
                 forall T: Side :: T in was && tid < |was[T]| && Index(start, k, threads) < |was[T][tid]|
                                   && before[T][tid][Index(start, k, threads)] == was[T][tid][Index(start, k, threads)]
      ensures AsBefore(was, tid, start, i + 1) && (Same(before, ends, tid, Index(start, i, threads)) <==> Same(was, ends, tid, Index(start, i, threads)))
      ensures SameTo(was, tid, start, i + 1) <==> SameTo(was, tid, start, i) && Same(was, ends, tid, Index(start, i, threads))
      ensures SameTo(before, tid, start, i) && Same(seen, ends, tid, Index(start, i, threads)) ==> SameTo(seen, tid, start, i + 1)
    {
      forall k | 0 <= k < threads && k != i ensures Index(start, k, threads) != Index(start, i, threads) {}
      forall k {:trigger Index(start, k, threads)} | i + 1 <= k < threads
        ensures forall T: Side :: T in was && tid < |was[T]| && Index(start, k, threads) < |was[T][tid]|
                                  && seen[T][tid][Index(start, k, threads)] == was[T][tid][Index(start, k, threads)]
      {
        var u := Index(start, k, threads);
        forall T: Side ensures T in was && tid < |was[T]| && u < |was[T][tid]| && seen[T][tid][u] == was[T][tid][u] {
          assert seen[T][tid][u] == before[T][tid][u];
        }
      }
      forall k | 0 <= k < i && Same(before, ends, tid, Index(start, k, threads)) ensures Same(seen, ends, tid, Index(start, k, threads)) {}
    }

    /** All lists have their turn, from list `start` on. */
    method AllLists(S: Side, tid: nat, start: nat) returns (result: Option<int>, at: nat, empty: bool)
      requires Valid() && tid < threads && start < threads
      modifies `seen
      ensures Scanned(S, tid, start, threads, result, at, empty, old(seen))
    {
      ghost var was := seen;
      result, at, empty := None, 0, true;
      var i := 0;
      while i < threads
        invariant Scanned(S, tid, start, i, result, at, empty, was)
      {
        IndexIsMod(start, i, threads);
        result, at, empty := NextTurn(S, tid, start, i, (start + i) % threads, result, at, empty, was);
        i := i + 1;
      }
    }

    /** The scan of a pop, from an arbitrary list on. */
    method Scan(S: Side, tid: nat) returns (result: Option<int>, at: nat, empty: bool)
      requires Valid() && tid < threads
      modifies `seen
      ensures Valid() && CandidateOk(S, result, at)
      ensures result == if order == [] then None else Some(FromEnd(order, S, 0))
      ensures if order == [] then (empty <==> old(Checked(tid))) && Checked(tid) else !empty
    {
      var random: nat := *;
      var start := random % threads;
      ghost var was := seen;
      result, at, empty := AllLists(S, tid, start);
      AllTurns(S, tid, start, result, at, empty, was);
    }

    lemma AllTurns(S: Side, tid: nat, start: nat, result: Option<int>, at: nat, empty: bool, was: map<Side, seq<seq<ItemPtr>>>)
      requires Scanned(S, tid, start, threads, result, at, empty, was)
      ensures result == if order == [] then None else Some(FromEnd(order, S, 0))
      ensures order != [] ==> !empty
      ensures order == [] ==> Checked(tid) && (empty <==> forall t :: 0 <= t < threads ==> Same(was, ends, tid, t))
    {
      forall t | 0 <= t < threads ensures Beats(items, S, result, bufs[t].live) {
        var k := Turn(start, t, threads);
        assert Beats(items, S, result, bufs[Index(start, k, threads)].live);
      }
      Winner(items, bufs, nextIndex, owner, order, clock, nextItem, S, result);
      if order == [] {
        forall t | 0 <= t < threads ensures bufs[t].live == [] { FirstIn(bufs[t].live); }
        forall t | 0 <= t < threads ensures Same(seen, ends, tid, t) && (empty ==> Same(was, ends, tid, t)) {
          var k := Turn(start, t, threads);
          assert Same(seen, ends, tid, Index(start, k, threads));
        }
      } else {
        EndsMeetHere(S);
        var k := Turn(start, owner[FromEnd(order, S, 0)], threads);
        assert bufs[Index(start, k, threads)].live != [];
      }
    }

    lemma EndsMeetHere(S: Side)
      requires Valid() && order != []
      ensures var e := FromEnd(order, S, 0); e in owner && owner[e] < threads && bufs[owner[e]].live != []
    {
      forall t | 0 <= t < |bufs| ensures LiveOk(items, bufs[t].live) { assert ListIn(items, bufs, nextIndex, t); }
      EndsMeet(items, bufs, owner, order, clock, S);
    }

    /** The item found is taken; the swing of the end pointer may fail. */
    method TakeItem(S: Side, r: int, at: nat, oldEnd: ItemPtr, moved: bool) returns (element: int)
      requires Shape() && at < threads
      modifies `items, `ends
      ensures Shape() && items == Taken(old(items), r) && element == At(old(items), r).data
      ensures forall T: Side, u :: 0 <= u < threads && u != at ==> ends[T][u] == old(ends[T][u])
      ensures ends[S][at].item == (if moved then r else old(ends[S][at].item)) && ends[Opp(S)][at] == old(ends[Opp(S)][at])
    {
      items := items[r := At(items, r).(taken := true)];
      if moved { SetEnd(S, at, ItemPtr(r, oldEnd.cntr)); }
      element := At(items, r).data;
    }

    /** The taken item leaves the history. */
    ghost method Erase(S: Side, at: nat, B': Buf)
      requires Shape() && at < threads && order != []
      requires forall u {:trigger EndsAt(ends, bufs[at := B'][u], u)} :: 0 <= u < threads ==> EndsAt(ends, bufs[at := B'][u], u)
      requires World(items, bufs[at := B'], nextIndex, owner, Rest(order, S), clock, nextItem)
      modifies `bufs, `order
      ensures Valid() && order == Rest(old(order), S)
    {
      bufs := bufs[at := B'];
      order := Rest(order, S);
    }

    method Take(S: Side, r: int, at: nat, oldEnd: ItemPtr) returns (element: int)
      requires Valid() && order != [] && CandidateOk(S, Some(r), at) && r == FromEnd(order, S, 0)
      modifies `items, `ends, `bufs, `order
      ensures Valid() && old(Contents()) == Add(S, Contents(), element)
    {
      ghost var e0, B := ends, bufs[at];
      var swings: bool := *;
      var moved := swings && ends[S][at] == oldEnd;
      RemovalPlan(S, r, at, moved);
      element := TakeItem(S, r, at, oldEnd, moved);
      EndsKept(e0, ends, bufs, S, at, Removed(B, S, moved));
      Erase(S, at, Removed(B, S, moved));
    }

    lemma RemovalPlan(S: Side, r: int, at: nat, moved: bool)
      requires Valid() && order != [] && CandidateOk(S, Some(r), at) && r == FromEnd(order, S, 0)
      ensures World(Taken(items, r), bufs[at := Removed(bufs[at], S, moved)], nextIndex, owner, Rest(order, S), clock, nextItem)
      ensures Contents() == Add(S, Values(Taken(items, r), Rest(order, S)), At(items, r).data)
      ensures var B' := Removed(bufs[at], S, moved);
              && |WalkOf(B', S)| > 0 && WalkOf(B', S)[0] == (if moved then r else ends[S][at].item)
              && |WalkOf(B', Opp(S))| > 0 && WalkOf(B', Opp(S))[0] == ends[Opp(S)][at].item
    {
      PopWorld(items, bufs, nextIndex, owner, order, clock, nextItem, S, at, moved);
      ValuesRest(items, order, S);
      assert EndsAt(ends, bufs[at], at) && ListIn(items, bufs, nextIndex, at);
      RemovedEnds(items, bufs[at], S, nextIndex[at], moved);
    }

    /**
     * One scan: it takes the item at the end of the deque, unless the swap of `taken` fails for no reason, or finds nothing
     * and says whether anything had changed.
     */
    method TryRemove(S: Side, tid: nat) returns (again: bool, element: int)
      requires Valid() && tid < threads
      modifies this
      ensures Valid() && failures <= old(failures) <= failures + 1
      ensures old(order) != [] && failures == old(failures) ==> again && old(Contents()) == Add(S, Contents(), element)
      ensures old(order) != [] && failures < old(failures) ==> again && element == EMPTY && Contents() == old(Contents()) && order == old(order)
      ensures old(order) == [] ==> failures == old(failures) && order == [] && element == EMPTY && (again <==> !old(Checked(tid))) && Checked(tid)
    {
      var startTime := clock;
      var result, at, empty := Scan(S, tid);
      if result.Some? {
        assert FromEnd(order, S, 0) in order;
        if !(startTime < At(items, result.value).timestamp) {
          var oldEnd := ends[S][at];
          var fails: bool := *;
          if fails && failures > 0 {
            failures := failures - 1;
          } else {
            element := Take(S, result.value, at, oldEnd);
            return true, element;
          }
        }
      }
      return !empty, EMPTY;
    }

    /**
     * `left_pop` and `right_pop`: what a plain deque answers. One scan, or at most two if there is nothing, and one more for
     * each swap of `taken` that failed for no reason.
     */
    method Pop(S: Side, tid: nat) returns (element: int, ghost scans: nat)
      requires Valid() && tid < threads && EMPTY !in Contents()
      modifies this
      ensures Valid() && EMPTY !in Contents()
      ensures if old(Contents()) == [] then element == EMPTY && Contents() == [] else old(Contents()) == Add(S, Contents(), element)
      ensures failures <= old(failures) && (old(Contents()) == [] ==> failures == old(failures))
      ensures scans == (if old(Contents()) == [] && !old(Checked(tid)) then 2 else 1) + (old(failures) - failures)
    {
      ghost var q := Contents();
      assert order != [] <==> q != [];
      var again;
      again, element := TryRemove(S, tid);
      scans := 1;
      while again && element == EMPTY
        invariant Valid() && EMPTY !in Contents() && failures <= old(failures)
        invariant q != [] ==>
          if again && element == EMPTY then Contents() == q && order != [] && scans == old(failures) - failures
          else q == Add(S, Contents(), element) && element != EMPTY && scans == 1 + (old(failures) - failures)
        invariant q == [] ==> order == [] && element == EMPTY && Checked(tid) && failures == old(failures)
        invariant q == [] ==> scans == (if again then 1 else if old(Checked(tid)) then 1 else 2) && (again ==> !old(Checked(tid)))
        decreases failures, again && element == EMPTY
      {
        again, element := TryRemove(S, tid);
        scans := scans + 1;
      }
    }
  }

  /** A pop of an empty deque does make a second scan: the first pop of a thread finds no end pointer as it remembers it. */
  method SecondScan(threads: nat, tid: nat, S: Side, junk: ItemPtr) returns (element: int, ghost scans: nat)
    requires tid < threads && junk.item != 0
    ensures element == EMPTY && scans == 2
  {
    var d := new Deque(threads, junk, 0);
    assert !Same(d.seen, d.ends, tid, 0);
    element, scans := d.Pop(S, tid);
  }
}
