/** HazardTracker.cpp, whole calls: what `empty` frees, and how long a thread's list of retired blocks can grow. */
module HazardTracker {
  import opened Counting

  const NULL := 0

  // ---------------------------------------------------------------- specification

  /**
   * `empty` from position i on: a block found in a slot stays; any other is erased and the block behind it is passed over,
   * because the iterator that `erase` returns is incremented once more. The result is the list and the freed blocks.
   */
  function Scan(l: seq<int>, slots: seq<int>, i: nat): (seq<int>, seq<int>)
    decreases |l| - i
  {
    if i >= |l| then (l, [])
    else if l[i] in slots then Scan(l, slots, i + 1)
    else
      var r := Scan(l[..i] + l[i + 1..], slots, i + 1);
      (r.0, [l[i]] + r.1)
  }

  datatype Trash = Trash(list: seq<int>, counter: int, freed: seq<int>)

  /** `retire` on a thread's list and counter. */
  function Retired(t: Trash, ptr: int, slots: seq<int>, freq: int, collect: bool): Trash {
    if ptr == NULL then t
    else
      var l := t.list + [ptr];
      if collect && t.counter == freq then Trash(Scan(l, slots, 0).0, 1, t.freed + Scan(l, slots, 0).1)
      else Trash(l, t.counter + 1, t.freed)
  }

  ghost predicate Distinct(l: seq<int>) { forall i, j :: 0 <= i < j < |l| ==> l[i] != l[j] }

  function HotCount(l: seq<int>, slots: seq<int>): nat {
    if l == [] then 0 else (if l[0] in slots then 1 else 0) + HotCount(l[1..], slots)
  }

  // ---------------------------------------------------------------- what a scan does

  /** Nothing is lost or made up: each block of the list is kept or freed, and only blocks in no slot are freed. */
  lemma {:induction false} ScanSplits(l: seq<int>, slots: seq<int>, i: nat)
    ensures var r := Scan(l, slots, i); multiset(r.0) + multiset(r.1) == multiset(l) && forall x :: x in r.1 ==> x !in slots
    decreases |l| - i
  {
    if i < |l| {
      if l[i] in slots {
        ScanSplits(l, slots, i + 1);
      } else {
        var m := l[..i] + l[i + 1..];
        ScanSplits(m, slots, i + 1);
        assert l == l[..i] + [l[i]] + l[i + 1..];
        assert multiset(l) == multiset(m) + multiset{l[i]};
      }
    }
  }

  /** Block k of the list is erased: it is in no slot, and the block before it was not erased. */
  predicate Erased(l: seq<int>, slots: seq<int>, k: nat)
    requires k < |l|
  {
    l[k] !in slots && (k == 0 || !Erased(l, slots, k - 1))
  }

  /** Those of the first n blocks that are erased, and those that are not. */
  function Chosen(l: seq<int>, slots: seq<int>, n: nat, erased: bool): seq<int>
    requires n <= |l|
  {
    if n == 0 then [] else Chosen(l, slots, n - 1, erased) + (if Erased(l, slots, n - 1) == erased then [l[n - 1]] else [])
  }

  /** The scan that has kept and erased these blocks and has b before it ends with K kept and G erased. */
  ghost predicate Leads(kept: seq<int>, gone: seq<int>, b: seq<int>, slots: seq<int>, K: seq<int>, G: seq<int>) {
    var r := Scan(kept + b, slots, |kept|); r.0 == K && gone + r.1 == G
  }

  lemma LeadsKept(kept: seq<int>, gone: seq<int>, b: seq<int>, slots: seq<int>, K: seq<int>, G: seq<int>)
    requires b != [] && b[0] in slots && Leads(kept + [b[0]], gone, b[1..], slots, K, G)
    ensures Leads(kept, gone, b, slots, K, G)
  {
    assert (kept + [b[0]]) + b[1..] == kept + b;
  }

  /** An erased block, and the one behind it that is passed over. */
  lemma LeadsErased(kept: seq<int>, gone: seq<int>, b: seq<int>, slots: seq<int>, K: seq<int>, G: seq<int>)
    requires |b| > 1 && b[0] !in slots && Leads(kept + [b[1]], gone + [b[0]], b[2..], slots, K, G)
    ensures Leads(kept, gone, b, slots, K, G)
  {
    assert (kept + b)[..|kept|] + (kept + b)[|kept| + 1..] == (kept + [b[1]]) + b[2..];
    Joined(gone, b[0], Scan((kept + [b[1]]) + b[2..], slots, |kept + [b[1]]|).1);
  }

  lemma LeadsEnd(kept: seq<int>, gone: seq<int>, b: seq<int>, slots: seq<int>)
    requires b == [] || (|b| == 1 && b[0] !in slots)
    ensures Leads(kept, gone, b, slots, kept, gone + b)
  {
    if b == [] {
      assert kept + b == kept;
    } else {
      assert (kept + b)[..|kept|] + (kept + b)[|kept| + 1..] == kept;
      assert [b[0]] + [] == b;
    }
  }

  lemma ChosenPair(l: seq<int>, slots: seq<int>, j: nat)
    requires j + 1 < |l| && Erased(l, slots, j)
    ensures Chosen(l, slots, j + 2, false) == Chosen(l, slots, j, false) + [l[j + 1]]
    ensures Chosen(l, slots, j + 2, true) == Chosen(l, slots, j, true) + [l[j]]
  {
    assert !Erased(l, slots, j + 1);
    assert Chosen(l, slots, j + 1, false) == Chosen(l, slots, j, false) && Chosen(l, slots, j + 1, true) == Chosen(l, slots, j, true) + [l[j]];
  }

  lemma Joined(a: seq<int>, x: int, b: seq<int>)
    ensures a + ([x] + b) == (a + [x]) + b
  {
  }

  /** The scan that has come to block j. */
  lemma {:induction false} ScanFrom(l: seq<int>, slots: seq<int>, j: nat)
    requires j <= |l| && (j == 0 || !Erased(l, slots, j - 1))
    ensures Leads(Chosen(l, slots, j, false), Chosen(l, slots, j, true), l[j..], slots, Chosen(l, slots, |l|, false), Chosen(l, slots, |l|, true))
    decreases |l| - j
  {
    var kept, gone, b := Chosen(l, slots, j, false), Chosen(l, slots, j, true), l[j..];
    if j == |l| || (j + 1 == |l| && l[j] !in slots) {
      LeadsEnd(kept, gone, b, slots);
      assert gone + [] == gone;
    } else if l[j] in slots {
      ScanFrom(l, slots, j + 1);
      LeadsKept(kept, gone, b, slots, Chosen(l, slots, |l|, false), Chosen(l, slots, |l|, true));
    } else {
      ScanFrom(l, slots, j + 2);
      ChosenPair(l, slots, j);
      LeadsErased(kept, gone, b, slots, Chosen(l, slots, |l|, false), Chosen(l, slots, |l|, true));
    }
  }

  /** Exactly: the scan frees the erased blocks and keeps the others, both in their order. */
  lemma ScanExact(l: seq<int>, slots: seq<int>)
    ensures Scan(l, slots, 0) == (Chosen(l, slots, |l|, false), Chosen(l, slots, |l|, true))
  {
    ScanFrom(l, slots, 0);
    assert [] + l[0..] == l;
    assert [] + Scan(l, slots, 0).1 == Scan(l, slots, 0).1;
  }

  lemma {:induction false} HotCountSplit(a: seq<int>, b: seq<int>, slots: seq<int>)
    ensures HotCount(a + b, slots) == HotCount(a, slots) + HotCount(b, slots)
  {
    if a == [] {
      assert a + b == b;
    } else {
      HotCountSplit(a[1..], b, slots);
      assert (a + b)[1..] == a[1..] + b;
    }
  }

  /** Each kept block beyond position i is in a slot, or was passed over after an erasure. */
  lemma {:induction false} ScanKeeps(l: seq<int>, slots: seq<int>, i: nat)
    requires i <= |l|
    ensures var r := Scan(l, slots, i);
            |r.0| + |r.1| == |l| && |r.0| - i <= HotCount(l[i..], slots) + |r.1|
    decreases |l| - i
  {
    if i < |l| {
      assert l[i..][1..] == l[i + 1..];
      if l[i] in slots {
        ScanKeeps(l, slots, i + 1);
      } else {
        var m := l[..i] + l[i + 1..];
        if i + 1 <= |m| {
          ScanKeeps(m, slots, i + 1);
          assert m[i + 1..] == l[i + 2..];
          assert l[i + 1..][1..] == l[i + 2..];
        }
      }
    }
  }

  lemma {:induction false} HotMembers(l: seq<int>, slots: seq<int>) returns (hot: set<int>)
    requires Distinct(l)
    ensures |hot| == HotCount(l, slots) && forall x :: x in hot ==> x in slots && x in l
  {
    if l == [] {
      hot := {};
    } else {
      hot := HotMembers(l[1..], slots);
      if l[0] in slots { hot := hot + {l[0]}; }
    }
  }

  /** A scan leaves at most half of the list plus half of the slots. */
  lemma ScanHalves(l: seq<int>, slots: seq<int>)
    requires Distinct(l)
    ensures 2 * |Scan(l, slots, 0).0| <= |l| + |slots|
  {
    ScanKeeps(l, slots, 0);
    assert l[0..] == l;
    var hot := HotMembers(l, slots);
    FewerThan(slots, hot);
  }

  lemma {:induction false} ScanDistinct(l: seq<int>, slots: seq<int>, i: nat)
    requires Distinct(l)
    ensures Distinct(Scan(l, slots, i).0)
    decreases |l| - i
  {
    if i < |l| {
      if l[i] in slots { ScanDistinct(l, slots, i + 1); } else { ScanDistinct(l[..i] + l[i + 1..], slots, i + 1); }
    }
  }

  // ---------------------------------------------------------------- bounded garbage

  /** Between two scans the list grows by one with each count. */
  ghost predicate Room(t: Trash, places: nat, freq: int) {
    && Distinct(t.list) && 0 <= t.counter <= freq
    && |t.list| <= (if t.counter == 0 then 0 else places + freq + t.counter - 1)
  }

  lemma RetireBounded(t: Trash, ptr: int, slots: seq<int>, freq: int)
    requires Room(t, |slots|, freq) && freq >= 1 && ptr !in t.list
    ensures Room(Retired(t, ptr, slots, freq, true), |slots|, freq)
    ensures |t.list + [ptr]| <= |slots| + 2 * freq
  {
    var l := t.list + [ptr];
    ScanHalves(l, slots);
    ScanDistinct(l, slots, 0);
  }

  /** One call of `retire`, with the slots as they are during it. */
  datatype Call = Call(ptr: int, slots: seq<int>)

  function RetireAll(calls: seq<Call>, freq: int, collect: bool): Trash {
    if calls == [] then Trash([], 0, [])
    else
      var c := calls[|calls| - 1];
      Retired(RetireAll(calls[..|calls| - 1], freq, collect), c.ptr, c.slots, freq, collect)
  }

  /** No block is retired while it is still on the list, as `retire` asserts. */
  ghost predicate Legal(calls: seq<Call>, places: nat, freq: int, collect: bool) {
    forall k :: 0 <= k < |calls| ==> |calls[k].slots| == places && calls[k].ptr !in RetireAll(calls[..k], freq, collect).list
  }

  lemma {:induction false} RunBounded(calls: seq<Call>, places: nat, freq: int)
    requires Legal(calls, places, freq, true) && freq >= 1
    ensures Room(RetireAll(calls, freq, true), places, freq) && |RetireAll(calls, freq, true).list| <= places + 2 * freq
    decreases |calls|
  {
    if calls != [] {
      var r := calls[..|calls| - 1];
      forall k | 0 <= k < |r| ensures |r[k].slots| == places && r[k].ptr !in RetireAll(r[..k], freq, true).list { assert r[..k] == calls[..k]; }
      RunBounded(r, places, freq);
      var c := calls[|calls| - 1];
      RetireBounded(RetireAll(r, freq, true), c.ptr, c.slots, freq);
    }
  }

  // ---------------------------------------------------------------- no block is lost, and none is freed too early

  /** The pointers retired, in order; a null pointer is ignored. */
  function Pointers(calls: seq<Call>): seq<int> {
    if calls == [] then [] else Pointers(calls[..|calls| - 1]) + (if calls[|calls| - 1].ptr == NULL then [] else [calls[|calls| - 1].ptr])
  }

  /** From t to t' by retiring ptr: every block stays on the list or is freed. */
  ghost predicate Conserves(t: Trash, t': Trash, ptr: int) {
    multiset(t'.list) + multiset(t'.freed) == multiset(t.list) + multiset(t.freed) + (if ptr == NULL then multiset{} else multiset{ptr})
  }

  /** Frees come after those before, and are of blocks in no slot. */
  ghost predicate FreesSafely(t: Trash, t': Trash, slots: seq<int>) {
    t.freed <= t'.freed && forall x :: x in t'.freed[|t.freed|..] ==> x !in slots
  }

  /** And exactly: nothing is freed by a call that does not scan, and a scan frees the erased blocks. */
  ghost predicate Disposed(t: Trash, t': Trash, ptr: int, slots: seq<int>, collecting: bool) {
    && Conserves(t, t', ptr) && FreesSafely(t, t', slots)
    && (!collecting || ptr == NULL ==> t'.freed == t.freed && t'.list == t.list + (if ptr == NULL then [] else [ptr]))
    && (collecting && ptr != NULL ==> var l := t.list + [ptr];
          t'.list == Chosen(l, slots, |l|, false) && t'.freed == t.freed + Chosen(l, slots, |l|, true))
  }

  lemma FreedTogether(list: seq<int>, freed: seq<int>, ptr: int, kept: seq<int>, gone: seq<int>)
    requires multiset(kept) + multiset(gone) == multiset(list + [ptr])
    ensures multiset(kept) + multiset(freed + gone) == multiset(list) + multiset(freed) + multiset{ptr}
    ensures freed <= freed + gone && (freed + gone)[|freed|..] == gone
  {
    assert multiset(list + [ptr]) == multiset(list) + multiset{ptr};
    assert multiset(freed + gone) == multiset(freed) + multiset(gone);
    assert multiset(kept) + multiset(freed + gone) == (multiset(kept) + multiset(gone)) + multiset(freed);
    assert (freed + gone)[|freed|..] == gone;
  }

  lemma ScanDisposes(t: Trash, ptr: int, slots: seq<int>)
    requires ptr != NULL
    ensures var r := Scan(t.list + [ptr], slots, 0); Disposed(t, Trash(r.0, 1, t.freed + r.1), ptr, slots, true)
  {
    var l := t.list + [ptr];
    ScanSplits(l, slots, 0);
    ScanExact(l, slots);
    var K, G := Scan(l, slots, 0).0, Scan(l, slots, 0).1;
    FreedTogether(t.list, t.freed, ptr, K, G);
  }

  lemma KeepDisposes(t: Trash, ptr: int, slots: seq<int>)
    requires ptr != NULL
    ensures Disposed(t, Trash(t.list + [ptr], t.counter + 1, t.freed), ptr, slots, false)
  {
    FreedTogether(t.list, t.freed, ptr, t.list + [ptr], []);
    assert t.freed + [] == t.freed;
  }

  lemma RetireDisposes(t: Trash, ptr: int, slots: seq<int>, freq: int, collect: bool)
    ensures Disposed(t, Retired(t, ptr, slots, freq, collect), ptr, slots, collect && t.counter == freq)
  {
    if ptr == NULL { assert t.list + [] == t.list; }
    else if collect && t.counter == freq { ScanDisposes(t, ptr, slots); }
    else { KeepDisposes(t, ptr, slots); }
  }

  /** The counter after n retirements: it runs up to the frequency, and from then on in a circle from 1. */
  function CounterAfter(n: nat, freq: int, collect: bool): int {
    if !collect || freq <= 0 || n <= freq then n else (n - 1) % freq + 1
  }

  lemma NextCounter(n: nat, freq: int, collect: bool)
    requires collect && freq > 0 && n > freq
    ensures n % freq == if (n - 1) % freq == freq - 1 then 0 else (n - 1) % freq + 1
  {
    var q, r := (n - 1) / freq, (n - 1) % freq;
    assert n - 1 == q * freq + r;
    if r == freq - 1 { Remainder(n, q + 1, 0, freq); } else { Remainder(n, q, r + 1, freq); }
  }

  lemma Remainder(n: nat, q: nat, r: nat, d: nat)
    requires r < d && n == q * d + r
    ensures n % d == r
  {
    var e: int := n / d - q;
    assert n % d == r - e * d;
    assert e >= 1 ==> e * d >= d;
    assert e <= -1 ==> e * d + d <= 0;
  }

  lemma CounterStep(n: nat, freq: int, collect: bool)
    ensures var c := CounterAfter(n, freq, collect); CounterAfter(n + 1, freq, collect) == if collect && c == freq then 1 else c + 1
  {
    if collect && freq > 0 && n > freq { NextCounter(n, freq, collect); }
    if collect && freq > 0 && n == freq { Remainder(freq, 1, 0, freq); }
  }

  lemma {:induction false} RunCounts(calls: seq<Call>, freq: int, collect: bool)
    ensures RetireAll(calls, freq, collect).counter == CounterAfter(|Pointers(calls)|, freq, collect)
    decreases |calls|
  {
    if calls != [] {
      var r, c := calls[..|calls| - 1], calls[|calls| - 1];
      RunCounts(r, freq, collect);
      CounterStep(|Pointers(r)|, freq, collect);
      PointersMore(calls);
      RetireCounts(RetireAll(r, freq, collect), c.ptr, c.slots, freq, collect);
    }
  }

  lemma {:induction false} RunKeepsAll(calls: seq<Call>, freq: int, collect: bool)
    ensures var z := RetireAll(calls, freq, collect); multiset(z.list) + multiset(z.freed) == multiset(Pointers(calls))
    decreases |calls|
  {
    if calls != [] {
      var r, c := calls[..|calls| - 1], calls[|calls| - 1];
      RunKeepsAll(r, freq, collect);
      PointersMore(calls);
      assert Conserves(RetireAll(r, freq, collect), RetireAll(calls, freq, collect), c.ptr) by {
        RetireDisposes(RetireAll(r, freq, collect), c.ptr, c.slots, freq, collect);
      }
    }
  }

  /**
   * Conservation over any calls: the list and the freed blocks together are the blocks retired; the last call frees only blocks
   * that are in no slot during it, after those freed before, and none unless the counter has met the frequency.
   */
  lemma RunConserves(calls: seq<Call>, freq: int, collect: bool)
    ensures var z := RetireAll(calls, freq, collect); multiset(z.list) + multiset(z.freed) == multiset(Pointers(calls))
    ensures calls != [] ==>
              var r, c := calls[..|calls| - 1], calls[|calls| - 1];
              Disposed(RetireAll(r, freq, collect), RetireAll(calls, freq, collect), c.ptr, c.slots,
                       collect && CounterAfter(|Pointers(r)|, freq, collect) == freq)
  {
    RunKeepsAll(calls, freq, collect);
    if calls != [] {
      var r, c := calls[..|calls| - 1], calls[|calls| - 1];
      RunCounts(r, freq, collect);
      RetireDisposes(RetireAll(r, freq, collect), c.ptr, c.slots, freq, collect);
    }
  }

  lemma RetireCounts(t: Trash, ptr: int, slots: seq<int>, freq: int, collect: bool)
    ensures Retired(t, ptr, slots, freq, collect).counter == if ptr == NULL then t.counter else if collect && t.counter == freq then 1 else t.counter + 1
  {
  }

  lemma PointersMore(calls: seq<Call>)
    requires calls != []
    ensures var r, p := calls[..|calls| - 1], calls[|calls| - 1].ptr;
            && multiset(Pointers(calls)) == multiset(Pointers(r)) + (if p == NULL then multiset{} else multiset{p})
            && |Pointers(calls)| == |Pointers(r)| + (if p == NULL then 0 else 1)
  {
  }

  function Numbered(n: nat, places: nat): seq<Call> { seq(n, k => Call(k + 1, seq(places, _ => NULL))) }

  /** Without collection, or with a frequency that the counter never meets again, nothing stops the list. */
  ghost predicate Grown(t: Trash, n: nat) {
    t.counter == n && (forall x :: x in t.list ==> 0 < x <= n) && |t.list| + 1 >= n && Distinct(t.list)
  }

  lemma GrowStep(t: Trash, n: nat, slots: seq<int>, freq: int, collect: bool)
    requires (!collect || freq <= 0) && Grown(t, n)
    ensures Grown(Retired(t, n + 1, slots, freq, collect), n + 1)
  {
    var l := t.list + [n + 1];
    assert forall i :: 0 <= i < |t.list| ==> t.list[i] in t.list;
    if collect && n == freq {
      ScanDistinct(l, slots, 0);
      ScanMembers(l, slots, 0);
    }
  }

  lemma ScanMembers(l: seq<int>, slots: seq<int>, i: nat)
    ensures forall x :: x in Scan(l, slots, i).0 ==> x in l
  {
    ScanSplits(l, slots, i);
    var r := Scan(l, slots, i);
    forall x | x in r.0 ensures x in l { assert x in multiset(l); }
  }

  lemma {:induction false} RunGrows(n: nat, places: nat, freq: int, collect: bool)
    requires !collect || freq <= 0
    ensures Grown(RetireAll(Numbered(n, places), freq, collect), n) && Legal(Numbered(n, places), places, freq, collect)
  {
    if n > 0 {
      var calls := Numbered(n, places);
      var r := Numbered(n - 1, places);
      RunGrows(n - 1, places, freq, collect);
      assert calls[..n - 1] == r;
      forall k | 0 <= k < n ensures |calls[k].slots| == places && calls[k].ptr !in RetireAll(calls[..k], freq, collect).list {
        if k < n - 1 { assert calls[..k] == r[..k] && calls[k] == r[k]; }
      }
      GrowStep(RetireAll(r, freq, collect), n - 1, calls[n - 1].slots, freq, collect);
    }
  }

  /** The list stays within task_num*slotsPerThread + 2*freq if and only if blocks are collected and the frequency is positive. */
  lemma BoundedIff(places: nat, freq: int, collect: bool)
    ensures collect && freq >= 1 <==>
            forall calls :: Legal(calls, places, freq, collect) ==> |RetireAll(calls, freq, collect).list| <= places + 2 * freq
  {
    if collect && freq >= 1 {
      forall calls | Legal(calls, places, freq, collect) ensures |RetireAll(calls, freq, collect).list| <= places + 2 * freq {
        RunBounded(calls, places, freq);
      }
    } else {
      var n: nat := places + 2 + (if freq > 0 then 2 * freq else 0);
      RunGrows(n, places, freq, collect);
      assert |RetireAll(Numbered(n, places), freq, collect).list| > places + 2 * freq;
    }
  }

  // ---------------------------------------------------------------- the class

  class Tracker {
    const taskNum: nat
    const slotsPerThread: nat
    const freq: int
    const collect: bool
    /** `slots` holds one word per thread and slot; `trash[tid]` a thread's list, counter and freed blocks. */
    const slots: array<int>
    const retired: array<seq<int>>
    const counters: array<int>
    /** What each thread handed to `freeBlock`, in order. */
    ghost var freed: seq<seq<int>>

    ghost predicate Valid()
      reads this
    {
      slots != counters && slots.Length == taskNum * slotsPerThread && retired.Length == taskNum && counters.Length == taskNum && |freed| == taskNum
    }

    ghost function TrashOf(tid: nat): Trash
      requires Valid() && tid < taskNum
      reads this, retired, counters
    {
      Trash(retired[tid], counters[tid], freed[tid])
    }

    constructor (taskNum: nat, slotsPerThread: nat, freq: int, collect: bool)
      ensures Valid() && this.taskNum == taskNum && this.slotsPerThread == slotsPerThread && this.freq == freq && this.collect == collect
      ensures fresh(slots) && fresh(retired) && fresh(counters)
      ensures forall i :: 0 <= i < slots.Length ==> slots[i] == NULL
      ensures forall t :: 0 <= t < taskNum ==> TrashOf(t) == Trash([], 0, [])
    {
      this.taskNum, this.slotsPerThread, this.freq, this.collect := taskNum, slotsPerThread, freq, collect;
      slots := new int[taskNum * slotsPerThread](_ => NULL);
      retired := new seq<int>[taskNum](_ => []);
      counters := new int[taskNum](_ => 0);
      freed := seq(taskNum, _ => []);
    }

    /** The inner loop of `empty`: is the block in some slot? */
    method Danger(ptr: int) returns (danger: bool)
      ensures danger <==> ptr in slots[..]
    {
      danger := false;
      var i := 0;
      while i < slots.Length
        invariant 0 <= i <= slots.Length && ptr !in slots[..i]
      {
        if ptr == slots[i] {
          danger := true;
          break;
        }
        i := i + 1;
      }
    }

    method Empty(tid: nat)
      requires Valid() && tid < taskNum
      modifies retired, this`freed
      ensures Valid() && retired[..] == old(retired[..])[tid := Scan(old(retired[tid]), slots[..], 0).0]
      ensures freed == old(freed)[tid := old(freed[tid]) + Scan(old(retired[tid]), slots[..], 0).1]
    {
      var i := 0;
      while i < |retired[tid]|
        invariant Valid() && retired[..] == old(retired[..])[tid := retired[tid]]
        invariant var whole, rest := Scan(old(retired[tid]), slots[..], 0), Scan(retired[tid], slots[..], i);
                  whole.0 == rest.0 && freed[tid] + rest.1 == old(freed[tid]) + whole.1
        invariant freed == old(freed)[tid := freed[tid]]
        decreases |retired[tid]| - i
      {
        var l := retired[tid];
        var ptr := l[i];
        var danger := Danger(ptr);
        if !danger {
          freed := freed[tid := freed[tid] + [ptr]];
          retired[tid] := l[..i] + l[i + 1..];
        }
        i := i + 1;
      }
      assert freed[tid] + [] == freed[tid];
    }

    method Retire(ptr: int, tid: nat)
      requires Valid() && tid < taskNum && ptr !in retired[tid]
      modifies retired, counters, this`freed
      ensures Valid() && TrashOf(tid) == Retired(old(TrashOf(tid)), ptr, slots[..], freq, collect)
      ensures Disposed(old(TrashOf(tid)), TrashOf(tid), ptr, slots[..], collect && old(counters[tid]) == freq)
      ensures forall t :: 0 <= t < taskNum && t != tid ==> TrashOf(t) == old(TrashOf(t))
    {
      ghost var was := TrashOf(tid);
      if ptr != NULL { Append(ptr, tid); }
      RetireDisposes(was, ptr, slots[..], freq, collect);
    }

    /** The pointer goes on the list; every so often the list is scanned. */
    method Append(ptr: int, tid: nat)
      requires Valid() && tid < taskNum && ptr != NULL
      modifies retired, counters, this`freed
      ensures Valid() && TrashOf(tid) == Retired(old(TrashOf(tid)), ptr, slots[..], freq, collect)
      ensures forall t :: 0 <= t < taskNum && t != tid ==> TrashOf(t) == old(TrashOf(t))
    {
      retired[tid] := retired[tid] + [ptr];
      if collect && counters[tid] == freq {
        counters[tid] := 0;
        Empty(tid);
      }
      counters[tid] := counters[tid] + 1;
    }

    method Reserve(ptr: int, slot: nat, tid: nat)
      requires Valid() && tid < taskNum && slot < slotsPerThread && tid * slotsPerThread + slot < slots.Length
      modifies slots
      ensures slots[..] == old(slots[..])[tid * slotsPerThread + slot := ptr]
    {
      slots[tid * slotsPerThread + slot] := ptr;
    }

    method ClearAll(tid: nat)
      requires Valid() && tid < taskNum
      modifies slots
      ensures forall i :: 0 <= i < slots.Length ==>
                slots[i] == if tid * slotsPerThread <= i < tid * slotsPerThread + slotsPerThread then NULL else old(slots[i])
    {
      RowInside(tid, slotsPerThread, taskNum);
      for i := 0 to slotsPerThread
        invariant forall j :: 0 <= j < slots.Length ==>
                    slots[j] == if tid * slotsPerThread <= j < tid * slotsPerThread + i then NULL else old(slots[j])
      {
        slots[tid * slotsPerThread + i] := NULL;
      }
    }
  }

  lemma RowInside(row: nat, width: nat, rows: nat)
    requires row < rows
    ensures row * width + width <= rows * width
  {
    assert rows * width == (row + 1) * width + (rows - row - 1) * width;
    assert (rows - row - 1) * width >= 0;
  }
}
