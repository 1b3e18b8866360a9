/** unboundedsize_kfifo.h, whole calls: a list of segments of k slots, searched from an arbitrary slot. */
module KFifoQueue {
  import opened Ring
  import opened KFifoSpec

  /** The value of an empty slot. */
  const EMPTY_SLOT := 0

  datatype Item = Item(value: int, tag: nat)

  class KSegment {
    const items: array<Item>
    var deleted: bool
    var next: KSegment?
    var nextTag: nat

    constructor (k: nat)
      ensures fresh(items) && items.Length == k && !deleted && next == null && nextTag == 0
      ensures forall j :: 0 <= j < k ==> items[j] == Item(EMPTY_SLOT, 0)
    {
      items := new Item[k](_ => Item(EMPTY_SLOT, 0));
      deleted := false;
      next := null;
      nextTag := 0;
    }
  }

  /** A slot shows the value of the item it holds. */
  ghost predicate Shows(items: seq<Item>, r: Row, arrived: seq<int>) {
    && |items| == |r|
    && forall j :: 0 <= j < |r| ==>
         if r[j] == NONE then items[j].value == EMPTY_SLOT
         else 0 <= r[j] < |arrived| && items[j].value == arrived[r[j]] && items[j].value != EMPTY_SLOT
  }

  lemma ShowsMore(items: seq<Item>, r: Row, arrived: seq<int>, item: int)
    requires Shows(items, r, arrived)
    ensures Shows(items, r, arrived + [item])
  {
  }

  lemma LastShows(items: seq<Item>, r: Row, arrived: seq<int>, index: nat, item: int)
    requires index < |r| == |items| && Shows(items[index := Item(EMPTY_SLOT, 0)], r, arrived) && items[index].value == item != EMPTY_SLOT
    ensures Shows(items, r[index := |arrived|], arrived + [item])
  {
    var old' := items[index := Item(EMPTY_SLOT, 0)];
    forall j | 0 <= j < |r| && j != index ensures old'[j] == items[j] {}
  }

  ghost predicate Blank(r: Row) { forall j :: 0 <= j < |r| ==> r[j] == NONE }

  class UnboundedSizeKFifo {
    const k: nat
    var head: KSegment
    var headTag: nat
    var tail: KSegment
    var tailTag: nat

    /** The segments from head to tail, the arrival numbers in their slots, the values enqueued, and the numbers dequeued. */
    ghost var segs: seq<KSegment>
    ghost var rows: seq<Row>
    ghost var arrived: seq<int>
    ghost var out: seq<int>

    ghost function Repr(): set<object>
      reads this
    {
      var own: set<object> := {this};
      var segments: set<object> := set s: KSegment | s in segs;
      var slots: set<object> := set s: KSegment | s in segs :: s.items;
      own + segments + slots
    }

    ghost predicate SegmentOk(i: nat)
      requires i < |segs| == |rows|
      reads this, segs[i], segs[i].items
    {
      && segs[i].items.Length == k && !segs[i].deleted
      && segs[i].next == (if i + 1 < |segs| then segs[i + 1] else null)
      && Shows(segs[i].items[..], rows[i], arrived)
    }

    ghost predicate Valid()
      reads Repr()
    {
      && |segs| == |rows| && |segs| > 0 && k > 0
      && head == segs[0] && tail == segs[|segs| - 1]
      && (forall i, j :: 0 <= i < j < |segs| ==> segs[i] != segs[j] && segs[i].items != segs[j].items)
      && (forall i {:trigger SegmentOk(i)} :: 0 <= i < |segs| ==> SegmentOk(i))
      && Fits(rows, arrived, out, k) && NeverFarBehind(arrived, out, k)
    }

    constructor (k: nat)
      requires k > 0
      ensures Valid() && fresh(Repr()) && this.k == k && arrived == [] && out == []
    {
      var segment := new KSegment(k);
      this.k := k;
      head, headTag := segment, 0;
      tail, tailTag := segment, 0;
      segs := [segment];
      rows := [seq(k, _ => NONE)];
      arrived, out := [], [];
    }

    /** The first slot from a random place on that is empty, or that is not. */
    method FindIndex(s: KSegment, empty: bool) returns (found: bool, index: nat, seen: Item)
      requires s.items.Length > 0
      ensures found ==> index < s.items.Length && seen == s.items[index] && (seen.value == EMPTY_SLOT <==> empty)
      ensures !found ==> forall j :: 0 <= j < s.items.Length ==> (s.items[j].value == EMPTY_SLOT <==> !empty)
    {
      var n := s.items.Length;
      var random: nat := *;
      var start := random % n;
      var i := 0;
      index, seen := 0, s.items[0];
      while i < n
        invariant 0 <= i <= n
        invariant forall m :: 0 <= m < i ==> (s.items[Index(start, m, n)].value == EMPTY_SLOT <==> !empty)
      {
        IndexIsMod(start, i, n);
        index := (start + i) % n;
        seen := s.items[index];
        if (empty && seen.value == EMPTY_SLOT) || (!empty && seen.value != EMPTY_SLOT) { return true, index, seen; }
        i := i + 1;
      }
      forall j | 0 <= j < n ensures s.items[j].value == EMPTY_SLOT <==> !empty {
        var m := Turn(start, j, n);
        assert s.items[Index(start, m, n)].value == EMPTY_SLOT <==> !empty;
      }
      found := false;
    }

    ghost predicate Full()
      reads this
    {
      |rows| > 0 && NONE !in rows[|rows| - 1]
    }

    /** `atomic_set_item`. */
    method SetItem(s: KSegment, index: nat, seen: Item, item: Item) returns (ok: bool)
      requires index < s.items.Length
      modifies s.items
      ensures ok <==> old(s.items[index]) == seen
      ensures s.items[..] == if ok then old(s.items[..])[index := item] else old(s.items[..])
    {
      ok := s.items[index] == seen;
      if ok { s.items[index] := item; }
    }

    /** The new segment joins the list. */
    ghost method RecordSegment(row: Row, last: KSegment)
      requires |segs| == |rows| > 0 && k > 0 && head == segs[0] && last == segs[|segs| - 1]
      requires forall i, j :: 0 <= i < j < |segs| ==> segs[i] != segs[j] && segs[i].items != segs[j].items
      requires forall i {:trigger segs[i]} :: 0 <= i < |segs| ==> segs[i] != tail && segs[i].items != tail.items
      requires forall i {:trigger SegmentOk(i)} :: 0 <= i < |segs| - 1 ==> SegmentOk(i)
      requires last.items.Length == k && !last.deleted && last.next == tail && Shows(last.items[..], rows[|rows| - 1], arrived)
      requires tail.items.Length == k && !tail.deleted && tail.next == null && Shows(tail.items[..], row, arrived)
      requires Fits(rows + [row], arrived, out, k) && NeverFarBehind(arrived, out, k)
      modifies this`segs, this`rows
      ensures Valid() && segs == old(segs) + [tail] && rows == old(rows) + [row]
    {
      ghost var n := |segs|;
      segs, rows := segs + [tail], rows + [row];
      forall i {:trigger SegmentOk(i)} | 0 <= i < |segs| ensures SegmentOk(i) { if i < n - 1 { assert old(SegmentOk(i)); } }
    }

    /** A new segment behind the tail becomes the tail. */
    method AdvanceTail()
      requires Valid()
      modifies this`tail, this`tailTag, this`segs, this`rows, tail`next, tail`nextTag
      ensures Valid() && segs == old(segs) + [tail] && fresh(tail) && fresh(tail.items)
      ensures rows == old(rows) + [rows[|rows| - 1]] && Blank(rows[|rows| - 1])
    {
      assert SegmentOk(|segs| - 1);
      var segment := new KSegment(k);
      ghost var row := seq(k, _ => NONE);
      NewRow(rows, arrived, out, k, row);
      ghost var last := tail;
      tail.next, tail.nextTag := segment, tail.nextTag + 1;
      tail, tailTag := segment, tailTag + 1;
      forall i {:trigger SegmentOk(i)} | 0 <= i < |segs| - 1 ensures SegmentOk(i) { assert old(SegmentOk(i)); }
      RecordSegment(row, last);
    }

    /** The same, seen from outside: no segment but the tail is touched. */
    method Grow()
      requires Valid()
      modifies Repr()
      ensures Valid() && fresh(Repr() - old(Repr())) && arrived == old(arrived) && out == old(out)
      ensures |rows| == old(|rows|) + 1 && head == old(head) && head.items[..] == old(head.items[..]) && !Full()
    {
      AdvanceTail();
      assert rows[|rows| - 1][0] == NONE by { assert SegmentOk(|rows| - 1); }
    }

    /** The exhausted first segment is dropped, unless it is the last one. */
    method AdvanceHead()
      requires Valid() && forall j :: 0 <= j < k ==> rows[0][j] == NONE
      modifies this`head, this`headTag, this`segs, this`rows, head`deleted
      ensures Valid() && Repr() <= old(Repr())
      ensures if old(|rows|) > 1 then rows == old(rows[1..]) && head == old(segs[1]) else rows == old(rows)
    {
      assert SegmentOk(0);
      var next := head.next;
      if head == tail && next == null { return; }
      if |segs| > 1 { DropRow(rows, arrived, out, k); }
      head.deleted := true;
      segs, rows := segs[1..], rows[1..];
      head, headTag := next, headTag + 1;
      forall i {:trigger SegmentOk(i)} | 0 <= i < |segs| ensures SegmentOk(i) { assert old(SegmentOk(i + 1)); }
    }

    /** The departure joins the history. */
    ghost method RecordDeparture(index: nat)
      requires |segs| == |rows| > 0 && k > 0 && head == segs[0] && tail == segs[|segs| - 1] && index < |rows[0]|
      requires forall i, j :: 0 <= i < j < |segs| ==> segs[i] != segs[j] && segs[i].items != segs[j].items
      requires forall i {:trigger SegmentOk(i)} :: 0 < i < |segs| ==> SegmentOk(i)
      requires head.items.Length == k && !head.deleted && head.next == (if 1 < |segs| then segs[1] else null)
      requires Shows(head.items[..], rows[0][index := NONE], arrived)
      requires var out' := out + [rows[0][index]];
               Fits(rows[0 := rows[0][index := NONE]], arrived, out', k) && NeverFarBehind(arrived, out', k)
      modifies this`rows, this`out
      ensures Valid() && out == old(out + [rows[0][index]])
    {
      out := out + [rows[0][index]];
      rows := rows[0 := rows[0][index := NONE]];
      forall i {:trigger SegmentOk(i)} | 0 <= i < |segs| ensures SegmentOk(i) { if i > 0 { assert old(SegmentOk(i)); } }
    }

    /** The item at a slot of the first segment leaves. */
    method Take(index: nat, seen: Item) returns (ok: bool)
      requires Valid() && |rows| > 1 && index < k && head.items.Length == k && seen == head.items[index] && seen.value != EMPTY_SLOT
      modifies this`rows, this`out, head.items
      ensures ok && Valid() && |out| == old(|out|) + 1 && out[..old(|out|)] == old(out)
      ensures var d := out[old(|out|)];
              Present(arrived, old(out), d) && seen.value == arrived[d] && |Older(old(out), d)| < k
    {
      assert SegmentOk(0);
      ghost var d := rows[0][index];
      Leave(rows, arrived, out, k, index);
      ok := SetItem(head, index, seen, Item(EMPTY_SLOT, seen.tag + 1));
      forall i {:trigger SegmentOk(i)} | 0 < i < |segs| ensures SegmentOk(i) { assert old(SegmentOk(i)); }
      assert Shows(head.items[..], rows[0][index := NONE], arrived);
      RecordDeparture(index);
    }

    /** The first segment stops accepting items before one is taken from it. */
    method TakeFound(index: nat, seen: Item) returns (ok: bool)
      requires Valid() && index < k && head.items.Length == k && seen == head.items[index] && seen.value != EMPTY_SLOT
      modifies Repr()
      ensures ok && Valid() && fresh(Repr() - old(Repr())) && arrived == old(arrived)
      ensures |out| == old(|out|) + 1 && out[..old(|out|)] == old(out)
      ensures var d := out[old(|out|)]; Present(arrived, old(out), d) && seen.value == arrived[d] && |Older(old(out), d)| < k
    {
      if head == tail { Grow(); }
      ok := Take(index, seen);
    }

    /** The search of a dequeue. */
    method FindItem() returns (found: bool, index: nat, seen: Item)
      requires Valid()
      ensures found ==> index < k && head.items.Length == k && seen == head.items[index] && seen.value != EMPTY_SLOT
      ensures !found ==> forall j :: 0 <= j < k ==> |rows[0]| == k && rows[0][j] == NONE
    {
      assert SegmentOk(0);
      found, index, seen := FindIndex(head, false);
    }

    /** After a search of the first segment that found nothing: the next one, or no item is left. */
    method NextSegment() returns (more: bool)
      requires Valid() && forall j :: 0 <= j < k ==> |rows[0]| == k && rows[0][j] == NONE
      modifies Repr()
      ensures Valid() && Repr() <= old(Repr()) && arrived == old(arrived) && out == old(out)
      ensures more ==> |segs| < old(|segs|)
      ensures !more ==> forall x :: !Present(arrived, out, x)
    {
      if head == tail {
        NothingLeft(rows, arrived, out, k);
        return false;
      }
      AdvanceHead();
      return true;
    }

    /** One of the k oldest items leaves; false only if there is none. */
    method Dequeue() returns (ok: bool, item: int)
      requires Valid()
      modifies Repr()
      ensures Valid() && fresh(Repr() - old(Repr())) && arrived == old(arrived)
      ensures !ok ==> out == old(out) && forall x :: !Present(arrived, out, x)
      ensures ok ==> |out| == old(|out|) + 1 && out[..old(|out|)] == old(out)
      ensures ok ==> var d := out[old(|out|)]; Present(arrived, old(out), d) && item == arrived[d] && |Older(old(out), d)| < k
    {
      ok, item := false, EMPTY_SLOT;
      while true
        invariant Valid() && Repr() <= old(Repr()) && arrived == old(arrived) && out == old(out)
        decreases |segs|
      {
        var found, index, seen := FindItem();
        if found {
          ok := TakeFound(index, seen);
          if ok { return true, seen.value; }
        } else {
          var more := NextSegment();
          if !more { return false, EMPTY_SLOT; }
        }
      }
    }

    /** The new item is in place unless its segment was removed meanwhile. */
    method Committed(s: KSegment, item: Item, index: nat) returns (ok: bool)
      requires Valid() && s in segs && index < s.items.Length
      modifies this`headTag
      ensures ok && Valid()
    {
      ok := true;
      if s.items[index] == item {
        // running alone, a segment of the list is never marked deleted
        ok := s.deleted == false;
        ghost var i :| 0 <= i < |segs| && segs[i] == s;
        assert SegmentOk(i);
        if s == head { headTag := headTag + 1; }
      }
      forall i {:trigger SegmentOk(i)} | 0 <= i < |segs| ensures SegmentOk(i) { assert old(SegmentOk(i)); }
    }

    /** The new arrival joins the history. */
    ghost method RecordArrival(index: nat, item: int)
      requires |segs| == |rows| > 0 && k > 0 && head == segs[0] && tail == segs[|segs| - 1]
      requires forall i, j :: 0 <= i < j < |segs| ==> segs[i] != segs[j] && segs[i].items != segs[j].items
      requires forall i {:trigger SegmentOk(i)} :: 0 <= i < |segs| - 1 ==> SegmentOk(i)
      requires tail.items.Length == k && !tail.deleted && tail.next == null && item != EMPTY_SLOT
      requires var r := rows[|rows| - 1]; index < |r| == k && r[index] == NONE && tail.items[index].value == item
      requires Shows(tail.items[..][index := Item(EMPTY_SLOT, 0)], rows[|rows| - 1], arrived)
      requires var n := |rows| - 1; Fits(rows[n := rows[n][index := |arrived|]], arrived + [item], out, k) && NeverFarBehind(arrived + [item], out, k)
      modifies this`rows, this`arrived
      ensures Valid() && arrived == old(arrived) + [item]
    {
      ghost var n := |rows| - 1;
      rows := rows[n := rows[n][index := |arrived|]];
      arrived := arrived + [item];
      forall i {:trigger SegmentOk(i)} | 0 <= i < |segs| ensures SegmentOk(i) {
        if i < n {
          assert old(SegmentOk(i));
          ShowsMore(segs[i].items[..], rows[i], old(arrived), item);
        } else {
          LastShows(tail.items[..], old(rows[n]), old(arrived), index, item);
        }
      }
    }

    /** The item goes to an empty slot of the last segment. */
    method Put(index: nat, seen: Item, item: int) returns (ok: bool)
      requires Valid() && item != EMPTY_SLOT && index < k && tail.items.Length == k && seen == tail.items[index] && seen.value == EMPTY_SLOT
      modifies this`rows, this`arrived, tail.items
      ensures ok && Valid() && arrived == old(arrived) + [item] && tail.items[index] == Item(item, seen.tag + 1)
    {
      assert SegmentOk(|segs| - 1);
      Arrive(rows, arrived, out, k, index, item);
      ok := SetItem(tail, index, seen, Item(item, seen.tag + 1));
      forall i {:trigger SegmentOk(i)} | 0 <= i < |segs| - 1 ensures SegmentOk(i) { assert old(SegmentOk(i)); }
      RecordArrival(index, item);
    }

    method PutAndCommit(index: nat, seen: Item, item: int) returns (ok: bool)
      requires Valid() && item != EMPTY_SLOT && index < k && tail.items.Length == k && seen == tail.items[index] && seen.value == EMPTY_SLOT
      modifies Repr()
      ensures ok && Valid() && Repr() == old(Repr()) && arrived == old(arrived) + [item] && out == old(out)
    {
      ok := Put(index, seen, item);
      if ok { ok := Committed(tail, Item(item, seen.tag + 1), index); }
    }

    /** The search of an enqueue. */
    method FindSlot() returns (found: bool, index: nat, seen: Item)
      requires Valid()
      ensures found ==> index < k && tail.items.Length == k && seen == tail.items[index] && seen.value == EMPTY_SLOT
      ensures !found ==> Full()
    {
      assert SegmentOk(|segs| - 1);
      found, index, seen := FindIndex(tail, true);
    }

    /** The source aborts on the value that marks an empty slot. */
    method Enqueue(item: int)
      requires Valid() && item != EMPTY_SLOT
      modifies Repr()
      ensures Valid() && fresh(Repr() - old(Repr())) && arrived == old(arrived) + [item] && out == old(out)
    {
      while true
        invariant Valid() && fresh(Repr() - old(Repr())) && arrived == old(arrived) && out == old(out)
        decreases Full()
      {
        var found, index, seen := FindSlot();
        if found {
          var kept := PutAndCommit(index, seen, item);
          if kept { return; }
        } else {
          Grow();
        }
      }
    }
  }
}
