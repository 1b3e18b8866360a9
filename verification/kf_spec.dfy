/** What a k-out-of-order queue may do: items by arrival number, the rows of slots that hold them, and how far they may be overtaken. */
module KFifoSpec {
  import opened Counting

  const NONE := -1

  type Row = seq<int>

  /** Entries of s that arrived after x. */
  function CountAbove(s: seq<int>, x: int): nat {
    if s == [] then 0 else (if s[0] > x then 1 else 0) + CountAbove(s[1..], x)
  }

  /** How many later arrivals left the queue before x did; `out` lists the arrival numbers in the order they were dequeued. */
  function Late(out: seq<int>, x: int): nat {
    if out == [] then 0
    else
      var r, last := out[..|out| - 1], out[|out| - 1];
      Late(r, x) + (if x !in r && last > x then 1 else 0)
  }

  ghost predicate Present(arrived: seq<int>, out: seq<int>, x: int) { 0 <= x < |arrived| && x !in out }

  /** The items that arrived before x and are still there. */
  ghost function Older(out: seq<int>, x: int): set<int> { set y | 0 <= y < x && y !in out }

  // ---------------------------------------------------------------- rows

  ghost predicate RowOk(r: Row, arrived: seq<int>, out: seq<int>, k: nat) {
    && |r| == k
    && (forall j :: 0 <= j < k && r[j] != NONE ==> Present(arrived, out, r[j]))
    && (forall i, j :: 0 <= i < j < k && r[i] != NONE ==> r[i] != r[j])
  }

  ghost predicate Before(r: Row, r': Row) {
    forall j, j' :: 0 <= j < |r| && 0 <= j' < |r'| && r[j] != NONE && r'[j'] != NONE ==> r[j] < r'[j']
  }

  ghost predicate Somewhere(rows: seq<Row>, x: int) { exists i :: 0 <= i < |rows| && x in rows[i] }

  /** No item of the row has been overtaken yet. */
  ghost predicate Untouched(r: Row, out: seq<int>) { forall j :: 0 <= j < |r| && r[j] != NONE ==> Late(out, r[j]) == 0 }

  /** Even if all later items of the first row overtook x, that would be fewer than k. */
  ghost predicate Bounded(r: Row, out: seq<int>, k: nat) {
    forall j :: 0 <= j < |r| && r[j] != NONE ==> Late(out, r[j]) + CountAbove(r, r[j]) < k
  }

  /** The rows, from head to tail, hold exactly the items present, in the order of arrival but for the places within a row. */
  ghost predicate Fits(rows: seq<Row>, arrived: seq<int>, out: seq<int>, k: nat) {
    && |rows| > 0 && k > 0
    && (forall i :: 0 <= i < |rows| ==> RowOk(rows[i], arrived, out, k))
    && (forall i, j :: 0 <= i < j < |rows| ==> Before(rows[i], rows[j]))
    && (forall x {:trigger Somewhere(rows, x)} :: Present(arrived, out, x) ==> Somewhere(rows, x))
    && (forall m :: 0 <= m < |out| ==> 0 <= out[m] < |arrived|)
    && Bounded(rows[0], out, k)
    && (forall i :: 0 <= i < |rows| && (i > 0 || |rows| == 1) ==> Untouched(rows[i], out))
  }

  /** No item, dequeued or still there, has been overtaken by k later ones. */
  ghost predicate NeverFarBehind(arrived: seq<int>, out: seq<int>, k: nat) { forall x :: 0 <= x < |arrived| ==> Late(out, x) < k }

  // ---------------------------------------------------------------- counting

  lemma {:induction false} CountUpdate(s: seq<int>, j: nat, v: int, x: int)
    requires j < |s|
    ensures CountAbove(s[j := v], x) == CountAbove(s, x) - (if s[j] > x then 1 else 0) + (if v > x then 1 else 0)
    ensures s[j] > x ==> CountAbove(s, x) > 0
  {
    if j > 0 {
      CountUpdate(s[1..], j - 1, v, x);
      assert s[j := v][1..] == s[1..][j - 1 := v];
    }
  }

  lemma {:induction false} CountBound(s: seq<int>, x: int)
    ensures CountAbove(s, x) <= |s|
    ensures x in s ==> CountAbove(s, x) < |s|
  {
    if s != [] {
      CountBound(s[1..], x);
      if s[0] != x && x in s { assert x in s[1..]; }
    }
  }

  lemma LateAdd(out: seq<int>, d: int, x: int)
    ensures Late(out + [d], x) == Late(out, x) + (if x !in out && d > x then 1 else 0)
  {
    assert (out + [d])[..|out + [d]| - 1] == out;
  }

  /** Nothing that left before x arrived has overtaken it. */
  lemma {:induction false} LateFresh(out: seq<int>, x: int)
    requires forall m :: 0 <= m < |out| ==> out[m] < x
    ensures Late(out, x) == 0
  {
    if out != [] { LateFresh(out[..|out| - 1], x); }
  }

  /** The dequeues by which a later arrival overtook x. */
  ghost function Overtakers(out: seq<int>, x: int): set<int> { set m | 0 <= m < |out| && out[m] > x && x !in out[..m] }

  lemma {:induction false} LateCounts(out: seq<int>, x: int)
    ensures Late(out, x) == |Overtakers(out, x)|
  {
    if out == [] {
      assert Overtakers(out, x) == {};
    } else {
      var n := |out| - 1;
      var r := out[..n];
      LateCounts(r, x);
      forall m | 0 <= m < n ensures r[..m] == out[..m] {}
      if x !in r && out[n] > x {
        assert Overtakers(out, x) == Overtakers(r, x) + {n};
      } else {
        assert Overtakers(out, x) == Overtakers(r, x);
      }
    }
  }

  // ---------------------------------------------------------------- what each operation does to the rows

  /** An arrival goes to an empty slot of the last row. */
  lemma Arrive(rows: seq<Row>, arrived: seq<int>, out: seq<int>, k: nat, j: nat, v: int)
    requires Fits(rows, arrived, out, k) && NeverFarBehind(arrived, out, k) && j < k && rows[|rows| - 1][j] == NONE
    ensures var n := |rows| - 1; Fits(rows[n := rows[n][j := |arrived|]], arrived + [v], out, k) && NeverFarBehind(arrived + [v], out, k)
  {
    var n, x := |rows| - 1, |arrived|;
    var rows' := rows[n := rows[n][j := x]];
    LateFresh(out, x);
    forall i | 0 <= i < |rows'| ensures RowOk(rows'[i], arrived + [v], out, k) { assert RowOk(rows[i], arrived, out, k); }
    forall a, b | 0 <= a < b < |rows'| ensures Before(rows'[a], rows'[b]) {
      assert Before(rows[a], rows[b]) && RowOk(rows[a], arrived, out, k);
    }
    forall y {:trigger Somewhere(rows', y)} | Present(arrived + [v], out, y) ensures Somewhere(rows', y) {
      if y == x { assert rows'[n][j] == x; } else { StillThere(rows, n, j, x, y); }
    }
    forall i | 0 <= i < |rows'| && (i > 0 || |rows'| == 1) ensures Untouched(rows'[i], out) { assert Untouched(rows[i], out); }
    ArriveBounded(rows, arrived, out, k, j, v);
  }

  lemma StillThere(rows: seq<Row>, n: nat, j: nat, v: int, y: int)
    requires n < |rows| && j < |rows[n]| && rows[n][j] != y && Somewhere(rows, y)
    ensures Somewhere(rows[n := rows[n][j := v]], y)
  {
    var i :| 0 <= i < |rows| && y in rows[i];
    var m :| 0 <= m < |rows[i]| && rows[i][m] == y;
    assert rows[n := rows[n][j := v]][i][m] == y;
  }

  lemma ArriveBounded(rows: seq<Row>, arrived: seq<int>, out: seq<int>, k: nat, j: nat, v: int)
    requires Fits(rows, arrived, out, k) && j < k && rows[|rows| - 1][j] == NONE
    ensures var n := |rows| - 1; Bounded(rows[n := rows[n][j := |arrived|]][0], out, k)
  {
    if |rows| == 1 {
      var r := rows[0][j := |arrived|];
      assert RowOk(rows[0], arrived, out, k) && Untouched(rows[0], out);
      LateFresh(out, |arrived|);
      forall m | 0 <= m < |r| && r[m] != NONE ensures Late(out, r[m]) + CountAbove(r, r[m]) < k { CountBound(r, r[m]); }
    }
  }

  /** A new last row. */
  lemma NewRow(rows: seq<Row>, arrived: seq<int>, out: seq<int>, k: nat, r: Row)
    requires Fits(rows, arrived, out, k) && |r| == k && forall j :: 0 <= j < k ==> r[j] == NONE
    ensures Fits(rows + [r], arrived, out, k)
  {
    var rows' := rows + [r];
    forall x {:trigger Somewhere(rows', x)} | Present(arrived, out, x) ensures Somewhere(rows', x) {
      assert Somewhere(rows, x);
      var i :| 0 <= i < |rows| && x in rows[i];
      assert x in rows'[i];
    }
  }

  /** An exhausted first row is dropped. */
  lemma DropRow(rows: seq<Row>, arrived: seq<int>, out: seq<int>, k: nat)
    requires Fits(rows, arrived, out, k) && |rows| > 1 && forall j :: 0 <= j < k ==> rows[0][j] == NONE
    ensures Fits(rows[1..], arrived, out, k)
  {
    var rows' := rows[1..];
    forall x {:trigger Somewhere(rows', x)} | Present(arrived, out, x) ensures Somewhere(rows', x) {
      assert Somewhere(rows, x);
      var i :| 0 <= i < |rows| && x in rows[i];
      assert x in rows'[i - 1];
    }
    assert RowOk(rows[1], arrived, out, k) && Untouched(rows[1], out);
    forall j | 0 <= j < k && rows[1][j] != NONE ensures Late(out, rows[1][j]) + CountAbove(rows[1], rows[1][j]) < k {
      CountBound(rows[1], rows[1][j]);
    }
  }

  /** A dequeue takes an item of the first row, which accepts no more: it was one of the k oldest. */
  lemma Leave(rows: seq<Row>, arrived: seq<int>, out: seq<int>, k: nat, j: nat)
    requires Fits(rows, arrived, out, k) && NeverFarBehind(arrived, out, k) && |rows| > 1 && j < k && rows[0][j] != NONE
    ensures Fits(rows[0 := rows[0][j := NONE]], arrived, out + [rows[0][j]], k)
    ensures NeverFarBehind(arrived, out + [rows[0][j]], k)
    ensures Present(arrived, out, rows[0][j]) && |Older(out, rows[0][j])| < k
  {
    var d := rows[0][j];
    var rows' := rows[0 := rows[0][j := NONE]];
    var out' := out + [d];
    forall i | 0 <= i < |rows'| ensures RowOk(rows'[i], arrived, out', k) {
      assert RowOk(rows[i], arrived, out, k);
      if i > 0 { assert Before(rows[0], rows[i]); }
    }
    forall a, b | 0 <= a < b < |rows'| ensures Before(rows'[a], rows'[b]) { assert Before(rows[a], rows[b]); }
    forall y {:trigger Somewhere(rows', y)} | Present(arrived, out', y) ensures Somewhere(rows', y) {
      assert y != d by { assert d in out'; }
      assert y !in out by { assert forall z :: z in out ==> z in out'; }
      StillThere(rows, 0, j, NONE, y);
    }
    forall i | 0 < i < |rows'| ensures Untouched(rows'[i], out') { LeaveUntouched(rows, arrived, out, k, j, i); }
    LeaveBounded(rows, arrived, out, k, j);
    LeaveOlder(rows, arrived, out, k, j);
  }

  lemma LeaveUntouched(rows: seq<Row>, arrived: seq<int>, out: seq<int>, k: nat, j: nat, i: nat)
    requires Fits(rows, arrived, out, k) && 0 < i < |rows| && j < k && rows[0][j] != NONE
    ensures Untouched(rows[i], out + [rows[0][j]])
  {
    assert Untouched(rows[i], out) && Before(rows[0], rows[i]);
    forall m | 0 <= m < |rows[i]| && rows[i][m] != NONE ensures Late(out + [rows[0][j]], rows[i][m]) == 0 { LateAdd(out, rows[0][j], rows[i][m]); }
  }

  lemma LeaveBounded(rows: seq<Row>, arrived: seq<int>, out: seq<int>, k: nat, j: nat)
    requires Fits(rows, arrived, out, k) && NeverFarBehind(arrived, out, k) && |rows| > 1 && j < k && rows[0][j] != NONE
    ensures Bounded(rows[0][j := NONE], out + [rows[0][j]], k) && NeverFarBehind(arrived, out + [rows[0][j]], k)
  {
    var d, r := rows[0][j], rows[0];
    assert RowOk(r, arrived, out, k);
    var r' := r[j := NONE];
    forall m | 0 <= m < k && r'[m] != NONE ensures Late(out + [d], r'[m]) + CountAbove(r', r'[m]) < k {
      LateAdd(out, d, r[m]);
      CountUpdate(r, j, NONE, r[m]);
      assert Present(arrived, out, r[m]);
    }
    forall x | 0 <= x < |arrived| ensures Late(out + [d], x) < k {
      LateAdd(out, d, x);
      if x !in out && d > x { OlderInFirst(rows, arrived, out, k, j, x); }
    }
  }

  /** An item that is present and older than one of the first row is in the first row itself, and has room to be overtaken. */
  lemma OlderInFirst(rows: seq<Row>, arrived: seq<int>, out: seq<int>, k: nat, j: nat, x: int)
    requires Fits(rows, arrived, out, k) && j < k && Present(arrived, out, x) && x < rows[0][j]
    ensures x in rows[0] && Late(out, x) + 1 < k
  {
    assert Somewhere(rows, x);
    var i :| 0 <= i < |rows| && x in rows[i];
    var m :| 0 <= m < |rows[i]| && rows[i][m] == x;
    assert forall a :: 0 < a < |rows| ==> Before(rows[0], rows[a]);
    CountUpdate(rows[0], j, NONE, x);
  }

  lemma LeaveOlder(rows: seq<Row>, arrived: seq<int>, out: seq<int>, k: nat, j: nat)
    requires Fits(rows, arrived, out, k) && j < k && rows[0][j] != NONE
    ensures Present(arrived, out, rows[0][j]) && |Older(out, rows[0][j])| < k
  {
    var d, r := rows[0][j], rows[0];
    assert RowOk(r, arrived, out, k);
    var others := r[..j] + r[j + 1..];
    forall y | y in Older(out, d) ensures y in others {
      OlderInFirst(rows, arrived, out, k, j, y);
      var m :| 0 <= m < |r| && r[m] == y;
      assert m != j && y == others[if m < j then m else m - 1];
    }
    FewerThan(others, Older(out, d));
  }

  /** Nothing is present when the only row is empty. */
  lemma NothingLeft(rows: seq<Row>, arrived: seq<int>, out: seq<int>, k: nat)
    requires Fits(rows, arrived, out, k) && |rows| == 1 && forall j :: 0 <= j < k ==> rows[0][j] == NONE
    ensures forall x :: !Present(arrived, out, x)
  {
    forall x ensures !Present(arrived, out, x) {
      assert Somewhere(rows, x) ==> x == NONE;
    }
  }
}
