/** Round trips over n places from an arbitrary start, as in `(start + i) % n`. */
module Ring {
  function Index(start: nat, i: nat, n: nat): nat { if start + i < n then start + i else start + i - n }

  lemma IndexIsMod(start: nat, i: nat, n: nat)
    requires start < n && i <= n
    ensures Index(start, i, n) == (start + i) % n
  {
    var q, r := (start + i) / n, (start + i) % n;
    assert start + i == n * q + r;
    assert q >= 2 ==> n * q >= n * 2;
    assert q <= 0 ==> n * q <= 0;
    assert q == 1 ==> n * q == n;
  }

  /** Every place has its turn. */
  lemma Turn(start: nat, j: nat, n: nat) returns (k: nat)
    requires start < n && j < n
    ensures k < n && Index(start, k, n) == j
  {
    k := if j >= start then j - start else j - start + n;
  }
}
