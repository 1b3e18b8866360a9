/** Sets bounded by the places that hold their members. */
module Counting {
  /** A set of entries of s has at most as many members as s has places. */
  lemma {:induction false} FewerThan(s: seq<int>, t: set<int>)
    requires forall y :: y in t ==> y in s
    ensures |t| <= |s|
  {
    if s != [] {
      var rest := t - {s[0]};
      forall y | y in rest ensures y in s[1..] {}
      FewerThan(s[1..], rest);
      if s[0] in t { assert t == rest + {s[0]}; } else { assert t == rest; }
    } else {
      assert forall y :: y !in t;
    }
  }
}
