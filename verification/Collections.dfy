/** Facts about sets and sequences without repetition. */
module Collections {

  lemma SubsetSize<T>(a: set<T>, b: set<T>)
    requires a <= b
    ensures |a| <= |b|
  {
    assert b == a + (b - a);
  }

  predicate Distinct(s: seq<nat>) { forall j, k | 0 <= j < k < |s| :: s[j] != s[k] }

  function SetOf(s: seq<nat>): set<nat> { set x | x in s }

  lemma {:induction false} DistinctSize(s: seq<nat>)
    requires Distinct(s)
    ensures |SetOf(s)| == |s|
    decreases |s|
  {
    if s != [] {
      var n := |s| - 1;
      DistinctSize(s[..n]);
      assert s[n] !in SetOf(s[..n]);
      assert SetOf(s) == SetOf(s[..n]) + {s[n]} by { assert s == s[..n] + [s[n]]; }
    }
  }
}
