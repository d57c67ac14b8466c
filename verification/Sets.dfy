/** Facts about finite sets, and sequences without repeats. */
module Sets {

  /** Some element, as iterating over an unordered collection yields one. */
  method Choose<T>(s: set<T>) returns (x: T)
    requires s != {}
    ensures x in s
  {
    x :| x in s;
  }

  predicate Distinct<T(==)>(s: seq<T>) {
    forall i, k :: 0 <= i < k < |s| ==> s[i] != s[k]
  }

  ghost function AnElement<T>(s: set<T>): (x: T)
    requires s != {}
    ensures x in s
  {
    var x :| x in s; x
  }

  lemma SubsetSize<T>(a: set<T>, b: set<T>)
    requires a <= b
    ensures |a| <= |b|
    ensures a != b ==> |a| < |b|
  {
    assert b == a + (b - a);
  }

  lemma SizeWithAndWithout<T>(s: set<T>, x: T)
    ensures x !in s ==> |s + {x}| == |s| + 1
    ensures x in s ==> |s - {x}| == |s| - 1
  {
  }
}
