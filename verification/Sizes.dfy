/** Sizes of sets, for termination and counting. */
module Sizes {
  lemma {:induction false} Shrinks<T>(a: set<T>, b: set<T>)
    requires a < b
    ensures |a| < |b|
  {
    var x :| x in b && x !in a;
    if a == {} {
      assert b != {};
    } else {
      var y :| y in a;
      Shrinks(a - {y}, b - {y});
    }
  }

  lemma SubsetSize<T>(a: set<T>, b: set<T>)
    requires a <= b
    ensures |a| <= |b|
  {
    if a != b {
      Shrinks(a, b);
    }
  }
}
