/** Cardinalities of finite sets, and sequences that list a set. */
module Sets {

  predicate Distinct<T(==)>(xs: seq<T>) {
    forall i, j | 0 <= i < j < |xs| :: xs[i] != xs[j]
  }

  function Elements<T(==)>(xs: seq<T>): set<T> { set x | x in xs }

  lemma {:induction false} DistinctCardinal<T>(xs: seq<T>)
    requires Distinct(xs)
    ensures |Elements(xs)| == |xs|
  {
    if xs != [] {
      var n := |xs| - 1;
      DistinctCardinal(xs[..n]);
      assert Elements(xs) == Elements(xs[..n]) + {xs[n]};
    }
  }

  lemma {:induction false} Cardinal<T>(a: set<T>, b: set<T>)
    requires a <= b
    ensures |a| <= |b|
    decreases a
  {
    if a != {} {
      var x :| x in a;
      Cardinal(a - {x}, b - {x});
    }
  }
}
