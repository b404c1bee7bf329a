/** Counting two sets against each other. */
module Cardinality {

  lemma {:induction false} SameSize<A, B>(xs: set<A>, ys: set<B>, f: A -> B)
    requires forall x :: x in xs ==> f(x) in ys
    requires forall y :: y in ys ==> exists x :: x in xs && f(x) == y
    requires forall x, x' :: x in xs && x' in xs && f(x) == f(x') ==> x == x'
    ensures |xs| == |ys|
    decreases xs
  {
    if xs == {} {
      assert ys == {};
    } else {
      var x :| x in xs;
      var xs', ys' := xs - {x}, ys - {f(x)};
      forall y | y in ys' ensures exists x' :: x' in xs' && f(x') == y {
        var x' :| x' in xs && f(x') == y;
        assert x' in xs';
      }
      SameSize(xs', ys', f);
    }
  }

  lemma {:induction false} Fewer<T>(xs: set<T>, ys: set<T>)
    requires xs <= ys
    ensures |xs| <= |ys|
  {
    assert ys == xs + (ys - xs);
  }
}
