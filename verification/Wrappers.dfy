/** The optional value shared by the models, and the size of a subset. */
module Wrappers {
  datatype Option<+T> = None | Some(value: T)

  lemma {:induction false} SubsetSize<T>(a: set<T>, b: set<T>)
    requires a <= b
    ensures |a| <= |b|
  {
    if a != {} {
      var x :| x in a;
      SubsetSize(a - {x}, b - {x});
    }
  }

  /** A number that a finite set does not reach. */
  lemma {:induction false} AboveAll(xs: set<int>) returns (n: nat)
    ensures forall x :: x in xs ==> x < n
  {
    n := 0;
    if y :| y in xs {
      var m := AboveAll(xs - {y});
      n := if m <= y then y + 1 else m;
      assert forall x :: x in xs ==> x == y || x in xs - {y};
    }
  }
}
