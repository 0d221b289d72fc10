/** Go ranges over a map in an arbitrary order.  A `Lists` sequence is one such order:
    every element of the set, each exactly once. */
module Listings {

  ghost predicate Distinct<T>(xs: seq<T>)
  {
    forall i, j :: 0 <= i < j < |xs| ==> xs[i] != xs[j]
  }

  ghost predicate Lists<T>(xs: seq<T>, s: set<T>)
  {
    && Distinct(xs)
    && Elements(xs) == s
  }

  function Elements<T>(xs: seq<T>): set<T>
  {
    set x | x in xs
  }

  /** Appending the next key of the range keeps the order well formed. */
  lemma ListsAppend<T>(xs: seq<T>, s: set<T>, x: T)
    requires Lists(xs, s) && x !in s
    ensures Lists(xs + [x], s + {x})
  {
    assert Elements(xs + [x]) == Elements(xs) + {x};
    assert forall i :: 0 <= i < |xs| ==> xs[i] in Elements(xs);
  }

  /** How often `x` occurs. */
  function Count<T(==)>(xs: seq<T>, x: T): nat
  {
    if xs == [] then 0 else (if xs[0] == x then 1 else 0) + Count(xs[1..], x)
  }

  ghost predicate IsGreatest(s: set<int>, m: int)
  {
    m in s && forall x :: x in s ==> x <= m
  }

  /** A non-empty finite set of integers has a greatest element. */
  lemma {:induction false} GreatestExists(s: set<int>)
    requires s != {}
    ensures exists m :: IsGreatest(s, m)
  {
    assert (forall a :: a !in s) ==> s == {};
    var a :| a in s;
    var rest := s - {a};
    if rest == {} {
      assert s == {a};
      assert IsGreatest(s, a);
    } else {
      GreatestExists(rest);
      var m :| IsGreatest(rest, m);
      assert forall x :: x in s ==> x == a || x in rest;
      assert IsGreatest(s, if a <= m then m else a);
    }
  }
}
