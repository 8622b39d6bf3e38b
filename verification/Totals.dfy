/** Totals of a count over the elements of a sequence, and how they move when it changes. */
module Totals {
  function Total<A>(xs: seq<A>, count: A -> nat): nat {
    if xs == [] then 0 else Total(xs[..|xs| - 1], count) + count(xs[|xs| - 1])
  }

  lemma TotalAppend<A>(xs: seq<A>, x: A, count: A -> nat)
    ensures Total(xs + [x], count) == Total(xs, count) + count(x)
  {
    assert (xs + [x])[..|xs|] == xs;
  }

  lemma {:induction false} TotalUpdate<A>(xs: seq<A>, i: nat, y: A, count: A -> nat)
    requires i < |xs|
    ensures Total(xs[i := y], count) + count(xs[i]) == Total(xs, count) + count(y)
  {
    var n := |xs| - 1;
    if i == n {
      assert xs[i := y][..n] == xs[..n];
    } else {
      TotalUpdate(xs[..n], i, y, count);
      assert xs[i := y][..n] == xs[..n][i := y];
    }
  }

  lemma {:induction false} TotalCovers<A>(xs: seq<A>, i: nat, count: A -> nat)
    requires i < |xs|
    ensures count(xs[i]) <= Total(xs, count)
  {
    if i < |xs| - 1 {
      TotalCovers(xs[..|xs| - 1], i, count);
    }
  }

  lemma {:induction false} TotalZero<A>(xs: seq<A>, count: A -> nat)
    requires forall i :: 0 <= i < |xs| ==> count(xs[i]) == 0
    ensures Total(xs, count) == 0
  {
    if xs != [] {
      TotalZero(xs[..|xs| - 1], count);
    }
  }
}
