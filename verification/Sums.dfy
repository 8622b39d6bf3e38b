/** Sums of weights over finite sets, and the loop-order folds that compute them. */
module Sums {
  /** The exact sum, independent of any order. */
  ghost function SumBy<T(!new)>(s: set<T>, weight: T -> real): real {
    if s == {} then 0.0
    else var x :| x in s; weight(x) + SumBy(s - {x}, weight)
  }

  lemma {:induction false} SumRemove<T(!new)>(s: set<T>, weight: T -> real, x: T)
    requires x in s
    ensures SumBy(s, weight) == weight(x) + SumBy(s - {x}, weight)
  {
    var y :| y in s && SumBy(s, weight) == weight(y) + SumBy(s - {y}, weight);
    if y != x {
      SumRemove(s - {y}, weight, x);
      SumRemove(s - {x}, weight, y);
      assert s - {y} - {x} == s - {x} - {y};
    }
  }

  lemma SumInsert<T(!new)>(s: set<T>, weight: T -> real, x: T)
    requires x !in s
    ensures SumBy(s + {x}, weight) == SumBy(s, weight) + weight(x)
  {
    SumRemove(s + {x}, weight, x);
    assert s + {x} - {x} == s;
  }

  lemma {:induction false} SumDisjoint<T(!new)>(a: set<T>, b: set<T>, weight: T -> real)
    requires a !! b
    ensures SumBy(a + b, weight) == SumBy(a, weight) + SumBy(b, weight)
  {
    if a == {} {
      assert a + b == b;
    } else {
      var x :| x in a;
      SumRemove(a, weight, x);
      SumRemove(a + b, weight, x);
      assert a + b - {x} == (a - {x}) + b;
      SumDisjoint(a - {x}, b, weight);
    }
  }

  function Elements<T>(xs: seq<T>): set<T> {
    set x | x in xs
  }

  lemma ElementsOfStretch<T>(xs: seq<T>, lo: nat, hi: nat, some: set<T>)
    requires lo <= hi <= |xs| && some <= Elements(xs)
    requires forall i :: 0 <= i < |xs| ==> (xs[i] in some <==> lo <= i < hi)
    ensures some == Elements(xs[lo..hi])
  {
    var stretch := xs[lo..hi];
    forall k | 0 <= k < |stretch| ensures stretch[k] in some {
      assert stretch[k] == xs[lo + k];
    }
    forall x | x in some ensures x in stretch {
      var i :| 0 <= i < |xs| && xs[i] == x;
      assert stretch[i - lo] == x;
    }
  }

  /** The running total of a loop over the positions lo to hi of a sequence. */
  function FoldRange<T>(xs: seq<T>, lo: nat, hi: nat, weight: T -> real): real
    requires lo <= hi <= |xs|
  {
    if lo == hi then 0.0 else FoldRange(xs, lo, hi - 1, weight) + weight(xs[hi - 1])
  }

  ghost predicate Distinct<T>(xs: seq<T>) {
    forall i, j :: 0 <= i < j < |xs| ==> xs[i] != xs[j]
  }

  lemma NextElement<T>(xs: seq<T>, lo: nat, hi: nat)
    requires Distinct(xs) && lo < hi <= |xs|
    ensures Elements(xs[lo..hi]) == Elements(xs[lo..hi - 1]) + {xs[hi - 1]}
    ensures xs[hi - 1] !in Elements(xs[lo..hi - 1])
  {
    assert xs[lo..hi] == xs[lo..hi - 1] + [xs[hi - 1]];
  }

  /** Over distinct elements the running total is the exact sum, and the length counts them. */
  lemma {:induction false} FoldIsSum<T(!new)>(xs: seq<T>, lo: nat, hi: nat, weight: T -> real)
    requires Distinct(xs) && lo <= hi <= |xs|
    ensures FoldRange(xs, lo, hi, weight) == SumBy(Elements(xs[lo..hi]), weight)
    ensures |Elements(xs[lo..hi])| == hi - lo
    decreases hi
  {
    if lo < hi {
      FoldIsSum(xs, lo, hi - 1, weight);
      NextElement(xs, lo, hi);
      SumInsert(Elements(xs[lo..hi - 1]), weight, xs[hi - 1]);
    }
  }
}
