/** Finite sums over a list that changes in one place at a time. */
module Sums {

  function Sum(xs: seq<nat>): nat {
    if xs == [] then 0 else Sum(xs[..|xs| - 1]) + xs[|xs| - 1]
  }

  lemma SumAppend(xs: seq<nat>, x: nat)
    ensures Sum(xs + [x]) == Sum(xs) + x
  {
    assert (xs + [x])[..|xs|] == xs;
  }

  lemma {:induction false} SumUpdate(xs: seq<nat>, ys: seq<nat>, j: nat)
    requires |xs| == |ys| && j < |xs|
    requires forall i :: 0 <= i < |xs| && i != j ==> xs[i] == ys[i]
    ensures Sum(ys) == Sum(xs) - xs[j] + ys[j]
    ensures xs[j] <= Sum(xs)
  {
    var n := |xs| - 1;
    if j == n {
      assert xs[..n] == ys[..n];
    } else {
      SumUpdate(xs[..n], ys[..n], j);
    }
  }

  lemma {:induction false} SumMonotone(xs: seq<nat>, ys: seq<nat>)
    requires |xs| == |ys| && forall i :: 0 <= i < |xs| ==> xs[i] <= ys[i]
    ensures Sum(xs) <= Sum(ys)
  {
    if xs != [] {
      SumMonotone(xs[..|xs| - 1], ys[..|ys| - 1]);
    }
  }

  lemma {:induction false} SumBound(xs: seq<nat>, m: nat)
    requires forall i :: 0 <= i < |xs| ==> xs[i] <= m
    ensures Sum(xs) <= m * |xs|
  {
    if xs != [] {
      SumBound(xs[..|xs| - 1], m);
    }
  }
}
