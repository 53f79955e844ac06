/** Sums of weights over the goroutines of a protocol, used by its ranking function. */
module Sums {

  function Sum(xs: seq<nat>): nat {
    if xs == [] then 0 else xs[0] + Sum(xs[1..])
  }

  /** Replacing one weight changes the sum by the difference. */
  lemma {:induction false} SumUpdate(xs: seq<nat>, i: nat, v: nat)
    requires i < |xs|
    ensures Sum(xs[i := v]) + xs[i] == Sum(xs) + v
  {
    if i == 0 {
      assert xs[i := v][1..] == xs[1..];
    } else {
      assert xs[i := v][1..] == xs[1..][i - 1 := v];
      SumUpdate(xs[1..], i - 1, v);
    }
  }

  /** A constant weight sums to the product. */
  lemma {:induction false} SumConstant(xs: seq<nat>, c: nat)
    requires forall i :: 0 <= i < |xs| ==> xs[i] == c
    ensures Sum(xs) == |xs| * c
  {
    if xs == [] {
    } else {
      SumConstant(xs[1..], c);
    }
  }
}
