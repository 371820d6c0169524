// Finite sums over sequences: the arithmetic behind every conservation law in
// this project ("a shared counter equals what all the holders account for").
module Sums {

  function Sum(xs: seq<int>): int {
    if xs == [] then 0 else xs[0] + Sum(xs[1..])
  }

  // Changing one summand changes the total by the difference.
  lemma {:induction false} SumUpdate(xs: seq<int>, i: nat, v: int)
    requires i < |xs|
    ensures Sum(xs[i := v]) == Sum(xs) + v - xs[i]
  {
    if i == 0 {
      assert xs[i := v][1..] == xs[1..];
    } else {
      assert xs[i := v][1..] == xs[1..][i - 1 := v];
      SumUpdate(xs[1..], i - 1, v);
    }
  }

  // Non-negative summands: the total bounds each of them, and a zero total
  // means that each of them is zero.
  lemma {:induction false} SumBoundsEach(xs: seq<int>, i: nat)
    requires i < |xs|
    requires forall j :: 0 <= j < |xs| ==> xs[j] >= 0
    ensures 0 <= xs[i] <= Sum(xs)
  {
    SumNonNegative(xs[1..]);
    if i > 0 { SumBoundsEach(xs[1..], i - 1); }
  }

  lemma {:induction false} SumNonNegative(xs: seq<int>)
    requires forall j :: 0 <= j < |xs| ==> xs[j] >= 0
    ensures Sum(xs) >= 0
  {
    if xs != [] { SumNonNegative(xs[1..]); }
  }

  // Two different positions together are still bounded by the total.
  lemma {:induction false} SumBoundsPair(xs: seq<int>, i: nat, j: nat)
    requires i < j < |xs|
    requires forall k :: 0 <= k < |xs| ==> xs[k] >= 0
    ensures xs[i] + xs[j] <= Sum(xs)
  {
    if i == 0 {
      SumBoundsEach(xs[1..], j - 1);
    } else {
      SumBoundsPair(xs[1..], i - 1, j - 1);
    }
  }

  lemma {:induction false} SumZero(xs: seq<int>)
    requires forall j :: 0 <= j < |xs| ==> xs[j] == 0
    ensures Sum(xs) == 0
  {
    if xs != [] { SumZero(xs[1..]); }
  }

  // One summand and otherwise none above zero.
  lemma {:induction false} SumAtMost(xs: seq<int>, i: nat)
    requires i < |xs| && forall j :: 0 <= j < |xs| && j != i ==> xs[j] <= 0
    ensures Sum(xs) <= xs[i]
    decreases |xs|
  {
    if i > 0 {
      SumAtMost(xs[1..], i - 1);
    } else if |xs| > 1 {
      SumAtMost(xs[1..], 0);
    }
  }

  lemma {:induction false} SumMonotone(xs: seq<int>, ys: seq<int>)
    requires |xs| == |ys| && forall i :: 0 <= i < |xs| ==> xs[i] <= ys[i]
    ensures Sum(xs) <= Sum(ys)
  {
    if xs != [] { SumMonotone(xs[1..], ys[1..]); }
  }
}
