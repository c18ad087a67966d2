// Sums over sequences, for the measures on runs.
module Sums {
  function Sum(xs: seq<int>): int {
    if xs == [] then 0 else Sum(xs[..|xs| - 1]) + xs[|xs| - 1]
  }

  lemma SumAppend(xs: seq<int>, x: int)
    ensures Sum(xs + [x]) == Sum(xs) + x
  {
    assert (xs + [x])[..|xs|] == xs;
  }

  lemma {:induction false} SumUpdate(xs: seq<int>, i: nat, x: int)
    requires i < |xs|
    ensures Sum(xs[i := x]) == Sum(xs) - xs[i] + x
    decreases |xs|
  {
    var n := |xs| - 1;
    if i == n {
      assert xs[i := x][..n] == xs[..n];
    } else {
      SumUpdate(xs[..n], i, x);
      assert xs[i := x][..n] == xs[..n][i := x];
    }
  }

  lemma {:induction false} SumMonotone(xs: seq<int>, ys: seq<int>)
    requires |xs| == |ys| && forall i | 0 <= i < |xs| :: xs[i] <= ys[i]
    ensures Sum(xs) <= Sum(ys)
    decreases |xs|
  {
    if xs != [] { SumMonotone(xs[..|xs| - 1], ys[..|ys| - 1]); }
  }

  lemma {:induction false} SumZero(xs: seq<int>)
    requires forall i | 0 <= i < |xs| :: xs[i] == 0
    ensures Sum(xs) == 0
    decreases |xs|
  {
    if xs != [] { SumZero(xs[..|xs| - 1]); }
  }

  // Nonnegative terms, at least one at each of the listed positions.
  lemma {:induction false} SumCovers(xs: seq<int>, at: seq<nat>)
    requires forall i | 0 <= i < |xs| :: 0 <= xs[i]
    requires forall k | 0 <= k < |at| :: at[k] < |xs| && 1 <= xs[at[k]]
    requires forall j, k | 0 <= j < k < |at| :: at[j] < at[k]
    ensures |at| <= Sum(xs)
    decreases |xs|
  {
    if xs != [] {
      var n := |xs| - 1;
      if at != [] && at[|at| - 1] == n {
        SumCovers(xs[..n], at[..|at| - 1]);
      } else {
        SumCovers(xs[..n], at);
      }
    }
  }

  lemma {:induction false} SumMinus(xs: seq<int>, ys: seq<int>, zs: seq<int>)
    requires |xs| == |ys| == |zs| && forall i | 0 <= i < |xs| :: zs[i] == xs[i] - ys[i]
    ensures Sum(zs) == Sum(xs) - Sum(ys)
    decreases |xs|
  {
    if xs != [] {
      var n := |xs| - 1;
      SumMinus(xs[..n], ys[..n], zs[..n]);
    }
  }
}
