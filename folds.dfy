/** Left-to-right folds over integer sequences, as the original code's
    `reduce` calls and accumulating loops compute them. */
module Folds {
  /** The sum of `xs`, accumulated from the left starting at 0. */
  function Sum(xs: seq<int>): int
    decreases |xs|
  {
    if xs == [] then 0 else Sum(xs[..|xs| - 1]) + xs[|xs| - 1]
  }

  /** The product of `xs`, accumulated from the left starting at 1. */
  function Product(xs: seq<int>): int
    decreases |xs|
  {
    if xs == [] then 1 else Product(xs[..|xs| - 1]) * xs[|xs| - 1]
  }

  /** Sums and products of positive terms are positive. */
  lemma {:induction false} PositiveFolds(xs: seq<int>)
    requires forall i :: 0 <= i < |xs| ==> xs[i] > 0
    ensures xs != [] ==> Sum(xs) > 0
    ensures Product(xs) > 0
    decreases |xs|
  {
    if xs != [] {
      PositiveFolds(xs[..|xs| - 1]);
    }
  }
}
