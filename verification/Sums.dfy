/** Sums of weights over a sequence. */
module Sums {

  function Sum<T>(xs: seq<T>, w: T -> nat): nat {
    if xs == [] then 0 else Sum(xs[..|xs| - 1], w) + w(xs[|xs| - 1])
  }

  lemma {:induction false} SumUpdate<T>(xs: seq<T>, w: T -> nat, i: nat, x: T)
    requires i < |xs|
    ensures Sum(xs[i := x], w) + w(xs[i]) == Sum(xs, w) + w(x)
  {
    var n := |xs| - 1;
    if i == n {
      assert xs[i := x][..n] == xs[..n];
    } else {
      assert xs[i := x][..n] == xs[..n][i := x];
      SumUpdate(xs[..n], w, i, x);
    }
  }

  lemma {:induction false} SumWitness<T>(xs: seq<T>, w: T -> nat)
    requires Sum(xs, w) > 0
    ensures exists i :: 0 <= i < |xs| && w(xs[i]) > 0
  {
    var n := |xs| - 1;
    if w(xs[n]) == 0 {
      SumWitness(xs[..n], w);
      var i :| 0 <= i < n && w(xs[..n][i]) > 0;
      assert w(xs[i]) > 0;
    }
  }

  lemma {:induction false} SumAtLeast<T>(xs: seq<T>, w: T -> nat, i: nat)
    requires i < |xs|
    ensures Sum(xs, w) >= w(xs[i])
  {
    if i < |xs| - 1 {
      SumAtLeast(xs[..|xs| - 1], w, i);
    }
  }

  lemma {:induction false} SumUniform<T>(xs: seq<T>, w: T -> nat, b: nat)
    requires forall x | x in xs :: w(x) == b
    ensures Sum(xs, w) == b * |xs|
  {
    if xs != [] {
      SumUniform(xs[..|xs| - 1], w, b);
    }
  }
}
