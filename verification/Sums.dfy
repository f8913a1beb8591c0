/** Sums of an integer weight over a sequence, and how a sum reacts to the changes the
    delivery protocol makes: one entry replaced, one entry appended, all weights lowered. */
module Sums {

  function Sum<T>(xs: seq<T>, f: T -> int): int {
    if xs == [] then 0 else Sum(xs[..|xs| - 1], f) + f(xs[|xs| - 1])
  }

  lemma SumAppend<T>(xs: seq<T>, x: T, f: T -> int)
    ensures Sum(xs + [x], f) == Sum(xs, f) + f(x)
  {
    assert (xs + [x])[..|xs|] == xs;
  }

  lemma {:induction false} SumUpdate<T>(xs: seq<T>, i: nat, x: T, f: T -> int)
    requires i < |xs|
    ensures Sum(xs[i := x], f) == Sum(xs, f) - f(xs[i]) + f(x)
  {
    var n := |xs| - 1;
    var ys := xs[i := x];
    if i == n {
      assert ys[..n] == xs[..n];
    } else {
      SumUpdate(xs[..n], i, x, f);
      assert ys[..n] == xs[..n][i := x];
    }
  }

  lemma {:induction false} SumNonNegative<T>(xs: seq<T>, f: T -> int)
    requires forall x :: x in xs ==> f(x) >= 0
    ensures Sum(xs, f) >= 0
  {
    if xs == [] {
    } else {
      assert xs[|xs| - 1] in xs;
      assert forall x :: x in xs[..|xs| - 1] ==> x in xs;
      SumNonNegative(xs[..|xs| - 1], f);
    }
  }

  /** Lowering every weight lowers the sum, even when one entry is left out of both sums. */
  lemma {:induction false} SumLower<T>(xs: seq<T>, f: T -> int, g: T -> int)
    requires forall x :: x in xs ==> f(x) <= g(x)
    ensures Sum(xs, f) <= Sum(xs, g)
    ensures forall i :: 0 <= i < |xs| ==> Sum(xs, f) - f(xs[i]) <= Sum(xs, g) - g(xs[i])
  {
    if xs == [] {
    } else {
      var n := |xs| - 1;
      assert xs[n] in xs;
      assert forall x :: x in xs[..n] ==> x in xs;
      SumLower(xs[..n], f, g);
      forall i | 0 <= i < |xs|
        ensures Sum(xs, f) - f(xs[i]) <= Sum(xs, g) - g(xs[i])
      {
        if i < n {
          assert xs[..n][i] == xs[i];
        }
      }
    }
  }

  lemma {:induction false} SumSame<T>(xs: seq<T>, f: T -> int, g: T -> int)
    requires forall x :: x in xs ==> f(x) == g(x)
    ensures Sum(xs, f) == Sum(xs, g)
  {
    SumLower(xs, f, g);
    SumLower(xs, g, f);
  }

  /** A sum of non-negative weights is at least any one of them. */
  lemma {:induction false} SumAtLeast<T>(xs: seq<T>, i: nat, f: T -> int)
    requires i < |xs|
    requires forall x :: x in xs ==> f(x) >= 0
    ensures Sum(xs, f) >= f(xs[i])
  {
    var n := |xs| - 1;
    assert forall x :: x in xs[..n] ==> x in xs;
    if i == n {
      SumNonNegative(xs[..n], f);
    } else {
      assert xs[n] in xs;
      SumAtLeast(xs[..n], i, f);
    }
  }

  /** A sum of non-negative weights is at least any two of them together. */
  lemma {:induction false} SumAtLeastTwo<T>(xs: seq<T>, i: nat, k: nat, f: T -> int)
    requires i < |xs| && k < |xs| && i != k
    requires forall x :: x in xs ==> f(x) >= 0
    ensures Sum(xs, f) >= f(xs[i]) + f(xs[k])
  {
    var n := |xs| - 1;
    assert forall x :: x in xs[..n] ==> x in xs;
    if i == n {
      SumAtLeast(xs[..n], k, f);
    } else if k == n {
      SumAtLeast(xs[..n], i, f);
    } else {
      assert xs[n] in xs;
      SumAtLeastTwo(xs[..n], i, k, f);
    }
  }

  /** A positive sum has a positive entry. */
  lemma {:induction false} SumWitness<T>(xs: seq<T>, f: T -> int) returns (i: nat)
    requires Sum(xs, f) >= 1
    ensures i < |xs| && f(xs[i]) >= 1
  {
    var n := |xs| - 1;
    if f(xs[n]) >= 1 {
      i := n;
    } else {
      i := SumWitness(xs[..n], f);
    }
  }
}
