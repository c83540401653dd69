/** Python's `round` and numpy's `.round()`: to the nearest integer, with ties
    going to the even neighbour (banker's rounding). */
module Rounding {
  import opened Sums

  function RoundHalfEven(x: real): (r: int)
    ensures x - 0.5 <= r as real <= x + 0.5
    ensures (r as real - x == 0.5 || x - r as real == 0.5) ==> r % 2 == 0
  {
    var f := x.Floor;
    var d := x - f as real;
    if d < 0.5 then f
    else if d > 0.5 then f + 1
    else if f % 2 == 0 then f else f + 1
  }

  /** The two postconditions of RoundHalfEven single out one integer. */
  lemma RoundHalfEvenUnique(x: real, n: int)
    requires x - 0.5 <= n as real <= x + 0.5
    requires (n as real - x == 0.5 || x - n as real == 0.5) ==> n % 2 == 0
    ensures n == RoundHalfEven(x)
  {
  }

  lemma RoundOfInteger(n: int)
    ensures RoundHalfEven(n as real) == n
  {
  }

  lemma RoundMonotone(x: real, y: real)
    requires x <= y
    ensures RoundHalfEven(x) <= RoundHalfEven(y)
  {
  }

  /** Rounding never moves a value past an integer bound it already respects. */
  lemma RoundAtMost(x: real, n: int)
    requires x <= n as real
    ensures RoundHalfEven(x) <= n
  {
    RoundMonotone(x, n as real);
    RoundOfInteger(n);
  }

  /** numpy's `.round()` applied to every element of a vector. */
  function RoundAll(xs: seq<real>): (r: seq<int>)
    ensures |r| == |xs| && forall i :: 0 <= i < |xs| ==> r[i] == RoundHalfEven(xs[i])
  {
    seq(|xs|, i requires 0 <= i < |xs| => RoundHalfEven(xs[i]))
  }

  lemma RoundAllPrefix(xs: seq<real>, n: nat)
    requires n <= |xs|
    ensures RoundAll(xs)[..n] == RoundAll(xs[..n])
  {
    assert forall i :: 0 <= i < n ==> RoundAll(xs)[..n][i] == RoundAll(xs[..n])[i];
  }

  /** Rounding each of n values moves their total by at most n / 2. */
  lemma {:induction false} RoundedSumNear(xs: seq<real>)
    ensures Sum(xs) - |xs| as real / 2.0 <= SumInt(RoundAll(xs)) as real <= Sum(xs) + |xs| as real / 2.0
  {
    if xs != [] {
      var n := |xs| - 1;
      RoundAllPrefix(xs, n);
      RoundedSumNear(xs[..n]);
    }
  }

  /** A non-negative weight `a` times a rounding error of at most one half:
      the product moves by at most `h`, half the weight. */
  lemma WeightedRoundingError(a: real, x: real, q: real, h: real)
    requires a >= 0.0 && x - 0.5 <= q <= x + 0.5 && h == a / 2.0
    ensures a * x - h <= a * q <= a * x + h
  {
    MulMonotone(a, q, x + 0.5);
    MulMonotone(a, x - 0.5, q);
  }

  lemma MulMonotone(a: real, b: real, c: real)
    requires a >= 0.0 && b <= c
    ensures a * b <= a * c
  {
  }

  /** Moving each entry of a vector by at most one half moves its dot product
      with non-negative weights by at most half the sum of the weights. */
  lemma {:induction false} DotNear(a: seq<real>, u: seq<real>, v: seq<real>)
    requires |a| == |u| == |v|
    requires forall i :: 0 <= i < |a| ==> a[i] >= 0.0 && u[i] - 0.5 <= v[i] <= u[i] + 0.5
    ensures Dot(a, u) - Sum(a) / 2.0 <= Dot(a, v) <= Dot(a, u) + Sum(a) / 2.0
  {
    if a != [] {
      var n := |a| - 1;
      var h := a[n] / 2.0;
      WeightedRoundingError(a[n], u[n], v[n], h);
      DotNear(a[..n], u[..n], v[..n]);
    }
  }

  /** Rounding the quantities of a basket moves its cost by at most half the
      sum of the (non-negative) prices. */
  lemma RoundedDotNear(a: seq<real>, xs: seq<real>)
    requires |a| == |xs| && forall i :: 0 <= i < |a| ==> a[i] >= 0.0
    ensures Dot(a, xs) - Sum(a) / 2.0 <= Dot(a, AsReals(RoundAll(xs))) <= Dot(a, xs) + Sum(a) / 2.0
  {
    DotNear(a, xs, AsReals(RoundAll(xs)));
  }
}
