/** Sums and dot products over sequences, the arithmetic behind numpy's
    `np.sum` and `DataFrame.dot`. Each is accumulated from the front, the way
    a loop over the sequence would do it. */
module Sums {

  function Sum(s: seq<real>): real
  {
    if s == [] then 0.0 else Sum(s[..|s| - 1]) + s[|s| - 1]
  }

  function SumInt(s: seq<int>): int
  {
    if s == [] then 0 else SumInt(s[..|s| - 1]) + s[|s| - 1]
  }

  function Dot(a: seq<real>, b: seq<real>): real
    requires |a| == |b|
  {
    if a == [] then 0.0 else Dot(a[..|a| - 1], b[..|b| - 1]) + a[|a| - 1] * b[|b| - 1]
  }

  /** Every element multiplied by `c`. */
  function Scale(c: real, s: seq<real>): (r: seq<real>)
    ensures |r| == |s| && forall i :: 0 <= i < |s| ==> r[i] == c * s[i]
  {
    seq(|s|, i requires 0 <= i < |s| => c * s[i])
  }

  lemma ScalePrefix(c: real, s: seq<real>, n: nat)
    requires n <= |s|
    ensures Scale(c, s)[..n] == Scale(c, s[..n])
  {
    assert forall i :: 0 <= i < n ==> Scale(c, s)[..n][i] == Scale(c, s[..n])[i];
  }

  lemma {:induction false} SumAppend(a: seq<real>, b: seq<real>)
    ensures Sum(a + b) == Sum(a) + Sum(b)
  {
    if b != [] {
      assert (a + b)[..|a + b| - 1] == a + b[..|b| - 1];
      SumAppend(a, b[..|b| - 1]);
    } else {
      assert a + b == a;
    }
  }

  lemma {:induction false} SumIntUpdate(s: seq<int>, k: nat, v: int)
    requires k < |s|
    ensures SumInt(s[k := v]) == SumInt(s) - s[k] + v
  {
    var n := |s| - 1;
    if k < n {
      assert s[k := v][..n] == s[..n][k := v];
      SumIntUpdate(s[..n], k, v);
    } else {
      assert s[k := v][..n] == s[..n];
    }
  }

  lemma {:induction false} SumNonNegative(s: seq<real>)
    requires forall i :: 0 <= i < |s| ==> s[i] >= 0.0
    ensures Sum(s) >= 0.0
  {
    if s != [] {
      SumNonNegative(s[..|s| - 1]);
    }
  }

  lemma {:induction false} SumIntNonNegative(s: seq<int>)
    requires forall i :: 0 <= i < |s| ==> s[i] >= 0
    ensures SumInt(s) >= 0
  {
    if s != [] {
      SumIntNonNegative(s[..|s| - 1]);
    }
  }

  /** Scaling one side of a dot product scales the product. */
  lemma {:induction false} DotScale(a: seq<real>, b: seq<real>, c: real)
    requires |a| == |b|
    ensures Dot(a, Scale(c, b)) == c * Dot(a, b)
  {
    if a != [] {
      var n := |a| - 1;
      ScalePrefix(c, b, n);
      DotScale(a[..n], b[..n], c);
      assert a[n] * (c * b[n]) == c * (a[n] * b[n]);
    }
  }

  lemma {:induction false} SumScale(s: seq<real>, c: real)
    ensures Sum(Scale(c, s)) == c * Sum(s)
  {
    if s != [] {
      var n := |s| - 1;
      ScalePrefix(c, s, n);
      SumScale(s[..n], c);
    }
  }

  /** A dot product with weights summing to one, against a constant vector,
      is that constant. */
  lemma {:induction false} DotConstant(a: seq<real>, w: seq<real>, c: real)
    requires |a| == |w| && forall i :: 0 <= i < |a| ==> a[i] == c
    ensures Dot(a, w) == c * Sum(w)
  {
    if a != [] {
      var n := |a| - 1;
      DotConstant(a[..n], w[..n], c);
    }
  }

  /** The integers of a sequence as reals. */
  function AsReals(s: seq<int>): (r: seq<real>)
    ensures |r| == |s| && forall i :: 0 <= i < |s| ==> r[i] == s[i] as real
  {
    seq(|s|, i requires 0 <= i < |s| => s[i] as real)
  }

  lemma AsRealsPrefix(s: seq<int>, n: nat)
    requires n <= |s|
    ensures AsReals(s)[..n] == AsReals(s[..n])
  {
    assert forall i :: 0 <= i < n ==> AsReals(s)[..n][i] == AsReals(s[..n])[i];
  }

  lemma {:induction false} SumAsReals(s: seq<int>)
    ensures Sum(AsReals(s)) == SumInt(s) as real
  {
    if s != [] {
      var n := |s| - 1;
      AsRealsPrefix(s, n);
      SumAsReals(s[..n]);
    }
  }

  /** A sequence of n copies of `c` sums to n * c. */
  lemma {:induction false} SumConstant(s: seq<real>, c: real)
    requires forall i :: 0 <= i < |s| ==> s[i] == c
    ensures Sum(s) == |s| as real * c
  {
    if s != [] {
      SumConstant(s[..|s| - 1], c);
    }
  }
}
