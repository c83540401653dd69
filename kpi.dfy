/** The risk and return measures of kpi.py, over a series of adjusted closing
    prices (`*_series` functions) or a frame of named price columns (the
    DataFrame functions). The float operations that the source leaves to numpy
    and pandas (fractional power, sample standard deviation, square root) are
    kept abstract as the fields of a FloatOps value. */
module Kpi {
  import opened Wrappers
  import opened Sums

  /** Trading days per year: `n = len / 252`, `np.sqrt(252)`. */
  const TradingDays: real := 252.0
  /** The default risk-free rate `rf` of sharpe and sortino. */
  const RiskFree: real := 0.04
  /** The column `volatility` reads when called without `spec`. */
  const AdjClose: string := "Adj Close"

  /** numpy's `**` on floats, pandas' `Series.std()` and `np.sqrt`. */
  datatype FloatOps = FloatOps(pow: (real, real) -> real, std: seq<real> -> real, sqrt: real -> real)

  /** The one law of `**` the model relies on: one to any power is one. */
  ghost predicate PowOfOne(ops: FloatOps)
  {
    forall e :: ops.pow(1.0, e) == 1.0
  }

  /** A data frame of named price columns. */
  type Frame = map<string, seq<real>>


  /** One float that a pandas computation yields: a number, an infinity or NaN. */
  datatype Float = Num(v: real) | PosInf | NegInf | NaN

  /** The numbers of a float series, in order: what `skipna` leaves. */
  function Finite(s: seq<Float>): (f: seq<real>)
    ensures |f| <= |s|
  {
    if s == [] then []
    else Finite(s[..|s| - 1]) + (if s[|s| - 1].Num? then [s[|s| - 1].v] else [])
  }

  predicate Infinite(s: seq<Float>)
  {
    PosInf in s || NegInf in s
  }

  /** `Series.std()`: NaN entries are skipped, and an infinite entry makes the
      deviation NaN. The deviation of the numbers left is `ops.std`. */
  function Std(s: seq<Float>, ops: FloatOps): (r: Result<real>)
    ensures r.Ok? <==> !Infinite(s)
    ensures r.Err? ==> r.error == NotFinite
    ensures r.Ok? ==> r.value == ops.std(Finite(s))
  {
    if Infinite(s) then Err(NotFinite) else Ok(ops.std(Finite(s)))
  }

  /** Every price that pct_change divides by is non-zero. */
  predicate DivisorsNonZero(p: seq<real>)
  {
    forall i :: 0 <= i < |p| - 1 ==> p[i] != 0.0
  }

  predicate Positive(p: seq<real>)
  {
    forall i :: 0 <= i < |p| ==> p[i] > 0.0
  }

  predicate NonNegative(p: seq<real>)
  {
    forall i :: 0 <= i < |p| ==> p[i] >= 0.0
  }

  /** Float division: no finite value when the divisor is zero. */
  function Quot(a: real, b: real): (r: Result<real>)
    ensures r.Ok? <==> b != 0.0
    ensures r.Ok? ==> r.value * b == a
    ensures r.Err? ==> r.error == NotFinite
  {
    if b == 0.0 then Err(NotFinite) else Ok(a / b)
  }

  // ---------------------------------------------------------------------
  // Period returns

  /** A price grown by one period return. */
  function Grow(price: real, ret: real): real
  {
    price * (1.0 + ret)
  }

  lemma GrowByChange(a: real, b: real)
    requires a != 0.0
    ensures Grow(a, b / a - 1.0) == b
  {
  }

  /** One element of `pct_change()`, `b / a - 1` in float arithmetic: a zero
      price followed by a zero gives NaN, followed by anything else an infinity
      of that price's sign. */
  function Change(a: real, b: real): (r: Float)
    ensures r.Num? <==> a != 0.0
    ensures r == NaN <==> a == 0.0 && b == 0.0
    ensures r == PosInf <==> a == 0.0 && b > 0.0
    ensures r == NegInf <==> a == 0.0 && b < 0.0
  {
    if a != 0.0 then Num(b / a - 1.0)
    else if b == 0.0 then NaN
    else if b > 0.0 then PosInf
    else NegInf
  }

  /** `pct_change()`: element i is the change from period i to period i + 1.
      pandas puts a NaN in front, which every consumer (`std`) skips; the model
      leaves it out, so the first period has no return. */
  function Returns(p: seq<real>): (r: seq<Float>)
    ensures |r| == if p == [] then 0 else |p| - 1
    ensures forall i :: 0 <= i < |r| ==> r[i] == Change(p[i], p[i + 1])
  {
    seq(if p == [] then 0 else |p| - 1, i requires 0 <= i < |p| - 1 => Change(p[i], p[i + 1]))
  }

  /** The first price compounded by a sequence of period returns. */
  function Compound(p0: real, r: seq<real>): (p: seq<real>)
    ensures |p| == |r| + 1 && p[0] == p0
  {
    if r == [] then [p0]
    else
      var q := Compound(p0, r[..|r| - 1]);
      q + [Grow(q[|q| - 1], r[|r| - 1])]
  }

  lemma FiniteAppend(s: seq<Float>, x: Float)
    ensures Finite(s + [x]) == Finite(s) + (if x.Num? then [x.v] else [])
  {
    assert (s + [x])[..|s|] == s;
  }

  /** Without a zero divisor every return is a number, and compounding the
      returns from the first price gives the whole series back. */
  lemma {:induction false} CompoundReturns(p: seq<real>)
    requires p != [] && DivisorsNonZero(p)
    ensures |Finite(Returns(p))| == |p| - 1
    ensures Compound(p[0], Finite(Returns(p))) == p
  {
    var n := |p| - 1;
    if n > 0 {
      var r := Returns(p);
      assert DivisorsNonZero(p[..n]);
      assert r == Returns(p[..n]) + [r[n - 1]];
      FiniteAppend(Returns(p[..n]), r[n - 1]);
      CompoundReturns(p[..n]);
      assert r[n - 1] == Num(p[n] / p[n - 1] - 1.0);
      GrowByChange(p[n - 1], p[n]);
      assert p[..n] + [p[n]] == p;
    }
  }

  // ---------------------------------------------------------------------
  // Volatility

  /** volatility_series: the standard deviation of the period returns,
      annualised. The NaN of a zero price followed by a zero is skipped; a
      zero price followed by a non-zero one leaves an infinity, and the
      deviation is NaN. */
  function VolatilitySeries(p: seq<real>, ops: FloatOps): (r: Result<real>)
    ensures r.Err? ==> r.error == NotFinite
  {
    match Std(Returns(p), ops)
    case Err(e) => Err(e)
    case Ok(s) => Ok(s * ops.sqrt(TradingDays))
  }

  /** The volatility has a value exactly when no zero price is followed by a
      non-zero one, and it is then the annualised deviation of the returns
      that are numbers. */
  lemma VolatilityDefined(p: seq<real>, ops: FloatOps)
    ensures VolatilitySeries(p, ops).Ok? <==> forall i :: 0 <= i < |p| - 1 && p[i] == 0.0 ==> p[i + 1] == 0.0
    ensures VolatilitySeries(p, ops).Ok? ==>
      VolatilitySeries(p, ops).value == ops.std(Finite(Returns(p))) * ops.sqrt(TradingDays)
  {
    var rs := Returns(p);
    assert Infinite(rs) <==> exists i :: 0 <= i < |rs| && (rs[i] == PosInf || rs[i] == NegInf);
  }

  /** A run of zero prices only drops returns: the volatility of
      [2, 1, 0, 0, 0] is the deviation of its one real change, -0.5, and of
      the fall to zero, -1. */
  lemma VolatilitySkipsZeroRun(ops: FloatOps)
    ensures VolatilitySeries([2.0, 1.0, 0.0, 0.0, 0.0], ops) == Ok(ops.std([-0.5, -1.0]) * ops.sqrt(TradingDays))
  {
    var p := [2.0, 1.0, 0.0, 0.0, 0.0];
    var rs := Returns(p);
    assert rs[0] == Num(-0.5) && rs[1] == Num(-1.0) && rs[2] == NaN && rs[3] == NaN;
    assert !Infinite(rs);
    assert rs[..3][..2][..1][..0] == [];
    assert Finite(rs[..3][..2][..1]) == [-0.5];
    assert Finite(rs[..3][..2]) == [-0.5, -1.0];
    assert Finite(rs[..3]) == [-0.5, -1.0];
    assert |rs| == 4 && rs[..|rs| - 1] == rs[..3];
    assert Finite(rs) == [-0.5, -1.0];
    assert Std(rs, ops) == Ok(ops.std([-0.5, -1.0]));
    assert VolatilitySeries(p, ops).Ok?;
    assert VolatilitySeries(p, ops).value == ops.std([-0.5, -1.0]) * ops.sqrt(TradingDays);
  }

  // ---------------------------------------------------------------------
  // The downside sample of sortino

  /** One element of `np.where(r > 0, 0, r)`: a gain, +inf included, becomes
      zero; NaN fails the comparison and stays. */
  function Clamp(x: Float): Float
  {
    match x
    case Num(v) => if v > 0.0 then Num(0.0) else x
    case PosInf => Num(0.0)
    case _ => x
  }

  function ClampGains(r: seq<Float>): (c: seq<Float>)
    ensures |c| == |r|
  {
    seq(|r|, i requires 0 <= i < |r| => Clamp(r[i]))
  }

  /** `x[x != 0]`, in order; NaN differs from zero and is kept. */
  function DropZeros(s: seq<Float>): seq<Float>
  {
    if s == [] then []
    else DropZeros(s[..|s| - 1]) + (if s[|s| - 1] != Num(0.0) then [s[|s| - 1]] else [])
  }

  /** The sample whose standard deviation sortino takes, built as the source does. */
  function DownsideReturns(r: seq<Float>): seq<Float>
  {
    DropZeros(ClampGains(r))
  }

  /** The strictly negative elements, in their original order. */
  function Negatives(r: seq<real>): (n: seq<real>)
    ensures |n| <= |r|
    ensures forall i :: 0 <= i < |n| ==> n[i] < 0.0
    ensures forall x :: x in n <==> x in r && x < 0.0
  {
    if r == [] then []
    else
      var m := Negatives(r[..|r| - 1]);
      assert forall x :: x in r <==> x in r[..|r| - 1] || x == r[|r| - 1];
      m + (if r[|r| - 1] < 0.0 then [r[|r| - 1]] else [])
  }

  /** The numbers of the downside sample are exactly the strictly negative
      returns in order: zero returns and gains are both left out (not counted
      as zeros). */
  lemma {:induction false} DownsideIsNegatives(r: seq<Float>)
    ensures Finite(DownsideReturns(r)) == Negatives(Finite(r))
  {
    if r != [] {
      var n := |r| - 1;
      var x := r[n];
      var q := r[..n];
      assert ClampGains(r)[..n] == ClampGains(q);
      DownsideIsNegatives(q);
      var tail := if Clamp(x) != Num(0.0) then [Clamp(x)] else [];
      assert DownsideReturns(r) == DownsideReturns(q) + tail;
      if tail == [] {
        assert DownsideReturns(r) == DownsideReturns(q);
      } else {
        FiniteAppend(DownsideReturns(q), Clamp(x));
      }
      if x.Num? {
        assert Finite(r) == Finite(q) + [x.v];
        assert (Finite(q) + [x.v])[..|Finite(q)|] == Finite(q);
      } else {
        assert Finite(r) == Finite(q) + [];
        assert Finite(q) + [] == Finite(q);
      }
    }
  }

  /** Of the infinities among the returns only -inf survives into the
      downside sample; +inf is a gain and becomes zero. */
  lemma {:induction false} DownsideInfinities(r: seq<Float>)
    ensures PosInf !in DownsideReturns(r)
    ensures NegInf in DownsideReturns(r) <==> NegInf in r
  {
    if r != [] {
      var n := |r| - 1;
      var q := r[..n];
      assert ClampGains(r)[..n] == ClampGains(q);
      DownsideInfinities(q);
      assert r == q + [r[n]];
    }
  }

  /** The standard deviation of the downside sample. */
  function DownsideDeviation(p: seq<real>, ops: FloatOps): (r: Result<real>)
    ensures r.Err? ==> r.error == NotFinite
  {
    Std(DownsideReturns(Returns(p)), ops)
  }

  // ---------------------------------------------------------------------
  // Running maximum and drawdown

  /** `cummax()`: the largest price up to and including each period. */
  function CumMax(p: seq<real>): (m: seq<real>)
    ensures |m| == |p|
  {
    if p == [] then []
    else
      var m := CumMax(p[..|p| - 1]);
      var last := p[|p| - 1];
      m + [if m == [] || last > m[|m| - 1] then last else m[|m| - 1]]
  }

  /** Period i of the running maximum: the first price, then the larger of
      the price and the maximum before it. */
  lemma {:induction false} CumMaxStep(p: seq<real>, i: nat)
    requires i < |p|
    ensures i == 0 ==> CumMax(p)[i] == p[0]
    ensures i > 0 ==> CumMax(p)[i] == (if p[i] > CumMax(p)[i - 1] then p[i] else CumMax(p)[i - 1])
  {
    var n := |p| - 1;
    var q := p[..n];
    var m0 := CumMax(q);
    assert CumMax(p) == m0 + [CumMax(p)[n]];
    if i < n {
      CumMaxStep(q, i);
      assert q[i] == p[i];
    }
  }

  lemma {:induction false} CumMaxMonotone(p: seq<real>, i: nat, j: nat)
    requires i <= j < |p|
    ensures CumMax(p)[i] <= CumMax(p)[j]
    decreases j - i
  {
    if i < j {
      CumMaxStep(p, j);
      CumMaxMonotone(p, i, j - 1);
    }
  }

  lemma {:induction false} CumMaxIsAPrice(p: seq<real>, i: nat)
    requires i < |p|
    ensures CumMax(p)[i] in p[..i + 1]
  {
    CumMaxStep(p, i);
    assert p[i] == p[..i + 1][i];
    if i > 0 && CumMax(p)[i] != p[i] {
      CumMaxIsAPrice(p, i - 1);
      assert p[..i + 1][..i] == p[..i];
    }
  }

  /** The running maximum bounds every price so far, never falls, and is
      always one of the prices so far. */
  lemma CumMaxSpec(p: seq<real>)
    ensures forall i, j :: 0 <= j <= i < |p| ==> p[j] <= CumMax(p)[i]
    ensures forall i, j :: 0 <= i <= j < |p| ==> CumMax(p)[i] <= CumMax(p)[j]
    ensures forall i :: 0 <= i < |p| ==> CumMax(p)[i] in p[..i + 1]
  {
    forall i, j | 0 <= i <= j < |p|
      ensures CumMax(p)[i] <= CumMax(p)[j]
    {
      CumMaxMonotone(p, i, j);
    }
    forall i, j | 0 <= j <= i < |p|
      ensures p[j] <= CumMax(p)[i]
    {
      CumMaxStep(p, j);
      CumMaxMonotone(p, j, i);
    }
    forall i | 0 <= i < |p|
      ensures CumMax(p)[i] in p[..i + 1]
    {
      CumMaxIsAPrice(p, i);
    }
  }

  /** Each drawdown is measured against a peak that does not come after it. */
  lemma PeakPrecedesTrough(p: seq<real>, i: nat)
    requires i < |p|
    ensures exists j :: 0 <= j <= i && CumMax(p)[i] == p[j] && forall k :: 0 <= k <= i ==> p[k] <= p[j]
  {
    var m := CumMax(p);
    CumMaxSpec(p);
    assert m[i] in p[..i + 1];
    var j :| 0 <= j <= i && m[i] == p[j];
    assert forall k :: 0 <= k <= i ==> p[k] <= m[i];
  }

  /** `1 - x / m` in float arithmetic, for a price x against its running
      maximum m: with m zero, a zero price gives NaN and a negative price
      `1 - (-inf)`, +inf. */
  function Drop(x: real, m: real): Float
  {
    if m != 0.0 then Num(1.0 - x / m)
    else if x == 0.0 then NaN
    else if x < 0.0 then PosInf
    else NegInf
  }

  /** `1 - p / cum_max` period by period. */
  function Drawdowns(p: seq<real>): (d: seq<Float>)
    ensures |d| == |p|
  {
    var m := CumMax(p);
    seq(|p|, i requires 0 <= i < |p| => Drop(p[i], m[i]))
  }

  /** `Series.max()` of a non-empty series. */
  function MaxOf(s: seq<real>): (r: real)
    requires s != []
    ensures forall i :: 0 <= i < |s| ==> s[i] <= r
    ensures exists i :: 0 <= i < |s| && r == s[i]
  {
    if |s| == 1 then s[0]
    else
      var m := MaxOf(s[..|s| - 1]);
      if s[|s| - 1] > m then s[|s| - 1] else m
  }

  /** A series of numbers only: skipping NaN drops nothing. */
  lemma {:induction false} FiniteOfNumbers(s: seq<Float>)
    requires forall i :: 0 <= i < |s| ==> s[i].Num?
    ensures |Finite(s)| == |s| && forall i :: 0 <= i < |s| ==> Finite(s)[i] == s[i].v
  {
    if s != [] {
      var n := |s| - 1;
      assert s == s[..n] + [s[n]];
      FiniteAppend(s[..n], s[n]);
      FiniteOfNumbers(s[..n]);
    }
  }

  /** With a positive first price the running maximum never reaches zero, so
      every drawdown is a number. */
  lemma PositiveStartDrawdowns(p: seq<real>)
    requires p != [] && p[0] > 0.0
    ensures forall i :: 0 <= i < |p| ==> CumMax(p)[i] >= p[0] && Drawdowns(p)[i] == Num(1.0 - p[i] / CumMax(p)[i])
    ensures |Finite(Drawdowns(p))| == |p|
    ensures forall i :: 0 <= i < |p| ==> Finite(Drawdowns(p))[i] == 1.0 - p[i] / CumMax(p)[i]
  {
    var d := Drawdowns(p);
    forall i | 0 <= i < |p|
      ensures CumMax(p)[i] >= p[0] && d[i] == Num(1.0 - p[i] / CumMax(p)[i])
    {
      PositiveStartDrawdownAt(p, i);
    }
    FiniteOfNumbers(d);
  }

  lemma {:induction false} PositiveStartDrawdownAt(p: seq<real>, i: nat)
    requires i < |p| && p[0] > 0.0
    ensures CumMax(p)[i] >= p[0] && Drawdowns(p)[i] == Num(1.0 - p[i] / CumMax(p)[i])
  {
    CumMaxStep(p, 0);
    CumMaxMonotone(p, 0, i);
  }

  /** max_dd_series: the largest drawdown, NaN skipped. An empty or all-NaN
      series has no maximum (NaN), and +inf wins over every number. */
  function MaxDrawdownSeries(p: seq<real>): (r: Result<real>)
    ensures p == [] ==> r == Err(NotFinite)
    ensures PosInf in Drawdowns(p) ==> r == Err(NotFinite)
    ensures r.Ok? ==> r.value in Finite(Drawdowns(p)) && forall x :: x in Finite(Drawdowns(p)) ==> x <= r.value
  {
    var d := Drawdowns(p);
    if PosInf in d || Finite(d) == [] then Err(NotFinite)
    else
      var f := Finite(d);
      assert forall x :: x in f ==> exists i :: 0 <= i < |f| && f[i] == x;
      Ok(MaxOf(f))
  }

  lemma RatioAtMostOne(a: real, b: real)
    requires 0.0 < a <= b
    ensures 0.0 < a / b <= 1.0
  {
  }

  lemma RatioInUnitInterval(a: real, b: real)
    requires 0.0 <= a <= b && b > 0.0
    ensures 0.0 <= a / b <= 1.0
  {
  }

  /** For non-negative prices starting above zero, every drawdown lies in
      [0, 1], and below 1 where the price is positive. */
  lemma DrawdownBounds(p: seq<real>, i: nat)
    requires p != [] && p[0] > 0.0 && NonNegative(p) && i < |p|
    ensures Drawdowns(p)[i].Num?
    ensures 0.0 <= Drawdowns(p)[i].v <= 1.0
    ensures p[i] > 0.0 ==> Drawdowns(p)[i].v < 1.0
  {
    var m := CumMax(p);
    CumMaxSpec(p);
    PositiveStartDrawdowns(p);
    assert p[i] <= m[i];
    RatioInUnitInterval(p[i], m[i]);
    if p[i] > 0.0 {
      RatioAtMostOne(p[i], m[i]);
    }
  }

  /** For non-negative prices starting above zero the maximum drawdown lies in
      [0, 1], and in [0, 1) when every price is positive. */
  lemma MaxDrawdownInUnitInterval(p: seq<real>)
    requires p != [] && p[0] > 0.0 && NonNegative(p)
    ensures MaxDrawdownSeries(p).Ok?
    ensures 0.0 <= MaxDrawdownSeries(p).value <= 1.0
    ensures Positive(p) ==> MaxDrawdownSeries(p).value < 1.0
  {
    var f := Finite(Drawdowns(p));
    PositiveStartDrawdowns(p);
    DrawdownBounds(p, 0);
    assert f[0] in f;
    var k :| 0 <= k < |f| && MaxDrawdownSeries(p).value == f[k];
    DrawdownBounds(p, k);
  }

  /** With a positive first price the maximum drawdown always has a value. */
  lemma MaxDrawdownOfPositiveStart(p: seq<real>)
    requires p != [] && p[0] > 0.0
    ensures MaxDrawdownSeries(p).Ok?
  {
    PositiveStartDrawdowns(p);
    var d := Drawdowns(p);
    assert PosInf !in d;
  }

  /** A fall to zero is a drawdown of one: pandas gives `max_dd_series([2, 0]) == 1`. */
  lemma MaxDrawdownOfCrash()
    ensures MaxDrawdownSeries([2.0, 0.0]) == Ok(1.0)
  {
    var p := [2.0, 0.0];
    assert p[..1] == [2.0];
    assert CumMax(p[..1]) == [2.0];
    assert CumMax(p) == [2.0, 2.0];
    var d := Drawdowns(p);
    assert d[0] == Num(0.0) && d[1] == Num(1.0);
    assert d[..1][..0] == [];
    assert Finite(d[..1]) == [0.0];
    var f := Finite(d);
    assert f == [0.0, 1.0];
    assert f[..1] == [0.0];
    assert MaxOf(f) == 1.0;
  }

  predicate NonDecreasing(p: seq<real>)
  {
    forall i, j :: 0 <= i <= j < |p| ==> p[i] <= p[j]
  }

  /** A series that never falls has no drawdown. */
  lemma MaxDrawdownOfNonDecreasing(p: seq<real>)
    requires p != [] && p[0] > 0.0 && NonDecreasing(p)
    ensures MaxDrawdownSeries(p) == Ok(0.0)
  {
    var f := Finite(Drawdowns(p));
    PositiveStartDrawdowns(p);
    forall i | 0 <= i < |p| ensures f[i] == 0.0 {
      NoDrawdownAt(p, i);
    }
    var k :| 0 <= k < |f| && MaxDrawdownSeries(p).value == f[k];
  }

  lemma NoDrawdownAt(p: seq<real>, i: nat)
    requires p != [] && p[0] > 0.0 && NonDecreasing(p) && i < |p|
    ensures Drawdowns(p)[i] == Num(0.0)
  {
    var m := CumMax(p);
    CumMaxSpec(p);
    assert m[i] in p[..i + 1];
    var j :| 0 <= j <= i && p[j] == m[i];
    assert p[j] <= p[i] && p[i] <= m[i];
    assert m[i] == p[i];
    assert p[0] <= p[i];
    DivSelf(p[i]);
  }

  lemma DivSelf(x: real)
    requires x != 0.0
    ensures x / x == 1.0
  {
  }

  // ---------------------------------------------------------------------
  // Growth rate and the ratios (series versions)

  /** cagr_series: `(last / first) ** (1 / n) - 1` with `n = len / 252`.
      An empty series raises IndexError; a zero first price gives inf or NaN. */
  function CagrSeries(p: seq<real>, ops: FloatOps): (r: Result<real>)
    ensures r.Ok? <==> p != [] && p[0] != 0.0
    ensures p == [] ==> r == Err(IndexError)
  {
    if p == [] then Err(IndexError)
    else if p[0] == 0.0 then Err(NotFinite)
    else Ok(ops.pow(p[|p| - 1] / p[0], TradingDays / |p| as real) - 1.0)
  }

  /** A series that ends where it started has grown by nothing. */
  lemma CagrOfFlatSeries(p: seq<real>, ops: FloatOps)
    requires PowOfOne(ops) && p != [] && p[0] != 0.0 && p[|p| - 1] == p[0]
    ensures CagrSeries(p, ops) == Ok(0.0)
  {
    assert p[|p| - 1] / p[0] == 1.0;
  }

  /** sharpe_series: `(cagr - rf) / volatility`. */
  function SharpeSeries(p: seq<real>, ops: FloatOps, rf: real): (r: Result<real>)
    ensures r.Ok? <==> CagrSeries(p, ops).Ok? && VolatilitySeries(p, ops).Ok? && VolatilitySeries(p, ops).value != 0.0
    ensures r.Ok? ==> r == Quot(CagrSeries(p, ops).value - rf, VolatilitySeries(p, ops).value)
  {
    Ratio(CagrSeries(p, ops), VolatilitySeries(p, ops), rf)
  }

  /** `(cagr - rf) / vol`, where the first failure wins. */
  function Ratio(g: Result<real>, v: Result<real>, rf: real): Result<real>
  {
    if g.Err? then Err(g.error)
    else if v.Err? then Err(v.error)
    else Quot(g.value - rf, v.value)
  }

  /** sortino_series: unlike sortino, it returns the downside deviation itself;
      `rf` is accepted and not used. */
  function SortinoSeries(p: seq<real>, ops: FloatOps, rf: real): (r: Result<real>)
    ensures r.Err? ==> r.error == NotFinite
  {
    DownsideDeviation(p, ops)
  }

  /** The series version is the deviation over the strictly negative returns;
      it has no value exactly when a zero price is followed by a negative one
      (a -inf return). */
  lemma SortinoSeriesIsNegativeDeviation(p: seq<real>, ops: FloatOps, rf: real)
    ensures SortinoSeries(p, ops, rf).Ok? <==> forall i :: 0 <= i < |p| - 1 && p[i] == 0.0 ==> p[i + 1] >= 0.0
    ensures SortinoSeries(p, ops, rf).Ok? ==> SortinoSeries(p, ops, rf).value == ops.std(Negatives(Finite(Returns(p))))
  {
    var rs := Returns(p);
    DownsideIsNegatives(rs);
    DownsideInfinities(rs);
    assert NegInf in rs <==> exists i :: 0 <= i < |rs| && rs[i] == NegInf;
  }

  /** calmar_series: `cagr / max_dd`. */
  function CalmarSeries(p: seq<real>, ops: FloatOps): (r: Result<real>)
    ensures r.Ok? <==> CagrSeries(p, ops).Ok? && MaxDrawdownSeries(p).Ok? && MaxDrawdownSeries(p).value != 0.0
    ensures r.Ok? ==> r == Quot(CagrSeries(p, ops).value, MaxDrawdownSeries(p).value)
  {
    match CagrSeries(p, ops)
    case Err(e) => Err(e)
    case Ok(g) =>
      match MaxDrawdownSeries(p)
      case Err(e) => Err(e)
      case Ok(d) => Quot(g, d)
  }

  /** A series that never falls has a zero drawdown, so its Calmar ratio has no finite value. */
  lemma CalmarOfNonDecreasing(p: seq<real>, ops: FloatOps)
    requires p != [] && p[0] > 0.0 && NonDecreasing(p)
    ensures CalmarSeries(p, ops) == Err(NotFinite)
  {
    MaxDrawdownOfNonDecreasing(p);
  }

  // ---------------------------------------------------------------------
  // Frame versions

  /** The rate component of `cagr(DF, spec)`; every caller takes `[0]`. */
  function Cagr(df: Frame, spec: string, ops: FloatOps): (r: Result<real>)
    ensures spec !in df ==> r == Err(KeyError(spec))
    ensures spec in df ==> r == CagrSeries(df[spec], ops)
  {
    if spec !in df then Err(KeyError(spec)) else CagrSeries(df[spec], ops)
  }

  /** `volatility(DF, spec)`: only the column asked for is read. */
  function Volatility(df: Frame, spec: string, ops: FloatOps): (r: Result<real>)
    ensures spec !in df ==> r == Err(KeyError(spec))
    ensures spec in df ==> r == VolatilitySeries(df[spec], ops)
  {
    if spec !in df then Err(KeyError(spec)) else VolatilitySeries(df[spec], ops)
  }

  /** `sharpe(DF, spec, rf)`: `spec` is passed to cagr, but volatility is
      called without it and so always reads "Adj Close". An empty `spec`
      column raises IndexError inside cagr first; a non-finite growth rate
      raises nothing, so a missing "Adj Close" is reported whatever the rate. */
  function Sharpe(df: Frame, spec: string, ops: FloatOps, rf: real): (r: Result<real>)
    ensures spec !in df ==> r == Err(KeyError(spec))
    ensures spec in df && df[spec] == [] ==> r == Err(IndexError)
    ensures spec in df && df[spec] != [] && AdjClose !in df ==> r == Err(KeyError(AdjClose))
    ensures r.Ok? ==>
      (spec in df && AdjClose in df && CagrSeries(df[spec], ops).Ok? && VolatilitySeries(df[AdjClose], ops).Ok? &&
       r == Quot(CagrSeries(df[spec], ops).value - rf, VolatilitySeries(df[AdjClose], ops).value))
  {
    if spec !in df then Err(KeyError(spec))
    else if df[spec] == [] then Err(IndexError)
    else if AdjClose !in df then Err(KeyError(AdjClose))
    else Ratio(CagrSeries(df[spec], ops), VolatilitySeries(df[AdjClose], ops), rf)
  }

  /** On the default column the frame version agrees with sharpe_series. */
  lemma SharpeOnAdjClose(df: Frame, ops: FloatOps, rf: real)
    requires AdjClose in df
    ensures Sharpe(df, AdjClose, ops, rf) == SharpeSeries(df[AdjClose], ops, rf)
  {
    if df[AdjClose] == [] {
      assert CagrSeries(df[AdjClose], ops) == Err(IndexError);
    }
  }

  /** The `spec` column enters only through its first price, last price and
      length: replacing it by any series with the same three leaves the ratio
      unchanged, because the volatility is taken of "Adj Close". */
  lemma SharpeSpecOnlyThroughCagr(df: Frame, spec: string, q: seq<real>, ops: FloatOps, rf: real)
    requires spec in df && spec != AdjClose
    requires |q| == |df[spec]| && q != [] && q[0] == df[spec][0] && q[|q| - 1] == df[spec][|q| - 1]
    ensures Sharpe(df[spec := q], spec, ops, rf) == Sharpe(df, spec, ops, rf)
  {
    assert CagrSeries(q, ops) == CagrSeries(df[spec], ops);
    assert df[spec := q][AdjClose] == df[AdjClose] <== AdjClose in df;
  }

  /** `sortino(DF, spec, rf)`: `(cagr - rf)` over the downside deviation of `spec`. */
  function Sortino(df: Frame, spec: string, ops: FloatOps, rf: real): (r: Result<real>)
    ensures spec !in df ==> r == Err(KeyError(spec))
    ensures spec in df ==> (r.Ok? <==> CagrSeries(df[spec], ops).Ok? && DownsideDeviation(df[spec], ops).Ok? &&
                                       DownsideDeviation(df[spec], ops).value != 0.0)
  {
    if spec !in df then Err(KeyError(spec))
    else
      match CagrSeries(df[spec], ops)
      case Err(e) => Err(e)
      case Ok(g) =>
        match DownsideDeviation(df[spec], ops)
        case Err(e) => Err(e)
        case Ok(d) => Quot(g - rf, d)
  }

  /** sortino divides by exactly the value that sortino_series returns. */
  lemma SortinoOverSeries(df: Frame, spec: string, ops: FloatOps, rf: real)
    requires spec in df && Sortino(df, spec, ops, rf).Ok?
    ensures SortinoSeries(df[spec], ops, rf).Ok?
    ensures Sortino(df, spec, ops, rf).value * SortinoSeries(df[spec], ops, rf).value
            == CagrSeries(df[spec], ops).value - rf
  {
    var g := CagrSeries(df[spec], ops);
    var d := DownsideDeviation(df[spec], ops);
    assert g.Ok? && d.Ok? && d.value != 0.0;
    assert Sortino(df, spec, ops, rf) == Quot(g.value - rf, d.value);
  }

  /** `max_dd(DF, spec)`: only the column asked for is read. */
  function MaxDrawdown(df: Frame, spec: string): (r: Result<real>)
    ensures spec !in df ==> r == Err(KeyError(spec))
    ensures spec in df ==> r == MaxDrawdownSeries(df[spec])
  {
    if spec !in df then Err(KeyError(spec)) else MaxDrawdownSeries(df[spec])
  }

  /** `calmar(DF, spec)`: cagr over max_dd of the same column. */
  function Calmar(df: Frame, spec: string, ops: FloatOps): (r: Result<real>)
    ensures spec in df ==> r == CalmarSeries(df[spec], ops)
    ensures spec !in df ==> r == Err(KeyError(spec))
  {
    match Cagr(df, spec, ops)
    case Err(e) => Err(e)
    case Ok(g) =>
      match MaxDrawdown(df, spec)
      case Err(e) => Err(e)
      case Ok(d) => Quot(g, d)
  }
}
