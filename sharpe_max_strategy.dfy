/** The Sharpe-maximising strategy: rank each sector's tickers by Sharpe
    ratio, share a fixed number of picks among the sectors in proportion to
    their mean ratio, cap telecommunications, cut each sector's ranked list
    to its quota, split the money in proportion to the picks, and turn each
    sector's optimal weights into whole share counts.

    Market data, the ratio of each ticker and the optimiser's weights are
    inputs: `score` gives the Sharpe ratio of a ticker's daily prices,
    `draws(k)` the k-th index of the random generator, and `market` the
    last-month prices and optimal weights of a sector's tickers. */
module SharpeMaxStrategy {
  import opened Wrappers
  import opened Rounding
  import opened Sums
  import opened Holding
  import Kpi
  import DataLoader

  const Telecom: string := "Telecommunication Services"
  /** The most picks telecommunications may keep. */
  const TelecomCap: int := 4
  /** `np.random.randint(0, 11, ...)` draws indices below this bound. */
  const DrawBound: int := 11
  /** `_impose_quota` visits the first eleven sectors. */
  const QuotaSectors: nat := 11

  // ---------------------------------------------------------------------
  // Stage 1: rank each sector's tickers (`_select_possible_stocks`)

  /** A row of the concatenated constituent tables: the ticker and its
      "GICS Sector\n" cell. */
  datatype Listing = Listing(ticker: string, sector: string)

  /** A ticker kept for its positive ratio, with that ratio (`target_list`
      and `pos` side by side). */
  datatype Scored = Scored(ticker: string, score: real)

  /** `stock_df["index"][stock_df["GICS Sector\n"] == ind]`: the tickers of
      one sector, in table order (Canadian table first). */
  function Members(stocks: seq<Listing>, sector: string): (ts: seq<string>)
    ensures |ts| <= |stocks|
    ensures forall t :: t in ts <==> Listing(t, sector) in stocks
  {
    if stocks == [] then []
    else
      var rest := Members(stocks[..|stocks| - 1], sector);
      var last := stocks[|stocks| - 1];
      assert stocks == stocks[..|stocks| - 1] + [last];
      if last.sector == sector then rest + [last.ticker] else rest
  }

  /** What the loop over a sector's tickers appends: the tickers whose ratio
      is positive, each with its ratio, in the order visited. */
  function Retained(tickers: seq<string>, score: string -> real): (kept: seq<Scored>)
    ensures |kept| <= |tickers|
    ensures forall k :: 0 <= k < |kept| ==> kept[k].score == score(kept[k].ticker) > 0.0
    ensures forall t :: t in tickers && score(t) > 0.0 <==> Scored(t, score(t)) in kept
  {
    if tickers == [] then []
    else
      var rest := Retained(tickers[..|tickers| - 1], score);
      var t := tickers[|tickers| - 1];
      assert tickers == tickers[..|tickers| - 1] + [t];
      if score(t) > 0.0 then rest + [Scored(t, score(t))] else rest
  }

  predicate Ascending(s: seq<Scored>)
  {
    forall i, j :: 0 <= i < j < |s| ==> s[i].score <= s[j].score
  }

  predicate Descending(s: seq<Scored>)
  {
    forall i, j :: 0 <= i < j < |s| ==> s[i].score >= s[j].score
  }

  /** One step of a stable insertion sort: `x` goes after every entry whose
      ratio does not exceed its own. */
  function InsertAscending(x: Scored, s: seq<Scored>): (r: seq<Scored>)
    ensures |r| == |s| + 1
    ensures multiset(r) == multiset(s) + multiset{x}
  {
    if s == [] then [x]
    else if s[0].score > x.score then [x] + s
    else
      assert s == [s[0]] + s[1..];
      [s[0]] + InsertAscending(x, s[1..])
  }

  lemma {:induction false} InsertKeepsAscending(x: Scored, s: seq<Scored>)
    requires Ascending(s)
    ensures Ascending(InsertAscending(x, s))
  {
    if s != [] && s[0].score <= x.score {
      InsertKeepsAscending(x, s[1..]);
      var t := InsertAscending(x, s[1..]);
      forall y | y in t
        ensures s[0].score <= y.score
      {
        assert y in multiset(t);
        assert y in multiset(s[1..]) || y == x;
      }
    }
  }

  /** `np.argsort(pos)`, applied: the entries in ascending order of ratio,
      equal ratios keeping their order. */
  function SortAscending(s: seq<Scored>): (r: seq<Scored>)
    ensures |r| == |s| && multiset(r) == multiset(s) && Ascending(r)
  {
    if s == [] then []
    else
      assert s == s[..|s| - 1] + [s[|s| - 1]];
      InsertKeepsAscending(s[|s| - 1], SortAscending(s[..|s| - 1]));
      InsertAscending(s[|s| - 1], SortAscending(s[..|s| - 1]))
  }

  /** `[::-1]` */
  function Reverse<T>(s: seq<T>): (r: seq<T>)
    ensures |r| == |s| && multiset(r) == multiset(s)
    ensures forall i :: 0 <= i < |s| ==> r[i] == s[|s| - 1 - i]
  {
    if s == [] then []
    else
      assert s == s[..|s| - 1] + [s[|s| - 1]];
      [s[|s| - 1]] + Reverse(s[..|s| - 1])
  }

  /** `target_list[np.argsort(pos)[::-1]]` together with the ratios: the
      kept entries, highest ratio first. */
  function RankDescending(kept: seq<Scored>): (r: seq<Scored>)
    ensures multiset(r) == multiset(kept) && Descending(r)
  {
    Reverse(SortAscending(kept))
  }

  function Tickers(s: seq<Scored>): (ts: seq<string>)
    ensures |ts| == |s| && forall i :: 0 <= i < |s| ==> ts[i] == s[i].ticker
  {
    seq(|s|, i requires 0 <= i < |s| => s[i].ticker)
  }

  function Scores(s: seq<Scored>): (xs: seq<real>)
    ensures |xs| == |s| && forall i :: 0 <= i < |s| ==> xs[i] == s[i].score
  {
    seq(|s|, i requires 0 <= i < |s| => s[i].score)
  }

  /** `np.mean(pos)`; the mean of no ratios is NaN. */
  function Mean(xs: seq<real>): (r: Result<real>)
    ensures r.Ok? <==> xs != []
    ensures r.Ok? ==> r.value * |xs| as real == Sum(xs)
  {
    if xs == [] then Err(NotFinite) else Ok(Sum(xs) / |xs| as real)
  }

  /** The mean of positive ratios is positive. */
  lemma MeanOfPositives(xs: seq<real>)
    requires xs != [] && forall i :: 0 <= i < |xs| ==> xs[i] > 0.0
    ensures Mean(xs).Ok? && Mean(xs).value > 0.0
  {
    PositiveSum(xs);
  }

  lemma {:induction false} PositiveSum(xs: seq<real>)
    requires xs != [] && forall i :: 0 <= i < |xs| ==> xs[i] > 0.0
    ensures Sum(xs) > 0.0
  {
    if |xs| > 1 {
      PositiveSum(xs[..|xs| - 1]);
    }
  }

  /** `target[ind]`: the sector's tickers with a positive ratio, best first. */
  function RankedSector(stocks: seq<Listing>, sector: string, score: string -> real): seq<string>
  {
    Tickers(RankDescending(Retained(Members(stocks, sector), score)))
  }

  /** `sharpe_dict[ind]`: the mean positive ratio of the sector. */
  function SectorMean(stocks: seq<Listing>, sector: string, score: string -> real): Result<real>
  {
    Mean(Scores(Retained(Members(stocks, sector), score)))
  }

  /** One more ticker is appended exactly when its ratio is positive. */
  lemma RetainedStep(tickers: seq<string>, score: string -> real, k: nat)
    requires k < |tickers|
    ensures Retained(tickers[..k + 1], score) ==
      Retained(tickers[..k], score) + (if score(tickers[k]) > 0.0 then [Scored(tickers[k], score(tickers[k]))] else [])
  {
    assert tickers[..k + 1][..k] == tickers[..k];
  }

  /** The body of the loop over one sector. */
  method SelectSector(stocks: seq<Listing>, sector: string, score: string -> real)
    returns (ranked: seq<string>, mean: Result<real>)
    ensures ranked == RankedSector(stocks, sector, score)
    ensures mean == SectorMean(stocks, sector, score)
  {
    var tickersList := Members(stocks, sector);
    var kept: seq<Scored> := [];
    for k := 0 to |tickersList|
      invariant kept == Retained(tickersList[..k], score)
    {
      var ticker := tickersList[k];
      var sharpe := score(ticker);
      RetainedStep(tickersList, score, k);
      if sharpe > 0.0 {
        kept := kept + [Scored(ticker, sharpe)];
      }
    }
    assert tickersList[..|tickersList|] == tickersList;
    ranked := Tickers(RankDescending(kept));
    mean := Mean(Scores(kept));
  }

  /** Every entry carries its ticker's positive ratio. */
  predicate Faithful(s: seq<Scored>, score: string -> real)
  {
    forall k :: 0 <= k < |s| ==> s[k].score == score(s[k].ticker) > 0.0
  }

  lemma PermutationFaithful(a: seq<Scored>, b: seq<Scored>, score: string -> real)
    requires multiset(a) == multiset(b) && Faithful(b, score)
    ensures Faithful(a, score)
  {
    forall k | 0 <= k < |a|
      ensures a[k].score == score(a[k].ticker) > 0.0
    {
      assert a[k] in multiset(b);
      var j :| 0 <= j < |b| && b[j] == a[k];
    }
  }

  /** The tickers of faithful entries are those whose `Scored` record is present. */
  lemma FaithfulTickers(s: seq<Scored>, score: string -> real, t: string)
    requires Faithful(s, score)
    ensures t in Tickers(s) <==> Scored(t, score(t)) in s
  {
    if t in Tickers(s) {
      var k :| 0 <= k < |s| && Tickers(s)[k] == t;
      assert s[k] == Scored(t, score(t));
    }
    if Scored(t, score(t)) in s {
      var k :| 0 <= k < |s| && s[k] == Scored(t, score(t));
      assert Tickers(s)[k] == t;
    }
  }

  /** The ranked list holds exactly the sector's tickers with a positive
      ratio, as often as they are listed, ordered by non-increasing ratio. */
  lemma RankedSectorSpec(stocks: seq<Listing>, sector: string, score: string -> real)
    ensures var r := RankedSector(stocks, sector, score);
      && (forall t :: t in r <==> Listing(t, sector) in stocks && score(t) > 0.0)
      && |r| == |Retained(Members(stocks, sector), score)|
      && (forall i, j :: 0 <= i < j < |r| ==> score(r[i]) >= score(r[j]))
  {
    var kept := Retained(Members(stocks, sector), score);
    var ranked := RankDescending(kept);
    var r := Tickers(ranked);
    PermutationFaithful(ranked, kept, score);
    forall t
      ensures t in r <==> Listing(t, sector) in stocks && score(t) > 0.0
    {
      FaithfulTickers(ranked, score, t);
      assert Scored(t, score(t)) in ranked <==> Scored(t, score(t)) in multiset(kept);
    }
  }

  /** A sector's mean is defined exactly when one of its listed tickers has a
      positive ratio, and it is then positive; otherwise it is NaN. */
  lemma SectorMeanSpec(stocks: seq<Listing>, sector: string, score: string -> real)
    ensures SectorMean(stocks, sector, score).Ok? <==>
      exists t :: Listing(t, sector) in stocks && score(t) > 0.0
    ensures SectorMean(stocks, sector, score).Ok? ==> SectorMean(stocks, sector, score).value > 0.0
  {
    var kept := Retained(Members(stocks, sector), score);
    if kept != [] {
      var t := kept[0].ticker;
      assert Scored(t, score(t)) in kept;
      MeanOfPositives(Scores(kept));
    } else {
      forall t | Listing(t, sector) in stocks
        ensures score(t) <= 0.0
      {
        assert t in Members(stocks, sector);
      }
    }
  }

  // ---------------------------------------------------------------------
  // Stage 2: share the picks among the sectors (`_decide_industry_allocation`)

  predicate AllDefined(means: seq<Result<real>>)
  {
    forall i :: 0 <= i < |means| ==> means[i].Ok?
  }

  function Values(means: seq<Result<real>>): (xs: seq<real>)
    requires AllDefined(means)
    ensures |xs| == |means| && forall i :: 0 <= i < |means| ==> xs[i] == means[i].value
  {
    seq(|means|, i requires 0 <= i < |means| => means[i].value)
  }

  /** The sectors' exact shares of `stockNum` picks, in proportion to their means. */
  function Shares(stockNum: int, means: seq<real>): (sh: seq<real>)
    requires Sum(means) != 0.0
    ensures |sh| == |means|
  {
    Scale(stockNum as real / Sum(means), means)
  }

  /** `(stock_num * sharpe_mean / np.sum(sharpe_mean.values)).round().astype(int)`:
      a NaN mean, or a zero total, leaves a value the cast to int refuses. */
  function RawAllocation(stockNum: int, means: seq<Result<real>>): (r: Result<seq<int>>)
    ensures r.Ok? <==> AllDefined(means) && (means == [] || Sum(Values(means)) != 0.0)
    ensures r.Ok? ==> |r.value| == |means|
  {
    if !AllDefined(means) then Err(NotFinite)
    else if means == [] then Ok([])
    else if Sum(Values(means)) == 0.0 then Err(NotFinite)
    else Ok(RoundAll(Shares(stockNum, Values(means))))
  }

  lemma DivMulCancel(a: real, b: real)
    requires b != 0.0
    ensures a / b * b == a
  {
  }

  /** The exact shares add up to the number of picks. */
  lemma SharesSum(stockNum: int, means: seq<real>)
    requires Sum(means) != 0.0
    ensures Sum(Shares(stockNum, means)) == stockNum as real
  {
    SumScale(means, stockNum as real / Sum(means));
    DivMulCancel(stockNum as real, Sum(means));
  }

  /** Each sector gets its exact share rounded half to even, and the picks
      handed out differ from `stockNum` by at most half the number of sectors. */
  lemma RawAllocationNearShares(stockNum: int, means: seq<Result<real>>)
    requires RawAllocation(stockNum, means).Ok? && means != []
    ensures var r := RawAllocation(stockNum, means).value;
      var sh := Shares(stockNum, Values(means));
      && (forall i :: 0 <= i < |r| ==> sh[i] - 0.5 <= r[i] as real <= sh[i] + 0.5)
      && stockNum as real - |means| as real / 2.0 <= SumInt(r) as real <= stockNum as real + |means| as real / 2.0
  {
    var sh := Shares(stockNum, Values(means));
    RoundedSumNear(sh);
    SharesSum(stockNum, Values(means));
  }

  lemma MulNonNegative(a: real, b: real)
    requires a >= 0.0 && b >= 0.0
    ensures a * b >= 0.0
  {
  }

  /** Positive means and a non-negative number of picks give no negative count. */
  lemma RawAllocationNonNegative(stockNum: int, means: seq<Result<real>>)
    requires stockNum >= 0 && means != [] && AllDefined(means)
    requires forall i :: 0 <= i < |means| ==> means[i].value > 0.0
    ensures RawAllocation(stockNum, means).Ok?
    ensures forall i :: 0 <= i < |means| ==> RawAllocation(stockNum, means).value[i] >= 0
  {
    var xs := Values(means);
    PositiveSum(xs);
    var c := stockNum as real / Sum(xs);
    forall i | 0 <= i < |means|
      ensures RawAllocation(stockNum, means).value[i] >= 0
    {
      MulNonNegative(c, xs[i]);
    }
  }

  predicate InRange(used: seq<int>, n: int)
  {
    forall k :: 0 <= k < |used| ==> 0 <= used[k] < n
  }

  /** `allocation.iloc[i] += 1` for each drawn index `i` in turn. */
  function Bump(alloc: seq<int>, used: seq<int>): (r: seq<int>)
    requires InRange(used, |alloc|)
    ensures |r| == |alloc|
  {
    if used == [] then alloc
    else
      var b := Bump(alloc, used[..|used| - 1]);
      var i := used[|used| - 1];
      b[i := b[i] + 1]
  }

  /** Each count grows by the number of times its index was drawn. */
  lemma {:induction false} BumpCounts(alloc: seq<int>, used: seq<int>, k: int)
    requires InRange(used, |alloc|) && 0 <= k < |alloc|
    ensures Bump(alloc, used)[k] == alloc[k] + multiset(used)[k]
  {
    if used != [] {
      var n := |used| - 1;
      assert used == used[..n] + [used[n]];
      BumpCounts(alloc, used[..n], k);
    }
  }

  /** Every draw adds exactly one pick. */
  lemma {:induction false} BumpTotal(alloc: seq<int>, used: seq<int>)
    requires InRange(used, |alloc|)
    ensures SumInt(Bump(alloc, used)) == SumInt(alloc) + |used|
  {
    if used != [] {
      var n := |used| - 1;
      BumpTotal(alloc, used[..n]);
      var b := Bump(alloc, used[..n]);
      SumIntUpdate(b, used[n], b[used[n]] + 1);
    }
  }

  /** The first `n` indices the generator yields. */
  function Draws(draws: nat -> int, n: nat): (d: seq<int>)
    ensures |d| == n && forall k :: 0 <= k < n ==> d[k] == draws(k)
  {
    seq(n, k requires 0 <= k < n => draws(k))
  }

  /** The position of the first occurrence of `x`: label lookup in a frame. */
  function IndexOf(s: seq<string>, x: string): (i: nat)
    requires x in s
    ensures i < |s| && s[i] == x && x !in s[..i]
  {
    if s[0] == x then 0
    else
      assert s == [s[0]] + s[1..];
      1 + IndexOf(s[1..], x)
  }

  /** The telecommunications cap: when the sector was given more than four
      picks, one extra pick goes to the sector at each of `count - 4` drawn
      positions (telecommunications included), and the sector is then set to
      four. A sector list without telecommunications fails the label lookup;
      a drawn position past the last sector fails `iloc`. */
  function CapTelecom(sectors: seq<string>, alloc: seq<int>, draws: nat -> int): (r: Result<seq<int>>)
    requires |alloc| == |sectors|
    ensures r.Ok? ==> |r.value| == |alloc|
    ensures r.Ok? <==> (Telecom in sectors &&
      (alloc[IndexOf(sectors, Telecom)] <= TelecomCap ||
       InRange(Draws(draws, alloc[IndexOf(sectors, Telecom)] - TelecomCap), |alloc|)))
  {
    if Telecom !in sectors then Err(KeyError(Telecom))
    else
      var t := IndexOf(sectors, Telecom);
      if alloc[t] <= TelecomCap then Ok(alloc)
      else
        var used := Draws(draws, alloc[t] - TelecomCap);
        if !InRange(used, |alloc|) then Err(IndexError)
        else Ok(Bump(alloc, used)[t := TelecomCap])
  }

  /** What the cap does to every sector and to the total: telecommunications
      ends at four, every other sector gains one pick per draw of its position,
      and the total falls by the draws that landed on telecommunications.
      With at least eleven sectors no draw is out of range. */
  lemma CapTelecomSpec(sectors: seq<string>, alloc: seq<int>, draws: nat -> int)
    requires |alloc| == |sectors| && Telecom in sectors
    requires forall k: nat :: 0 <= draws(k) < DrawBound
    ensures var t := IndexOf(sectors, Telecom);
      var c := alloc[t];
      var used := Draws(draws, if c > TelecomCap then c - TelecomCap else 0);
      var r := CapTelecom(sectors, alloc, draws);
      && (c <= TelecomCap ==> r == Ok(alloc))
      && (c > TelecomCap && |sectors| >= DrawBound ==> r.Ok?)
      && (c > TelecomCap && r.Ok? ==>
            r.value[t] == TelecomCap
            && (forall k :: 0 <= k < |alloc| && k != t ==> r.value[k] == alloc[k] + multiset(used)[k])
            && SumInt(r.value) == SumInt(alloc) - multiset(used)[t])
  {
    var t := IndexOf(sectors, Telecom);
    var c := alloc[t];
    if c > TelecomCap {
      var used := Draws(draws, c - TelecomCap);
      if InRange(used, |alloc|) {
        CappedBump(alloc, used, t);
      }
    }
  }

  /** One step of the cap: the draws are spent, then sector `t` is set to four. */
  lemma CappedBump(alloc: seq<int>, used: seq<int>, t: nat)
    requires InRange(used, |alloc|) && t < |alloc| && |used| == alloc[t] - TelecomCap
    ensures var v := Bump(alloc, used)[t := TelecomCap];
      && v[t] == TelecomCap
      && (forall k :: 0 <= k < |alloc| && k != t ==> v[k] == alloc[k] + multiset(used)[k])
      && SumInt(v) == SumInt(alloc) - multiset(used)[t]
  {
    var b := Bump(alloc, used);
    forall k | 0 <= k < |alloc|
      ensures b[k] == alloc[k] + multiset(used)[k]
    {
      BumpCounts(alloc, used, k);
    }
    BumpTotal(alloc, used);
    SumIntUpdate(b, t, TelecomCap);
  }

  /** The loop of `_decide_industry_allocation` that spends the draws. */
  method CapTelecomLoop(sectors: seq<string>, alloc: seq<int>, draws: nat -> int)
    returns (r: Result<seq<int>>)
    requires |alloc| == |sectors|
    ensures r == CapTelecom(sectors, alloc, draws)
  {
    if Telecom !in sectors {
      return Err(KeyError(Telecom));
    }
    var t := IndexOf(sectors, Telecom);
    if alloc[t] <= TelecomCap {
      return Ok(alloc);
    }
    var available := alloc[t] - TelecomCap;
    ghost var used := Draws(draws, available);
    var a := alloc;
    for k := 0 to available
      invariant InRange(used[..k], |alloc|)
      invariant a == Bump(alloc, used[..k])
    {
      var i := draws(k);
      if i < 0 || i >= |a| {
        assert !InRange(used, |alloc|);
        return Err(IndexError);
      }
      assert used[..k + 1][..k] == used[..k];
      a := a[i := a[i] + 1];
    }
    assert used[..available] == used;
    a := a[t := TelecomCap];
    return Ok(a);
  }

  // ---------------------------------------------------------------------
  // Stage 3: cut the ranked lists to the quotas (`_impose_quota`)

  function Min(a: int, b: int): int { if a < b then a else b }

  /** Python's `s[:q]`; a negative bound counts from the end. */
  function PyPrefix<T>(s: seq<T>, q: int): (r: seq<T>)
    ensures |r| <= |s| && r == s[..|r|]
    ensures 0 <= q ==> |r| == Min(q, |s|)
    ensures q < 0 ==> |r| == if |s| + q > 0 then |s| + q else 0
  {
    if q >= |s| then s
    else if q >= 0 then s[..q]
    else if |s| + q > 0 then s[..|s| + q]
    else []
  }

  /** One sector's step: a quota above the list length leaves the list
      as it is (`allocation.loc[ind] = quota` writes back the value just read),
      any other quota keeps the first `quota` tickers. */
  function ApplyQuota(list: seq<string>, quota: int): (r: seq<string>)
    ensures |r| <= |list| && r == list[..|r|]
    ensures 0 <= quota ==> |r| == Min(quota, |list|)
  {
    if quota > |list| then list else PyPrefix(list, quota)
  }

  /** The quota step keeps the best-ranked tickers: a prefix of the list, of
      length `min(quota, |list|)`, so no ticker dropped ranks above one kept. */
  lemma ApplyQuotaSpec(list: seq<string>, quota: int, score: string -> real)
    requires quota >= 0
    requires forall i, j :: 0 <= i < j < |list| ==> score(list[i]) >= score(list[j])
    ensures var r := ApplyQuota(list, quota);
      && r == list[..|r|] && |r| == Min(quota, |list|)
      && (forall i, j :: 0 <= i < j < |r| ==> score(r[i]) >= score(r[j]))
      && (forall i, j :: 0 <= i < |r| <= j < |list| ==> score(list[i]) >= score(list[j]))
  {
  }

  /** The loop over the first `n` sectors. `lookup` is the frame the quota is
      read from: a sector missing from it, or from `target`, fails the label
      lookup; fewer than `n` sectors fail `industry_list[i]`. */
  function Quotas(sectors: seq<string>, lookup: map<string, int>, target: map<string, seq<string>>, n: nat)
    : (r: Result<map<string, seq<string>>>)
    ensures r.Ok? ==> forall s :: s in target ==> s in r.value
  {
    if n == 0 then Ok(target)
    else
      match Quotas(sectors, lookup, target, n - 1)
      case Err(e) => Err(e)
      case Ok(t) =>
        if n - 1 >= |sectors| then Err(IndexError)
        else
          var ind := sectors[n - 1];
          if ind !in lookup then Err(KeyError(ind))
          else if ind !in t then Err(KeyError(ind))
          else Ok(t[ind := ApplyQuota(t[ind], lookup[ind])])
  }

  /** Once the loop fails, later rounds keep that failure. */
  lemma {:induction false} QuotasFailurePersists(sectors: seq<string>, lookup: map<string, int>,
                                                 target: map<string, seq<string>>, n: nat, m: nat)
    requires n <= m && Quotas(sectors, lookup, target, n).Err?
    ensures Quotas(sectors, lookup, target, m) == Quotas(sectors, lookup, target, n)
    decreases m
  {
    if n < m {
      QuotasFailurePersists(sectors, lookup, target, n, m - 1);
    }
  }

  /** What `self.target` holds after the loop over the first `n` sectors
      has run or stopped: `target = self.target` is the same dictionary, so
      each round writes straight into it and a failing round leaves the cuts
      of the rounds before it in place. */
  function QuotaProgress(sectors: seq<string>, lookup: map<string, int>, target: map<string, seq<string>>, n: nat)
    : (t: map<string, seq<string>>)
    ensures forall s :: s in target ==> s in t
  {
    match Quotas(sectors, lookup, target, n)
    case Ok(t) => t
    case Err(_) => if n == 0 then target else QuotaProgress(sectors, lookup, target, n - 1)
  }

  /** If round `k + 1` is the first to fail, every later stop leaves the
      lists as the first `k` rounds cut them. */
  lemma {:induction false} QuotaProgressAtFailure(sectors: seq<string>, lookup: map<string, int>,
                                                  target: map<string, seq<string>>, k: nat, n: nat)
    requires k < n && Quotas(sectors, lookup, target, k).Ok? && Quotas(sectors, lookup, target, k + 1).Err?
    ensures QuotaProgress(sectors, lookup, target, n) == Quotas(sectors, lookup, target, k).value
    decreases n
  {
    QuotasFailurePersists(sectors, lookup, target, k + 1, n);
    if n > k + 1 {
      QuotaProgressAtFailure(sectors, lookup, target, k, n - 1);
    }
  }

  /** Fewer than eleven distinct sectors, all present in both tables: the
      loop cuts every list to its quota and then fails `industry_list[i]`,
      and `self.target` keeps every cut. */
  lemma ShortSectorListKeepsCuts(sectors: seq<string>, lookup: map<string, int>, target: map<string, seq<string>>)
    requires |sectors| < QuotaSectors && Distinct(sectors)
    requires forall i :: 0 <= i < |sectors| ==> sectors[i] in lookup && sectors[i] in target
    ensures Quotas(sectors, lookup, target, QuotaSectors) == Err(IndexError)
    ensures var t := QuotaProgress(sectors, lookup, target, QuotaSectors);
      && (forall i :: 0 <= i < |sectors| ==> t[sectors[i]] == ApplyQuota(target[sectors[i]], lookup[sectors[i]]))
      && (forall s :: s in target && s !in sectors ==> t[s] == target[s])
  {
    var n := |sectors|;
    QuotasSpec(sectors, lookup, target, n);
    assert sectors[..n] == sectors;
    assert Quotas(sectors, lookup, target, n + 1) == Err(IndexError);
    QuotasFailurePersists(sectors, lookup, target, n + 1, QuotaSectors);
    QuotaProgressAtFailure(sectors, lookup, target, n, QuotaSectors);
  }

  predicate Distinct(s: seq<string>)
  {
    forall i, j :: 0 <= i < j < |s| ==> s[i] != s[j]
  }

  /** With every label present, all `n` rounds succeed. */
  lemma {:induction false} QuotasSucceed(sectors: seq<string>, lookup: map<string, int>,
                                         target: map<string, seq<string>>, n: nat)
    requires n <= |sectors| && forall i :: 0 <= i < n ==> sectors[i] in lookup && sectors[i] in target
    ensures Quotas(sectors, lookup, target, n).Ok?
  {
    if n > 0 {
      QuotasSucceed(sectors, lookup, target, n - 1);
    }
  }

  /** A sector that rounds `m` to `n` do not visit keeps the list it had
      after round `m`. */
  lemma {:induction false} QuotasUntouched(sectors: seq<string>, lookup: map<string, int>,
                                           target: map<string, seq<string>>, m: nat, n: nat, s: string)
    requires m <= n && Quotas(sectors, lookup, target, n).Ok? && s in target
    requires forall j :: m <= j < n ==> sectors[j] != s
    ensures Quotas(sectors, lookup, target, m).Ok?
    ensures Quotas(sectors, lookup, target, n).value[s] == Quotas(sectors, lookup, target, m).value[s]
    decreases n
  {
    if m < n {
      QuotasUntouched(sectors, lookup, target, m, n - 1, s);
    }
  }

  /** A sector visited once, in round `i`, ends with its list cut to its
      own quota. */
  lemma QuotasVisited(sectors: seq<string>, lookup: map<string, int>,
                      target: map<string, seq<string>>, n: nat, i: nat)
    requires i < n <= |sectors| && Quotas(sectors, lookup, target, n).Ok?
    requires sectors[i] in lookup && sectors[i] in target
    requires forall j :: 0 <= j < n && j != i ==> sectors[j] != sectors[i]
    ensures Quotas(sectors, lookup, target, n).value[sectors[i]] ==
      ApplyQuota(target[sectors[i]], lookup[sectors[i]])
  {
    var ind := sectors[i];
    QuotasUntouched(sectors, lookup, target, i + 1, n, ind);
    QuotasUntouched(sectors, lookup, target, 0, i, ind);
  }

  /** With distinct sector names, each visited sector's list is cut to its
      own quota and every other list is left alone. */
  lemma QuotasSpec(sectors: seq<string>, lookup: map<string, int>,
                   target: map<string, seq<string>>, n: nat)
    requires n <= |sectors| && Distinct(sectors)
    requires forall i :: 0 <= i < n ==> sectors[i] in lookup && sectors[i] in target
    ensures var r := Quotas(sectors, lookup, target, n);
      && r.Ok?
      && (forall i :: 0 <= i < n ==> r.value[sectors[i]] == ApplyQuota(target[sectors[i]], lookup[sectors[i]]))
      && (forall s :: s in target && s !in sectors[..n] ==> r.value[s] == target[s])
  {
    QuotasSucceed(sectors, lookup, target, n);
    forall i | 0 <= i < n
      ensures Quotas(sectors, lookup, target, n).value[sectors[i]] ==
        ApplyQuota(target[sectors[i]], lookup[sectors[i]])
    {
      QuotasVisited(sectors, lookup, target, n, i);
    }
    forall s | s in target && s !in sectors[..n]
      ensures Quotas(sectors, lookup, target, n).value[s] == target[s]
    {
      forall j | 0 <= j < n
        ensures sectors[j] != s
      {
        assert sectors[j] == sectors[..n][j];
      }
      QuotasUntouched(sectors, lookup, target, 0, n, s);
    }
  }


  /** A successful loop visited `n` sectors, each present in the frame read. */
  lemma {:induction false} QuotasNeedLabels(sectors: seq<string>, lookup: map<string, int>,
                                            target: map<string, seq<string>>, n: nat)
    requires Quotas(sectors, lookup, target, n).Ok?
    ensures n <= |sectors| && forall i :: 0 <= i < n ==> sectors[i] in lookup
  {
    if n > 0 {
      QuotasNeedLabels(sectors, lookup, target, n - 1);
    }
  }

  /** As written, `_impose_quota` reads the quota from
      `self.industry_allocation`, which nothing assigns before it runs: it is
      still the empty frame of the constructor, so the first lookup fails. */
  lemma QuotasOfEmptyFrameFail(sectors: seq<string>, target: map<string, seq<string>>)
    ensures Quotas(sectors, map[], target, QuotaSectors).Err?
  {
    assert Quotas(sectors, map[], target, 1).Err?;
    QuotasFailurePersists(sectors, map[], target, 1, QuotaSectors);
  }

  /** The quota each sector gets: its capped allocation, looked up by label. */
  function AllocationFrame(sectors: seq<string>, alloc: seq<int>): (m: map<string, int>)
    requires |alloc| == |sectors|
    ensures m.Keys == set s | s in sectors
    ensures forall i :: 0 <= i < |sectors| && Distinct(sectors) ==> m[sectors[i]] == alloc[i]
  {
    map s | s in sectors :: alloc[IndexOf(sectors, s)]
  }

  /** The loop of `_impose_quota` over the first eleven sectors. */
  method ImposeQuotaLoop(sectors: seq<string>, lookup: map<string, int>, target: map<string, seq<string>>)
    returns (r: Result<map<string, seq<string>>>, t: map<string, seq<string>>)
    ensures r == Quotas(sectors, lookup, target, QuotaSectors)
    ensures t == QuotaProgress(sectors, lookup, target, QuotaSectors)
  {
    t := target;
    for i := 0 to QuotaSectors
      invariant Quotas(sectors, lookup, target, i) == Ok(t)
    {
      if i >= |sectors| {
        QuotasFailurePersists(sectors, lookup, target, i + 1, QuotaSectors);
        QuotaProgressAtFailure(sectors, lookup, target, i, QuotaSectors);
        return Err(IndexError), t;
      }
      var ind := sectors[i];
      if ind !in lookup || ind !in t {
        QuotasFailurePersists(sectors, lookup, target, i + 1, QuotaSectors);
        QuotaProgressAtFailure(sectors, lookup, target, i, QuotaSectors);
        return Err(KeyError(ind)), t;
      }
      var quota := lookup[ind];
      var tickerList := t[ind];
      ghost var expected := t[ind := ApplyQuota(tickerList, quota)];
      if quota <= |tickerList| {
        t := t[ind := PyPrefix(tickerList, quota)];
      } else {
        t := t[ind := tickerList];
      }
      assert t == expected;
    }
    return Ok(t), t;
  }

  /** `self.money * industry_df["allocation"] / np.sum(industry_df["allocation"])`.
      A zero total makes each budget a NaN (0/0) or an infinity; the model
      stops the run here with `NotFinite` rather than carry them into stage 4. */
  function Budgets(money: real, alloc: seq<int>): (r: Result<seq<real>>)
    ensures r.Ok? <==> alloc == [] || SumInt(alloc) != 0
    ensures r.Ok? ==> |r.value| == |alloc|
    ensures r.Ok? && alloc != [] ==> Proportional(r.value, money, AsReals(alloc), SumInt(alloc) as real)
  {
    if alloc == [] then Ok([])
    else if SumInt(alloc) == 0 then Err(NotFinite)
    else Ok(Split(money, AsReals(alloc), SumInt(alloc) as real))
  }

  lemma ScaleByQuotient(money: real, total: real, xs: seq<real>, i: nat)
    requires total != 0.0 && i < |xs|
    ensures Scale(money / total, xs)[i] * total == money * xs[i]
  {
    var c := money / total;
    DivMulCancel(money, total);
    MulRearrange(c, xs[i], total);
  }

  /** Each `b[i]` is the same fraction `money / total` of `counts[i]`. */
  predicate Proportional(b: seq<real>, money: real, counts: seq<real>, total: real)
  {
    |b| == |counts| && forall i :: 0 <= i < |counts| ==> b[i] * total == money * counts[i]
  }

  /** `money * counts / total`, elementwise. */
  function Split(money: real, counts: seq<real>, total: real): (b: seq<real>)
    requires total != 0.0
    ensures Proportional(b, money, counts, total)
  {
    var b := Scale(money / total, counts);
    forall i | 0 <= i < |counts|
      ensures b[i] * total == money * counts[i]
    {
      ScaleByQuotient(money, total, counts, i);
    }
    b
  }

  lemma MulRearrange(c: real, a: real, t: real)
    ensures c * a * t == c * t * a
  {
  }

  /** The budgets split the money exactly. */
  lemma BudgetsSumToMoney(money: real, alloc: seq<int>)
    requires alloc != [] && SumInt(alloc) != 0
    ensures Sum(Budgets(money, alloc).value) == money
  {
    var total := SumInt(alloc) as real;
    SumScale(AsReals(alloc), money / total);
    SumAsReals(alloc);
    DivMulCancel(money, total);
  }

  /** No budget is negative when neither the money nor any count is. */
  lemma BudgetsNonNegative(money: real, alloc: seq<int>)
    requires alloc != [] && SumInt(alloc) != 0 && money >= 0.0
    requires forall i :: 0 <= i < |alloc| ==> alloc[i] >= 0
    ensures forall i :: 0 <= i < |alloc| ==> Budgets(money, alloc).value[i] >= 0.0
  {
    SumIntNonNegative(alloc);
    var c := money / SumInt(alloc) as real;
    forall i | 0 <= i < |alloc|
      ensures Budgets(money, alloc).value[i] >= 0.0
    {
      MulNonNegative(c, alloc[i] as real);
    }
  }

  // ---------------------------------------------------------------------
  // Stage 4: from optimal weights to share counts (`_optimize_weight`)

  /** The weights the optimiser is constrained to: each in [0, 1], summing to one. */
  predicate InSimplex(w: seq<real>)
  {
    (forall i :: 0 <= i < |w| ==> 0.0 <= w[i] <= 1.0) && Sum(w) == 1.0
  }

  /** The starting point `np.ones(k) / k`. */
  function EqualWeights(k: nat): (w: seq<real>)
    ensures |w| == k && forall i :: 0 <= i < k ==> w[i] == 1.0 / k as real
  {
    seq(k, i requires 0 <= i < k => 1.0 / k as real)
  }

  lemma MulInverse(x: real)
    requires x != 0.0
    ensures x * (1.0 / x) == 1.0
  {
  }

  lemma EqualWeightsInSimplex(k: nat)
    requires k > 0
    ensures InSimplex(EqualWeights(k))
  {
    SumConstant(EqualWeights(k), 1.0 / k as real);
    MulInverse(k as real);
    Kpi.RatioAtMostOne(1.0, k as real);
  }

  /** Every row of a price frame has one price per instrument. */
  predicate Rectangular(rows: seq<seq<real>>, n: nat)
  {
    forall t :: 0 <= t < |rows| ==> |rows[t]| == n
  }

  /** `stock_prices.dot(weight)`: the value of the weighted basket on each day. */
  function PortfolioSeries(prices: seq<seq<real>>, w: seq<real>): (s: seq<real>)
    requires Rectangular(prices, |w|)
    ensures |s| == |prices| && forall t :: 0 <= t < |prices| ==> s[t] == Dot(prices[t], w)
  {
    seq(|prices|, t requires 0 <= t < |prices| => Dot(prices[t], w))
  }

  /** `_sharpe_portfolio`, the objective the optimiser maximises. The source
      states the column count equals the weight count as its precondition. */
  function SharpePortfolio(prices: seq<seq<real>>, w: seq<real>, ops: Kpi.FloatOps): (r: Result<real>)
    requires Rectangular(prices, |w|)
    ensures r.Ok? <==> (prices != [] && PortfolioSeries(prices, w)[0] != 0.0 &&
                        Kpi.VolatilitySeries(PortfolioSeries(prices, w), ops).Ok? &&
                        Kpi.VolatilitySeries(PortfolioSeries(prices, w), ops).value != 0.0)
  {
    Kpi.SharpeSeries(PortfolioSeries(prices, w), ops, Kpi.RiskFree)
  }

  /** When all instruments share one price series, any weights summing to
      one value the basket at exactly that series. */
  lemma IdenticalInstruments(prices: seq<seq<real>>, w: seq<real>, c: seq<real>)
    requires Rectangular(prices, |w|) && |c| == |prices| && Sum(w) == 1.0
    requires forall t, j :: 0 <= t < |prices| && 0 <= j < |w| ==> prices[t][j] == c[t]
    ensures PortfolioSeries(prices, w) == c
  {
    forall t | 0 <= t < |prices|
      ensures PortfolioSeries(prices, w)[t] == c[t]
    {
      DotConstant(prices[t], w, c[t]);
    }
  }

  /** ... so the objective is flat over the simplex. */
  lemma IdenticalInstrumentsSharpe(prices: seq<seq<real>>, w1: seq<real>, w2: seq<real>, c: seq<real>, ops: Kpi.FloatOps)
    requires |w1| == |w2| && Rectangular(prices, |w1|) && |c| == |prices| && Sum(w1) == 1.0 && Sum(w2) == 1.0
    requires forall t, j :: 0 <= t < |prices| && 0 <= j < |w1| ==> prices[t][j] == c[t]
    ensures PortfolioSeries(prices, w1) == PortfolioSeries(prices, w2) == c
    ensures SharpePortfolio(prices, w1, ops) == SharpePortfolio(prices, w2, ops)
  {
    IdenticalInstruments(prices, w1, c);
    IdenticalInstruments(prices, w2, c);
  }

  /** The share counts before rounding, `outlay / basket * w`. */
  function Unrounded(last: seq<real>, w: seq<real>, outlay: real): (u: seq<real>)
    requires |last| == |w| && Dot(last, w) != 0.0
    ensures |u| == |w|
  {
    Scale(outlay / Dot(last, w), w)
  }

  /** `(outlay / basket * w).round()` with `basket = stock_prices.iloc[-1].dot(w)`;
      a zero basket price leaves infinities that `dtype=int` refuses. */
  function Quantities(last: seq<real>, w: seq<real>, outlay: real): (r: Result<seq<int>>)
    requires |last| == |w|
    ensures r.Ok? <==> w == [] || Dot(last, w) != 0.0
    ensures r.Ok? ==> |r.value| == |w|
  {
    if w == [] then Ok([])
    else if Dot(last, w) == 0.0 then Err(NotFinite)
    else Ok(RoundAll(Unrounded(last, w, outlay)))
  }

  /** Before rounding, the counts cost exactly the outlay at the last prices. */
  lemma UnroundedCostsOutlay(last: seq<real>, w: seq<real>, outlay: real)
    requires |last| == |w| && Dot(last, w) != 0.0
    ensures Dot(last, Unrounded(last, w, outlay)) == outlay
  {
    var basket := Dot(last, w);
    QuotientScaledDot(last, w, outlay, basket);
  }

  /** Scaling the weights by `outlay / basket` scales the basket to the outlay. */
  lemma QuotientScaledDot(last: seq<real>, w: seq<real>, outlay: real, basket: real)
    requires |last| == |w| && basket == Dot(last, w) && basket != 0.0
    ensures Dot(last, Scale(outlay / basket, w)) == outlay
  {
    var c := outlay / basket;
    DotScale(last, w, c);
    DivMulCancel(outlay, basket);
  }

  /** Rounding moves the cost away from the outlay by at most half the sum
      of the last prices. */
  lemma QuantitiesCostNearOutlay(last: seq<real>, w: seq<real>, outlay: real)
    requires |last| == |w| && w != [] && Dot(last, w) != 0.0
    requires forall i :: 0 <= i < |last| ==> last[i] >= 0.0
    ensures var q := AsReals(Quantities(last, w, outlay).value);
      outlay - Sum(last) / 2.0 <= Dot(last, q) <= outlay + Sum(last) / 2.0
  {
    UnroundedCostsOutlay(last, w, outlay);
    RoundedDotNear(last, Unrounded(last, w, outlay));
  }

  /** One instrument: the only weight in the simplex is 1, and the count is
      the outlay over the price, rounded. */
  lemma SingleInstrument(price: real, w: seq<real>, outlay: real)
    requires price != 0.0 && |w| == 1 && InSimplex(w)
    ensures w == [1.0]
    ensures Quantities([price], w, outlay) == Ok([RoundHalfEven(outlay / price)])
  {
    assert Sum(w) == w[0];
    assert w == [1.0];
    assert Dot([price], w) == price;
    var u := Unrounded([price], w, outlay);
    assert u[0] == outlay / price * 1.0;
    assert RoundAll(u) == [RoundHalfEven(outlay / price)];
  }

  /** With the starting weights unchanged, each count is `outlay / basket / k`, rounded. */
  lemma EqualWeightBaseline(last: seq<real>, outlay: real)
    requires last != [] && Dot(last, EqualWeights(|last|)) != 0.0
    ensures var k := |last|;
      var basket := Dot(last, EqualWeights(k));
      Quantities(last, EqualWeights(k), outlay) ==
        Ok(seq(k, i => RoundHalfEven(outlay / basket / k as real)))
  {
    var k := |last|;
    var w := EqualWeights(k);
    var basket := Dot(last, w);
    var u := Unrounded(last, w, outlay);
    forall i | 0 <= i < k
      ensures u[i] == outlay / basket / k as real
    {
      ScaledEqualWeight(outlay, basket, k, w, i);
    }
    RoundAllConstant(u, outlay / basket / k as real);
  }

  /** Rounding a constant vector gives the rounded constant everywhere. */
  lemma RoundAllConstant(u: seq<real>, v: real)
    requires forall i :: 0 <= i < |u| ==> u[i] == v
    ensures RoundAll(u) == seq(|u|, i => RoundHalfEven(v))
  {
  }

  lemma ScaledEqualWeight(outlay: real, basket: real, k: nat, w: seq<real>, i: nat)
    requires basket != 0.0 && k > 0 && w == EqualWeights(k) && i < k
    ensures Scale(outlay / basket, w)[i] == outlay / basket / k as real
  {
    var c := outlay / basket;
    assert Scale(c, w)[i] == c * (1.0 / k as real);
  }

  /** `_optimize_weight` once the two solver passes have returned `w`: an
      empty price frame already fails inside the objective (no first price). */
  function OptimizeWeight(prices: seq<seq<real>>, w: seq<real>, outlay: real): (r: Result<seq<int>>)
    requires Rectangular(prices, |w|)
    ensures prices == [] ==> r == Err(IndexError)
    ensures r.Ok? ==> |r.value| == |w|
  {
    if prices == [] then Err(IndexError) else Quantities(prices[|prices| - 1], w, outlay)
  }

  // ---------------------------------------------------------------------
  // Stage 4 continued: the holding table (`_decide_stock_quantity`)

  /** One entry of `pd.Series(weight, index=tickers, dtype=int)`. */
  datatype Position = Position(ticker: string, amount: int)

  /** What the data provider and the optimiser answer: the last month of
      adjusted closes of a ticker list, and the weights for a price frame. */
  datatype MarketData = MarketData(prices: seq<string> -> seq<seq<real>>, solve: seq<seq<real>> -> seq<real>)

  function Label(tickers: seq<string>, q: seq<int>): (ps: seq<Position>)
    requires |tickers| == |q|
    ensures |ps| == |q| && forall i :: 0 <= i < |q| ==> ps[i] == Position(tickers[i], q[i])
  {
    seq(|q|, i requires 0 <= i < |q| => Position(tickers[i], q[i]))
  }

  /** One sector: fetch, optimise, round, label with the tickers. An empty
      ticker list leaves `get_tickers_spec` nothing to concatenate, which pandas
      rejects with ValueError before anything is fetched. Shapes that do not
      fit make pandas raise ValueError too. */
  function SectorHolding(tickers: seq<string>, outlay: real, m: MarketData): (r: Result<seq<Position>>)
    ensures tickers == [] ==> r == Err(ValueError)
    ensures r.Ok? ==> |r.value| == |tickers| && forall i :: 0 <= i < |tickers| ==> r.value[i].ticker == tickers[i]
  {
    if tickers == [] then Err(ValueError)
    else
      var prices := m.prices(tickers);
      if prices == [] then Err(IndexError)
      else
        var w := m.solve(prices);
        if !Rectangular(prices, |w|) || |w| != |tickers| then Err(ValueError)
        else
          match OptimizeWeight(prices, w, outlay)
          case Err(e) => Err(e)
          case Ok(q) => Ok(Label(tickers, q))
  }

  /** The loop over all sectors, each with its ranked list and its budget. */
  function SectorHoldings(sectors: seq<string>, target: map<string, seq<string>>, budgets: seq<real>, m: MarketData)
    : (r: Result<seq<seq<Position>>>)
    ensures r.Ok? ==> |r.value| == |sectors|
  {
    if sectors == [] then Ok([])
    else
      match SectorHoldings(sectors[..|sectors| - 1], target, budgets, m)
      case Err(e) => Err(e)
      case Ok(parts) =>
        var i := |sectors| - 1;
        var ind := sectors[i];
        if ind !in target then Err(KeyError(ind))
        else if i >= |budgets| then Err(KeyError(ind))
        else
          match SectorHolding(target[ind], budgets[i], m)
          case Err(e) => Err(e)
          case Ok(ps) => Ok(parts + [ps])
  }

  /** The run gets past stage 4 only when every sector still has a ticker:
      a quota of zero ends it. */
  lemma {:induction false} SectorHoldingsNeedTickers(sectors: seq<string>, target: map<string, seq<string>>, budgets: seq<real>, m: MarketData)
    requires SectorHoldings(sectors, target, budgets, m).Ok?
    ensures forall i :: 0 <= i < |sectors| ==> sectors[i] in target && target[sectors[i]] != []
  {
    if sectors != [] {
      var n := |sectors| - 1;
      SectorHoldingsNeedTickers(sectors[..n], target, budgets, m);
      forall i | 0 <= i < |sectors|
        ensures sectors[i] in target && target[sectors[i]] != []
      {
        if i < n {
          assert sectors[..n][i] == sectors[i];
        }
      }
    }
  }

  /** `pd.concat(holding)` */
  function Flatten(parts: seq<seq<Position>>): (ps: seq<Position>)
    ensures |ps| == TotalLength(parts)
    ensures forall p :: p in ps <==> exists k :: 0 <= k < |parts| && p in parts[k]
  {
    if parts == [] then []
    else
      var n := |parts| - 1;
      var rest := Flatten(parts[..n]);
      assert forall k :: 0 <= k < n ==> parts[..n][k] == parts[k];
      rest + parts[n]
  }

  /** The number of positions over all sectors. */
  function TotalLength(parts: seq<seq<Position>>): nat
  {
    if parts == [] then 0 else TotalLength(parts[..|parts| - 1]) + |parts[|parts| - 1]|
  }

  /** Sector `k`'s positions sit together in the concatenation, right after
      those of the sectors before it. */
  lemma {:induction false} FlattenSlice(parts: seq<seq<Position>>, k: nat)
    requires k < |parts|
    ensures TotalLength(parts[..k]) + |parts[k]| <= |Flatten(parts)|
    ensures Flatten(parts)[TotalLength(parts[..k])..TotalLength(parts[..k]) + |parts[k]|] == parts[k]
    decreases |parts|
  {
    var n := |parts| - 1;
    var init := parts[..n];
    assert Flatten(parts) == Flatten(init) + parts[n];
    if k < n {
      FlattenSlice(init, k);
      assert init[..k] == parts[..k] && init[k] == parts[k];
    } else {
      assert parts[..k] == init;
    }
  }

  /** `holding[holding != 0]`: the nonzero counts, in order. */
  function NonZero(ps: seq<Position>): (r: seq<Position>)
    ensures |r| <= |ps|
    ensures forall k :: 0 <= k < |r| ==> r[k].amount != 0
    ensures forall p :: p in r <==> p in ps && p.amount != 0
  {
    if ps == [] then []
    else
      var rest := NonZero(ps[..|ps| - 1]);
      var p := ps[|ps| - 1];
      assert ps == ps[..|ps| - 1] + [p];
      if p.amount != 0 then rest + [p] else rest
  }

  /** The filter keeps the order of the positions, and each nonzero
      position as often as it occurs. */
  lemma NonZeroKeepsOrder(ps: seq<Position>)
    ensures DataLoader.Subsequence(NonZero(ps), ps)
    ensures forall p: Position :: p.amount != 0 ==> multiset(NonZero(ps))[p] == multiset(ps)[p]
  {
    NonZeroSubsequence(ps);
    NonZeroMultiplicity(ps);
  }

  lemma {:induction false} NonZeroSubsequence(ps: seq<Position>)
    ensures DataLoader.Subsequence(NonZero(ps), ps)
  {
    if ps != [] {
      var n := |ps| - 1;
      NonZeroSubsequence(ps[..n]);
      var rest := NonZero(ps[..n]);
      if ps[n].amount != 0 {
        assert (rest + [ps[n]])[..|rest|] == rest;
      } else if rest != [] {
        assert rest[|rest| - 1].amount != 0;
      }
    }
  }

  lemma {:induction false} NonZeroMultiplicity(ps: seq<Position>)
    ensures forall p: Position :: p.amount != 0 ==> multiset(NonZero(ps))[p] == multiset(ps)[p]
  {
    if ps != [] {
      var q := ps[..|ps| - 1];
      var last := ps[|ps| - 1];
      NonZeroMultiplicity(q);
      assert ps == q + [last];
      assert multiset(ps) == multiset(q) + multiset{last};
      if last.amount != 0 {
        assert NonZero(ps) == NonZero(q) + [last];
        assert multiset(NonZero(ps)) == multiset(NonZero(q)) + multiset{last};
      } else {
        assert NonZero(ps) == NonZero(q);
      }
    }
  }

  /** The location rule: the Canadian table is looked at first. */
  function LocationOf(ticker: string, sptsxTickers: seq<string>, spxTickers: seq<string>): (l: Location)
    ensures l == CA <==> ticker in sptsxTickers
    ensures l == US <==> ticker !in sptsxTickers && ticker in spxTickers
    ensures l == Missing <==> ticker !in sptsxTickers && ticker !in spxTickers
  {
    if ticker in sptsxTickers then CA else if ticker in spxTickers then US else Missing
  }

  function Locate(ps: seq<Position>, sptsxTickers: seq<string>, spxTickers: seq<string>): (rows: seq<HoldingRow>)
    ensures |rows| == |ps|
    ensures forall i :: 0 <= i < |ps| ==>
      rows[i] == HoldingRow(ps[i].ticker, ps[i].amount, LocationOf(ps[i].ticker, sptsxTickers, spxTickers))
  {
    seq(|ps|, i requires 0 <= i < |ps| =>
      HoldingRow(ps[i].ticker, ps[i].amount, LocationOf(ps[i].ticker, sptsxTickers, spxTickers)))
  }

  /** The ticker and count of each row. */
  function PositionsOf(rows: seq<HoldingRow>): (ps: seq<Position>)
    ensures |ps| == |rows|
  {
    seq(|rows|, i requires 0 <= i < |rows| => Position(rows[i].ticker, rows[i].amount))
  }

  /** The holding table: nothing to concatenate fails. */
  function HoldingTable(parts: seq<seq<Position>>, sptsxTickers: seq<string>, spxTickers: seq<string>)
    : (r: Result<seq<HoldingRow>>)
    ensures r.Ok? <==> parts != []
  {
    if parts == [] then Err(NothingToConcatenate)
    else Ok(Locate(NonZero(Flatten(parts)), sptsxTickers, spxTickers))
  }

  /** The holding has one row per nonzero count of any sector, in sector
      order, each located by the rule above. */
  lemma HoldingTableSpec(parts: seq<seq<Position>>, sptsxTickers: seq<string>, spxTickers: seq<string>)
    requires parts != []
    ensures var rows := HoldingTable(parts, sptsxTickers, spxTickers).value;
      && (forall i :: 0 <= i < |rows| ==> rows[i].amount != 0)
      && (forall t, a :: (exists i :: 0 <= i < |rows| && rows[i].ticker == t && rows[i].amount == a) <==>
            a != 0 && exists k :: 0 <= k < |parts| && Position(t, a) in parts[k])
      && (forall i :: 0 <= i < |rows| ==> (rows[i].location == CA <==> rows[i].ticker in sptsxTickers))
  {
    var ps := NonZero(Flatten(parts));
    var rows := HoldingTable(parts, sptsxTickers, spxTickers).value;
    forall t, a
      ensures (exists i :: 0 <= i < |rows| && rows[i].ticker == t && rows[i].amount == a) <==>
            a != 0 && exists k :: 0 <= k < |parts| && Position(t, a) in parts[k]
    {
      if exists i :: 0 <= i < |rows| && rows[i].ticker == t && rows[i].amount == a {
        var i :| 0 <= i < |rows| && rows[i].ticker == t && rows[i].amount == a;
        assert ps[i] == Position(t, a);
        assert Position(t, a) in ps;
      }
      if a != 0 && exists k :: 0 <= k < |parts| && Position(t, a) in parts[k] {
        assert Position(t, a) in ps;
        var i :| 0 <= i < |ps| && ps[i] == Position(t, a);
        assert rows[i].ticker == t && rows[i].amount == a;
      }
    }
  }

  /** The rows keep the order of the concatenated sectors, and each nonzero
      position appears exactly as often as it occurs in them. */
  lemma HoldingTableOrder(parts: seq<seq<Position>>, sptsxTickers: seq<string>, spxTickers: seq<string>)
    requires parts != []
    ensures var rows := HoldingTable(parts, sptsxTickers, spxTickers).value;
      && DataLoader.Subsequence(PositionsOf(rows), Flatten(parts))
      && (forall p: Position :: p.amount != 0 ==> multiset(PositionsOf(rows))[p] == multiset(Flatten(parts))[p])
  {
    var rows := HoldingTable(parts, sptsxTickers, spxTickers).value;
    NonZeroKeepsOrder(Flatten(parts));
    assert PositionsOf(rows) == NonZero(Flatten(parts));
  }

  /** The location loop of `_decide_stock_quantity`. */
  method DecideHolding(parts: seq<seq<Position>>, sptsxTickers: seq<string>, spxTickers: seq<string>)
    returns (r: Result<seq<HoldingRow>>)
    ensures r == HoldingTable(parts, sptsxTickers, spxTickers)
  {
    if parts == [] {
      return Err(NothingToConcatenate);
    }
    var holding := NonZero(Flatten(parts));
    var location: seq<Location> := [];
    for i := 0 to |holding|
      invariant |location| == i
      invariant forall k :: 0 <= k < i ==> location[k] == LocationOf(holding[k].ticker, sptsxTickers, spxTickers)
    {
      var ticker := holding[i].ticker;
      if ticker in sptsxTickers {
        location := location + [CA];
      } else if ticker in spxTickers {
        location := location + [US];
      } else {
        location := location + [Missing];
      }
    }
    var rows := seq(|holding|, i requires 0 <= i < |holding| =>
      HoldingRow(holding[i].ticker, holding[i].amount, location[i]));
    assert rows == Locate(holding, sptsxTickers, spxTickers);
    return Ok(rows);
  }

  /** Once a sector fails, the loop over a longer list fails the same way. */
  lemma {:induction false} SectorHoldingsFailurePersists(sectors: seq<string>, target: map<string, seq<string>>,
                                                         budgets: seq<real>, m: MarketData, n: nat)
    requires n <= |sectors| && SectorHoldings(sectors[..n], target, budgets, m).Err?
    ensures SectorHoldings(sectors, target, budgets, m) == SectorHoldings(sectors[..n], target, budgets, m)
    decreases |sectors| - n
  {
    if n < |sectors| {
      var k := |sectors|;
      assert sectors[..k] == sectors;
      assert sectors[..k - 1][..n] == sectors[..n];
      SectorHoldingsFailurePersists(sectors[..k - 1], target, budgets, m, n);
    } else {
      assert sectors[..n] == sectors;
    }
  }

  /** One more round of the sector loop, as seen from the rounds before it. */
  lemma SectorHoldingsExtend(sectors: seq<string>, target: map<string, seq<string>>, budgets: seq<real>,
                             m: MarketData, i: nat, parts: seq<seq<Position>>)
    requires i < |sectors| && SectorHoldings(sectors[..i], target, budgets, m) == Ok(parts)
    ensures var ind := sectors[i];
      SectorHoldings(sectors[..i + 1], target, budgets, m) ==
        if ind !in target || i >= |budgets| then Err(KeyError(ind))
        else match SectorHolding(target[ind], budgets[i], m)
          case Err(e) => Err(e)
          case Ok(ps) => Ok(parts + [ps])
  {
    assert sectors[..i + 1][..i] == sectors[..i];
  }

  /** The loop of `_decide_stock_quantity` over the sectors. */
  method SectorHoldingsLoop(sectors: seq<string>, target: map<string, seq<string>>, budgets: seq<real>, m: MarketData)
    returns (r: Result<seq<seq<Position>>>)
    ensures r == SectorHoldings(sectors, target, budgets, m)
  {
    var parts: seq<seq<Position>> := [];
    for i := 0 to |sectors|
      invariant SectorHoldings(sectors[..i], target, budgets, m) == Ok(parts)
    {
      var ind := sectors[i];
      SectorHoldingsExtend(sectors, target, budgets, m, i, parts);
      if ind !in target || i >= |budgets| {
        SectorHoldingsFailurePersists(sectors, target, budgets, m, i + 1);
        return Err(KeyError(ind));
      }
      var sector := SectorHolding(target[ind], budgets[i], m);
      if sector.Err? {
        SectorHoldingsFailurePersists(sectors, target, budgets, m, i + 1);
        return Err(sector.error);
      }
      parts := parts + [sector.value];
    }
    assert sectors[..|sectors|] == sectors;
    return Ok(parts);
  }

  // ---------------------------------------------------------------------
  // The pipeline (`develop_strategy`)

  /** The (ticker, sector) rows of one constituent table; a table without
      the sector column contributes rows whose sector is NaN, which match no
      sector and are left out here. */
  function ListingsOf(f: DataLoader.Frame): (ls: seq<Listing>)
    requires DataLoader.FrameShape(f)
    ensures DataLoader.SectorColumn in f.columns ==>
              |ls| == |f.rows| && forall i :: 0 <= i < |f.rows| ==> ls[i].ticker == f.rows[i].ticker
    ensures DataLoader.SectorColumn !in f.columns ==> ls == []
  {
    match DataLoader.SectorsOf(f)
    case Err(_) => []
    case Ok(sectors) => seq(|f.rows|, i requires 0 <= i < |f.rows| => Listing(f.rows[i].ticker, sectors[i]))
  }

  /** `pd.concat([sptsx_df, spx_df]).reset_index()`, read through its "index"
      and "GICS Sector\n" columns; the column must exist in one of them. */
  function Stocks(sptsx: DataLoader.Frame, spx: DataLoader.Frame): (r: Result<seq<Listing>>)
    requires DataLoader.FrameShape(sptsx) && DataLoader.FrameShape(spx)
    ensures r.Ok? <==> DataLoader.SectorColumn in sptsx.columns || DataLoader.SectorColumn in spx.columns
    ensures r.Ok? ==> r.value == ListingsOf(sptsx) + ListingsOf(spx)
  {
    if DataLoader.SectorColumn !in sptsx.columns && DataLoader.SectorColumn !in spx.columns then
      Err(KeyError(DataLoader.SectorColumn))
    else Ok(ListingsOf(sptsx) + ListingsOf(spx))
  }

  /** `sharpe_mean`, one row per sector. */
  function Means(stocks: seq<Listing>, sectors: seq<string>, score: string -> real): (ms: seq<Result<real>>)
    ensures |ms| == |sectors|
  {
    if sectors == [] then []
    else
      var n := |sectors| - 1;
      Means(stocks, sectors[..n], score) + [SectorMean(stocks, sectors[n], score)]
  }

  /** Row i of `sharpe_mean` is the mean of sector i. */
  lemma {:induction false} MeansSpec(stocks: seq<Listing>, sectors: seq<string>, score: string -> real)
    ensures forall i :: 0 <= i < |sectors| ==> Means(stocks, sectors, score)[i] == SectorMean(stocks, sectors[i], score)
  {
    if sectors != [] {
      MeansSpec(stocks, sectors[..|sectors| - 1], score);
    }
  }

  /** The ranking of every sector, as a function of the sector name. */
  function Ranking(stocks: seq<Listing>, score: string -> real): string -> seq<string>
  {
    s => RankedSector(stocks, s, score)
  }

  /** `target`: each listed sector mapped to its ranking. */
  function Targets(sectors: seq<string>, rank: string -> seq<string>): map<string, seq<string>>
  {
    if sectors == [] then map[]
    else
      var n := |sectors| - 1;
      Targets(sectors[..n], rank)[sectors[n] := rank(sectors[n])]
  }

  /** `target` has one entry per listed sector, holding that sector's ranking. */
  lemma {:induction false} TargetsSpec(sectors: seq<string>, rank: string -> seq<string>)
    ensures Targets(sectors, rank).Keys == set s | s in sectors
    ensures forall s :: s in sectors ==> Targets(sectors, rank)[s] == rank(s)
  {
    if sectors != [] {
      var n := |sectors| - 1;
      TargetsSpec(sectors[..n], rank);
      assert forall s :: s in sectors <==> s in sectors[..n] || s == sectors[n];
    }
  }

  /** One more sector adds its mean and its ranking. */
  lemma SelectStep(stocks: seq<Listing>, sectors: seq<string>, score: string -> real, i: nat)
    requires i < |sectors|
    ensures Means(stocks, sectors[..i + 1], score) == Means(stocks, sectors[..i], score) + [SectorMean(stocks, sectors[i], score)]
    ensures Targets(sectors[..i + 1], Ranking(stocks, score))
         == Targets(sectors[..i], Ranking(stocks, score))[sectors[i] := RankedSector(stocks, sectors[i], score)]
  {
    assert sectors[..i + 1][..i] == sectors[..i];
  }

  /** The loop of `_select_possible_stocks` over the sectors. */
  method SelectAll(stocks: seq<Listing>, sectors: seq<string>, score: string -> real)
    returns (means: seq<Result<real>>, t: map<string, seq<string>>)
    ensures means == Means(stocks, sectors, score)
    ensures t == Targets(sectors, Ranking(stocks, score))
  {
    ghost var rank := Ranking(stocks, score);
    means := [];
    t := map[];
    for i := 0 to |sectors|
      invariant means == Means(stocks, sectors[..i], score)
      invariant t == Targets(sectors[..i], rank)
    {
      var ind := sectors[i];
      var ranked, mean := SelectSector(stocks, ind, score);
      SelectStep(stocks, sectors, score, i);
      means := means + [mean];
      t := t[ind := ranked];
    }
    assert sectors[..|sectors|] == sectors;
  }

  /** `_decide_industry_allocation`: round, then cap. */
  function Allocation(sectors: seq<string>, stockNum: int, means: seq<Result<real>>, draws: nat -> int)
    : (r: Result<seq<int>>)
    requires |means| == |sectors|
    ensures r.Ok? ==> |r.value| == |sectors|
    ensures r.Ok? ==> RawAllocation(stockNum, means).Ok? &&
                      r == CapTelecom(sectors, RawAllocation(stockNum, means).value, draws)
  {
    match RawAllocation(stockNum, means)
    case Err(e) => Err(e)
    case Ok(raw) => CapTelecom(sectors, raw, draws)
  }

  /** The four stages in order; the first failure ends the run. The quota of
      each sector is its capped allocation. */
  function Develop(sectors: seq<string>, money: int, stockNum: int, sptsx: DataLoader.Frame, spx: DataLoader.Frame,
                   score: string -> real, draws: nat -> int, m: MarketData): (r: Result<seq<HoldingRow>>)
    requires DataLoader.FrameShape(sptsx) && DataLoader.FrameShape(spx)
    ensures DataLoader.SectorColumn !in sptsx.columns && DataLoader.SectorColumn !in spx.columns ==>
      r == Err(KeyError(DataLoader.SectorColumn))
    ensures r.Ok? ==> QuotaSectors <= |sectors| && forall i :: 0 <= i < |r.value| ==> r.value[i].amount != 0
  {
    match Stocks(sptsx, spx)
    case Err(e) => Err(e)
    case Ok(stocks) =>
    match Allocation(sectors, stockNum, Means(stocks, sectors, score), draws)
    case Err(e) => Err(e)
    case Ok(alloc) =>
      match Quotas(sectors, AllocationFrame(sectors, alloc), Targets(sectors, Ranking(stocks, score)), QuotaSectors)
      case Err(e) => Err(e)
      case Ok(t) =>
        QuotasNeedLabels(sectors, AllocationFrame(sectors, alloc), Targets(sectors, Ranking(stocks, score)), QuotaSectors);
        match Budgets(money as real, alloc)
        case Err(e) => Err(e)
        case Ok(b) =>
          match SectorHoldings(sectors, t, b, m)
          case Err(e) => Err(e)
          case Ok(parts) => HoldingTable(parts, DataLoader.Labels(sptsx), DataLoader.Labels(spx))
  }

  /** The two-sector scenario: ratios [1.5, 1.0, 0.5] and [2.0] give means
      1.0 and 2.0; four picks split 4/3 and 8/3, rounded to 1 and 3; 100000
      splits into 25000 and 75000. */
  lemma TwoSectorScenario()
    ensures Mean([1.5, 1.0, 0.5]) == Ok(1.0) && Mean([2.0]) == Ok(2.0)
    ensures RawAllocation(4, [Ok(1.0), Ok(2.0)]) == Ok([1, 3])
    ensures Budgets(100000.0, [1, 3]) == Ok([25000.0, 75000.0])
  {
    assert Sum([1.5, 1.0, 0.5]) == 3.0 by {
      assert [1.5, 1.0, 0.5][..2] == [1.5, 1.0];
      assert [1.5, 1.0][..1] == [1.5];
    }
    var means := [Ok(1.0), Ok(2.0)];
    assert Values(means) == [1.0, 2.0];
    assert Sum([1.0, 2.0]) == 3.0 by {
      assert [1.0, 2.0][..1] == [1.0];
    }
    var sh := Shares(4, [1.0, 2.0]);
    assert sh[0] == 4.0 / 3.0 && sh[1] == 8.0 / 3.0;
    assert RoundHalfEven(4.0 / 3.0) == 1 by { RoundHalfEvenUnique(4.0 / 3.0, 1); }
    assert RoundHalfEven(8.0 / 3.0) == 3 by { RoundHalfEvenUnique(8.0 / 3.0, 3); }
    assert RoundAll(sh) == [1, 3];
    assert SumInt([1, 3]) == 4 by {
      assert [1, 3][..1] == [1];
    }
    var counts := AsReals([1, 3]);
    assert counts == [1.0, 3.0];
    var b := Budgets(100000.0, [1, 3]).value;
    assert Proportional(b, 100000.0, counts, 4.0);
    assert b[0] * 4.0 == 100000.0 * 1.0 && b[1] * 4.0 == 100000.0 * 3.0;
    assert b == [25000.0, 75000.0];
  }

  /** The strategy object: the loader's two constituent tables and sector
      list, the money and the number of picks, and what each stage records. */
  class Strategy {
    const money: int
    const stockNum: int
    const industryList: seq<string>
    const sptsx: DataLoader.Frame
    const spx: DataLoader.Frame
    var sharpeMean: seq<Result<real>>
    var target: map<string, seq<string>>
    /** The "allocation" column of the sector table. */
    var allocation: seq<int>
    /** The "money" column of the sector table. */
    var budget: seq<real>
    var industryAllocation: map<string, int>
    var holding: seq<HoldingRow>

    /** The tables are read from the loader once; nothing changes them later. */
    constructor (loader: DataLoader.Loader, money: int, stockNum: int)
      requires DataLoader.FrameShape(loader.sptsx) && DataLoader.FrameShape(loader.spx)
      ensures sptsx == loader.sptsx && spx == loader.spx && industryList == loader.industry.index
      ensures DataLoader.FrameShape(sptsx) && DataLoader.FrameShape(spx)
      ensures this.money == money && this.stockNum == stockNum
      ensures sharpeMean == [] && target == map[] && allocation == [] && budget == []
      ensures industryAllocation == map[] && holding == []
    {
      sptsx := loader.sptsx;
      spx := loader.spx;
      industryList := loader.industry.index;
      this.money := money;
      this.stockNum := stockNum;
      sharpeMean := [];
      target := map[];
      allocation := [];
      budget := [];
      industryAllocation := map[];
      holding := [];
    }

    /** `_select_possible_stocks` */
    method SelectPossibleStocks(score: string -> real) returns (outcome: Outcome)
      requires DataLoader.FrameShape(sptsx) && DataLoader.FrameShape(spx)
      modifies this
      ensures allocation == old(allocation) && budget == old(budget)
      ensures industryAllocation == old(industryAllocation) && holding == old(holding)
      ensures match Stocks(sptsx, spx)
        case Err(e) => outcome == Failed(e) && sharpeMean == old(sharpeMean) && target == old(target)
        case Ok(stocks) => outcome == Done && sharpeMean == Means(stocks, industryList, score)
                           && target == Targets(industryList, Ranking(stocks, score))
    {
      var stocks := Stocks(sptsx, spx);
      if stocks.Err? {
        return Failed(stocks.error);
      }
      var means, t := SelectAll(stocks.value, industryList, score);
      sharpeMean := means;
      target := t;
      return Done;
    }

    /** `_decide_industry_allocation`: on success the allocation column is set. */
    method DecideIndustryAllocation(draws: nat -> int) returns (outcome: Outcome)
      requires |sharpeMean| == |industryList|
      modifies this
      ensures sharpeMean == old(sharpeMean) && target == old(target) && budget == old(budget)
      ensures industryAllocation == old(industryAllocation) && holding == old(holding)
      ensures match Allocation(industryList, stockNum, sharpeMean, draws)
        case Ok(a) => outcome == Done && allocation == a
        case Err(e) => outcome == Failed(e) && allocation == old(allocation)
    {
      var raw := RawAllocation(stockNum, sharpeMean);
      if raw.Err? {
        return Failed(raw.error);
      }
      var capped := CapTelecomLoop(industryList, raw.value, draws);
      if capped.Err? {
        return Failed(capped.error);
      }
      allocation := capped.value;
      return Done;
    }

    /** `_impose_quota`, reading each quota from the allocation column. The
        ranked lists are cut in place, so a failure keeps the cuts made
        before it. */
    method ImposeQuota() returns (outcome: Outcome)
      requires |allocation| == |industryList|
      modifies this
      ensures sharpeMean == old(sharpeMean) && allocation == old(allocation) && holding == old(holding)
      ensures var frame := AllocationFrame(industryList, allocation);
        && target == QuotaProgress(industryList, frame, old(target), QuotaSectors)
        && match Quotas(industryList, frame, old(target), QuotaSectors)
           case Err(e) => outcome == Failed(e) && budget == old(budget)
                          && industryAllocation == old(industryAllocation)
           case Ok(t) =>
             match Budgets(money as real, allocation)
             case Err(e) => outcome == Failed(e) && budget == old(budget)
                            && industryAllocation == old(industryAllocation)
             case Ok(b) => outcome == Done && budget == b && industryAllocation == frame
    {
      var frame := AllocationFrame(industryList, allocation);
      var quotas, progress := ImposeQuotaLoop(industryList, frame, target);
      target := progress;
      if quotas.Err? {
        return Failed(quotas.error);
      }
      var b := Budgets(money as real, allocation);
      if b.Err? {
        return Failed(b.error);
      }
      budget := b.value;
      industryAllocation := frame;
      return Done;
    }

    /** `_decide_stock_quantity` */
    method DecideStockQuantity(m: MarketData) returns (outcome: Outcome)
      modifies this
      ensures match SectorHoldings(industryList, target, budget, m)
        case Err(e) => outcome == Failed(e) && holding == old(holding)
        case Ok(parts) =>
          match HoldingTable(parts, DataLoader.Labels(sptsx), DataLoader.Labels(spx))
          case Err(e) => outcome == Failed(e) && holding == old(holding)
          case Ok(h) => outcome == Done && holding == h
      ensures sharpeMean == old(sharpeMean) && target == old(target) && allocation == old(allocation)
      ensures budget == old(budget) && industryAllocation == old(industryAllocation)
    {
      var r := SectorHoldingsLoop(industryList, target, budget, m);
      if r.Err? {
        return Failed(r.error);
      }
      var parts := r.value;
      var h := DecideHolding(parts, DataLoader.Labels(sptsx), DataLoader.Labels(spx));
      if h.Err? {
        return Failed(h.error);
      }
      holding := h.value;
      return Done;
    }

    /** `develop_strategy`: the four stages in order. */
    method DevelopStrategy(score: string -> real, draws: nat -> int, m: MarketData) returns (outcome: Outcome)
      requires DataLoader.FrameShape(sptsx) && DataLoader.FrameShape(spx)
      modifies this
      ensures var r := Develop(industryList, money, stockNum, sptsx, spx, score, draws, m);
        && (outcome == Done <==> r.Ok?)
        && (r.Ok? ==> holding == r.value)
        && (r.Err? ==> outcome == Failed(r.error) && holding == old(holding))
      ensures match Stocks(sptsx, spx)
        case Err(_) => sharpeMean == old(sharpeMean) && target == old(target) && allocation == old(allocation)
                       && budget == old(budget) && industryAllocation == old(industryAllocation)
        case Ok(stocks) =>
          && sharpeMean == Means(stocks, industryList, score)
          && var ranked := Targets(industryList, Ranking(stocks, score));
          match Allocation(industryList, stockNum, sharpeMean, draws)
          case Err(_) => target == ranked && allocation == old(allocation) && budget == old(budget)
                         && industryAllocation == old(industryAllocation)
          case Ok(a) =>
            && allocation == a
            && var frame := AllocationFrame(industryList, a);
            && target == QuotaProgress(industryList, frame, ranked, QuotaSectors)
            && if Quotas(industryList, frame, ranked, QuotaSectors).Err? || Budgets(money as real, a).Err?
               then budget == old(budget) && industryAllocation == old(industryAllocation)
               else budget == Budgets(money as real, a).value && industryAllocation == frame
    {
      outcome := SelectPossibleStocks(score);
      if outcome.Failed? {
        return;
      }
      outcome := DecideIndustryAllocation(draws);
      if outcome.Failed? {
        return;
      }
      outcome := ImposeQuota();
      if outcome.Failed? {
        return;
      }
      outcome := DecideStockQuantity(m);
    }
  }
}
