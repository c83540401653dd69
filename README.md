# RPMC analysis: a verified model of the Sharpe-ratio stock picker

This project is a Dafny model of the RPMC_analysis portfolio tool. The tool:

- cleans the constituent lists of the S&P/TSX and S&P 500 indices and an ETF list;
- counts the constituents of every GICS sector;
- ranks each sector's tickers by Sharpe ratio and shares a fixed number of picks among the sectors in proportion to their mean ratio;
- caps Telecommunication Services at four picks;
- cuts each sector's ranked list to its quota and splits the money in proportion to the picks;
- turns each sector's optimal weights into whole share counts, then tags each holding "CA" or "US".

From the finished holding it builds order tickets:

- a basket of market orders (`store_buy`);
- a full stop-order buffer, with one stop per position;
- a ladder stop-order buffer, with `layer` stops per position. The "equal" scheme splits the position evenly; in the "geom" scheme layer i divides what the layers before it left by 2^i (by 2, then 4, then 8, ...), and the last layer divides once more by 2^layer.

The measures of `kpi.py` are modelled too: period returns, CAGR, volatility, the Sharpe, Sortino and Calmar ratios, the running maximum and the maximum drawdown.

Modules follow the source files:

| module | file | source |
|---|---|---|
| `Kpi` | kpi.dfy | kpi.py |
| `DataLoader` | data_loader.dfy | DataProcessor/DataLoader.py |
| `SharpeMaxStrategy` | sharpe_max_strategy.dfy | Strategy/SharpeMaxStrategy.py |
| `VarianceMin` | variance_min.dfy | variance_min.py (the script version of the whole run) |
| `ProtectionBuffer` | protection_buffer.dfy | what the two stop buffers share |
| `FullStopOrderBuffer` | full_stop_order_buffer.dfy | ProtectionBuffer/FullStopOrderBuffer.py |
| `LadderStopOrderBuffer` | ladder_stop_order_buffer.dfy | ProtectionBuffer/LadderStopOrderBuffer.py |
| `DataStorer` | data_storer.dfy | DataProcessor/DataStorer.py |
| `Wrappers`, `Sums`, `Rounding`, `Holding` | wrappers.dfy, sums.dfy, rounding.dfy, holding.dfy | shared helpers |

Modelling choices:

- **Failures.** A Python exception, or a NaN or infinite value that a later step refuses, becomes a `Result` error. The error is named after what Python would raise: `KeyError(label)`, `IndexError`, `TypeError`, `ValueError`, `NothingToConcatenate`, or `NotFinite` for a non-finite float. A stage that aborts the run returns `Failed(error)`. What it had already written stays written: `_impose_quota` cuts the ranked lists in place, so they keep the cuts made before the failure. Every other field of a failing stage keeps its value.
- **Rounding.** Every `round`/`.round()` is `Rounding.RoundHalfEven`: the nearest integer, with ties going to the even neighbour.
- **Inputs standing for outside services.** Prices, ratios, random draws and the optimiser are inputs:
  - `price: string -> real`, the current price of a ticker;
  - `score: string -> real`, the Sharpe ratio of a ticker's daily prices;
  - `draws: nat -> int`, the k-th index that `np.random.randint(0, 11, …)` yields;
  - `MarketData`, the last month of adjusted closes of a ticker list and the weights the solver returns for them.
- **Float numerics.** `**`, `Series.std()` and `np.sqrt` are the fields of `Kpi.FloatOps`. They are uninterpreted, except that the lemma about a flat series assumes one to any power is one.
- **Stateful code.** Objects whose methods update fields are classes: `DataLoader.Loader`, `SharpeMaxStrategy.Strategy`, `FullStopOrderBuffer.FullStopBuffer` and `LadderStopOrderBuffer.LadderStopBuffer`. Each is proved against the pure functions beside it. The loops of the source are `for` loops in methods such as `SelectSector`, `CapTelecomLoop`, `ImposeQuotaLoop`, `SectorHoldingsLoop`, `DecideHolding`, `CreateBuffer`, `EqualLayers` and `GeometricLayers`. Each is proved equal to its specification function.

Three behaviours of the code are easy to misread; the model follows the code:

- **Telecom surplus.** Handing the surplus picks to the other sectors would keep the total. The code draws from all of `0..10`, telecommunications included, so the total falls by the number of draws that land on it (`CapTelecomSpec`).
- **Short lists.** Lowering a quota larger than the sector's list to the list's length would make the allocation match what is bought. In the code, `allocation.loc[ind] = quota` writes back the value just read, so nothing changes (`ApplyQuota`).
- **No recovery.** The code has no equal-weight fallback and does not confine a failure to one sector: any exception ends the run (`Develop`, `DevelopStrategy`). A sector whose quota is zero keeps an empty list, and fetching the prices of no tickers raises ValueError, so such a sector ends the run too (`SectorHolding`).

## Model

| member | source | states |
|---|---|---|
| Rounding.RoundHalfEven | Strategy/SharpeMaxStrategy.py:105-106 | the result is within one half of x, and on a tie it is the even neighbour |
| Rounding.RoundHalfEvenUnique | Strategy/SharpeMaxStrategy.py:42 | exactly one integer meets those two conditions, so the function is banker's rounding and nothing else |
| Rounding.RoundedSumNear | Strategy/SharpeMaxStrategy.py:105-106 | rounding n values moves their total by at most n/2 |
| Rounding.RoundedDotNear | Strategy/SharpeMaxStrategy.py:41-42 | rounding the quantities moves the basket's cost by at most half the sum of the non-negative prices |
| Holding.LocationText | Strategy/SharpeMaxStrategy.py:154-163 | the location has text exactly when it is CA or US; NaN has none |
| Holding.Abs | ProtectionBuffer/FullStopOrderBuffer.py:26 | the absolute share count is x or −x, and never negative |
| Kpi.Finite | kpi.py:36 | skipping NaN and the infinities never adds an element |
| Kpi.Std | kpi.py:36 | `Series.std()` has a value exactly when no element is infinite; the value is then `std` of the numeric entries with NaN skipped, and an infinity gives NotFinite |
| Kpi.Quot | kpi.py:45 | division succeeds exactly when the divisor is non-zero, and then quotient × divisor = dividend |
| Kpi.Change | kpi.py:35 | one `pct_change` element is a number exactly when the earlier price is non-zero; 0 then 0 is NaN, 0 then a positive price +inf, 0 then a negative price −inf |
| Kpi.Returns | kpi.py:35 | one change per consecutive pair of prices, element i going from price i to price i+1; the first period has none |
| Kpi.GrowByChange | kpi.py:35 | a non-zero price grown by its change gives the next price |
| Kpi.Compound | kpi.py:35 | compounding n returns from a first price gives n+1 prices that start there |
| Kpi.CompoundReturns | kpi.py:35 | with no zero divisor every return is a number, and compounding them from the first price gives the whole series back |
| Kpi.VolatilitySeries | kpi.py:34-37 | the only way to get no volatility is a non-finite deviation (NotFinite) |
| Kpi.VolatilityDefined | kpi.py:34-37 | the volatility has a value exactly when no zero price is followed by a non-zero one, and it is then std of the numeric returns × sqrt(252) |
| Kpi.VolatilitySkipsZeroRun | kpi.py:34-37 | [2, 1, 0, 0, 0] has volatility std([−0.5, −1]) × sqrt(252): the NaN changes between zeros are skipped |
| Kpi.Negatives | kpi.py:59-60 | a reference filter: only strictly negative values, every negative value kept, none added |
| Kpi.DownsideIsNegatives | kpi.py:59-60 | the numbers of the clamp-then-drop-zeros sample are exactly the strictly negative numeric returns in their order, with zero returns and gains both left out |
| Kpi.DownsideInfinities | kpi.py:59-60 | +inf never reaches the downside sample, since it is a gain and becomes 0; −inf reaches it exactly when some return is −inf |
| Kpi.DownsideDeviation | kpi.py:59-60 | the only way to get no downside deviation is a non-finite deviation |
| Kpi.CumMaxStep | kpi.py:83 | running maximum i is the first price at i = 0, and otherwise the larger of price i and running maximum i−1 |
| Kpi.CumMaxMonotone | kpi.py:83 | the running maximum never decreases |
| Kpi.CumMaxIsAPrice | kpi.py:83 | each running maximum is one of the prices up to there and bounds them |
| Kpi.CumMaxSpec | kpi.py:78 | the running maximum bounds every earlier price, never decreases, and is always one of the prices so far |
| Kpi.PeakPrecedesTrough | kpi.py:75-79 | each drawdown is measured against a peak at or before its own period that bounds every price up to there |
| Kpi.Drawdowns | kpi.py:84 | one drawdown per price |
| Kpi.MaxOf | kpi.py:84 | `max()` bounds every element and is one of them |
| Kpi.FiniteOfNumbers | kpi.py:84 | skipping NaN in a series of numbers drops nothing |
| Kpi.PositiveStartDrawdowns | kpi.py:83-84 | with a positive first price the running maximum never falls below it, so every drawdown is the number 1 − p[i]/cummax[i] and none is skipped |
| Kpi.MaxDrawdownSeries | kpi.py:82-84 | an empty series, one whose drawdowns are all NaN (such as `[0.0]`), or one with a +inf drawdown has no maximum (NotFinite); otherwise the result is one of the numeric drawdowns and bounds them all |
| Kpi.RatioAtMostOne | kpi.py:84 | a positive price over a running maximum at least as large lies in (0, 1] |
| Kpi.RatioInUnitInterval | kpi.py:84 | a non-negative price over a larger positive running maximum lies in [0, 1] |
| Kpi.DrawdownBounds | kpi.py:84 | for non-negative prices starting above zero every drawdown is a number in [0, 1], and below 1 where the price is positive |
| Kpi.MaxDrawdownInUnitInterval | kpi.py:82-84 | for such prices the maximum drawdown exists and lies in [0, 1], and in [0, 1) when every price is positive |
| Kpi.MaxDrawdownOfPositiveStart | kpi.py:82-84 | a positive first price always gives a maximum drawdown |
| Kpi.MaxDrawdownOfCrash | kpi.py:82-84 | [2, 0] has maximum drawdown 1 |
| Kpi.MaxDrawdownOfNonDecreasing | kpi.py:82-84 | a series that starts above zero and never falls has maximum drawdown 0 |
| Kpi.NoDrawdownAt | kpi.py:84 | in such a series every period's drawdown is 0 |
| Kpi.CagrSeries | kpi.py:17-19 | defined exactly for a non-empty series with a non-zero first price; an empty one raises IndexError |
| Kpi.CagrOfFlatSeries | kpi.py:17-19 | a series that ends where it started has growth rate 0 |
| Kpi.SharpeSeries | kpi.py:48-49 | defined exactly when the growth rate and the volatility are, and the volatility is non-zero; the ratio is then the quotient (cagr − rf) / volatility |
| Kpi.SortinoSeries | kpi.py:64-68 | the only way to get no value is a non-finite deviation |
| Kpi.SortinoSeriesIsNegativeDeviation | kpi.py:64-68 | `sortino_series` returns the deviation of the strictly negative numeric returns, not a ratio, and ignores rf; it has a value exactly when no zero price is followed by a negative one |
| Kpi.CalmarSeries | kpi.py:93-94 | defined exactly when the growth rate and the maximum drawdown are, and the drawdown is non-zero; the ratio is then cagr / maximum drawdown |
| Kpi.CalmarOfNonDecreasing | kpi.py:93-94 | a series that never falls has no finite Calmar ratio, because its drawdown is 0 |
| Kpi.Cagr | kpi.py:6-14 | a missing column raises KeyError; otherwise the column's series growth rate |
| Kpi.Volatility | kpi.py:22-31 | a missing column raises KeyError; otherwise exactly the series volatility of that column |
| Kpi.Sharpe | kpi.py:40-45 | a missing `spec` column raises KeyError(spec), an empty one IndexError, and only then a missing "Adj Close" raises KeyError("Adj Close"); a value is (cagr of `spec` − rf) / volatility of "Adj Close" |
| Kpi.SharpeOnAdjClose | kpi.py:40-45 | on "Adj Close" the frame ratio equals the series ratio |
| Kpi.SharpeSpecOnlyThroughCagr | kpi.py:45 | the `spec` column enters only through its first price, last price and length, because volatility always reads "Adj Close" |
| Kpi.Sortino | kpi.py:52-61 | a missing column raises KeyError; otherwise defined exactly when the growth rate and the downside deviation are, and the deviation is non-zero |
| Kpi.SortinoOverSeries | kpi.py:52-61 | `sortino` × the `sortino_series` value = cagr − rf |
| Kpi.MaxDrawdown | kpi.py:71-79 | a missing column raises KeyError; otherwise exactly the series maximum drawdown |
| Kpi.Calmar | kpi.py:87-90 | a missing column raises KeyError; otherwise the series Calmar ratio of that column |
| DataLoader.Promote | DataProcessor/DataLoader.py:47-50 | an empty sheet has no row 0; otherwise row 0 is the header, the body is rows 1.., and a rectangular sheet gives rows as wide as the header |
| DataLoader.PromoteRoundTrip | DataProcessor/DataLoader.py:48-50 | the header on top of the body gives the sheet back |
| DataLoader.Normalize | DataProcessor/DataLoader.py:51-52 | the result is a dash-free prefix of the ticker that stops at a dash or at the end |
| DataLoader.NormalizePlain | DataProcessor/DataLoader.py:90-91 | a ticker without '-' is unchanged |
| DataLoader.NormalizeIdempotent | DataProcessor/DataLoader.py:118-119 | normalising twice is normalising once |
| DataLoader.NormalizeUnique | DataProcessor/DataLoader.py:51-52 | only one dash-free prefix reaches a dash or the end, so Normalize is the text before the first '-' |
| DataLoader.IndexBy | DataProcessor/DataLoader.py:51-53 | succeeds exactly when the column exists; each row's label is the normalised cell of the first such column, and that column leaves the cells |
| DataLoader.DropRows | DataProcessor/DataLoader.py:77 | fails with KeyError naming a missing label exactly when some excluded label is absent; otherwise keeps exactly the rows whose label is not excluded, and all columns |
| DataLoader.KeepRowsSubsequence | DataProcessor/DataLoader.py:104 | the kept rows are the input rows with some deleted, in their order |
| DataLoader.DropRowsSpec | DataProcessor/DataLoader.py:124 | after the drop no excluded label is left, the order is kept, and the frame stays rectangular |
| DataLoader.DropRowsKeepsTickers | DataProcessor/DataLoader.py:77 | the drop introduces no label, so the labels stay dash-free |
| DataLoader.DropColumn | DataProcessor/DataLoader.py:79 | fails exactly when the column is absent; otherwise removes every column of that name, keeps every other column and all labels |
| DataLoader.ReadSheet | DataProcessor/DataLoader.py:43-80 | a read sheet is rectangular, no label is excluded or contains '-', and the unused column is gone |
| DataLoader.ReadSptsx | DataProcessor/DataLoader.py:43-80 | the SPTSX table is rectangular, has no excluded or dashed label, and has lost its unused column |
| DataLoader.ReadSpx | DataProcessor/DataLoader.py:82-108 | the same for the SPX table, with its own ticker column, exclusions and unused column |
| DataLoader.ReadEtf | DataProcessor/DataLoader.py:110-126 | the ETF table is rectangular with no excluded or dashed label; no column is dropped |
| DataLoader.SectorsOf | DataProcessor/DataLoader.py:133-134 | a missing sector column raises KeyError; otherwise there is one sector cell per row |
| DataLoader.SortStrings | DataProcessor/DataLoader.py:133 | the groupby keys come out sorted in Python's string order, as a permutation of the input |
| DataLoader.CompactSortedDistinct | DataProcessor/DataLoader.py:134 | removing repeated neighbours from a sorted list leaves it sorted with no repeats |
| DataLoader.GroupCountIsMultiplicity | DataProcessor/DataLoader.py:133-134 | `groupby(...).count()` of one table: the keys are exactly the sectors that occur, each mapped to its number of rows |
| DataLoader.CountIndustry | DataProcessor/DataLoader.py:128-136 | the index is the sorted union of both tables' sectors, each sector once, with one count per sector |
| DataLoader.CountIndustrySpec | DataProcessor/DataLoader.py:133-136 | a sector in both tables counts its rows in the SPTSX table plus its rows in the SPX table; a sector in only one table has no count (NaN) |
| DataLoader.Loader.constructor | DataProcessor/DataLoader.py:22-29 | all three tables and the sector table start empty |
| DataLoader.Loader.ReadSptsxSheet | DataProcessor/DataLoader.py:43-80 | on success the SPTSX table is the cleaned sheet, on failure unchanged; nothing else changes |
| DataLoader.Loader.ReadSpxSheet | DataProcessor/DataLoader.py:82-108 | the same for the SPX table |
| DataLoader.Loader.ReadEtfSheet | DataProcessor/DataLoader.py:110-126 | the same for the ETF table, which has no column drop |
| DataLoader.Loader.ReadData | DataProcessor/DataLoader.py:36-41 | the sheets are read in order; the first that fails ends the call with its error, the tables read before it stay loaded and the later ones unchanged; on success all three tables are loaded |
| DataLoader.Loader.CountIndustries | DataProcessor/DataLoader.py:128-136 | with both sector columns present the sector table is their count; otherwise a KeyError and no change |
| SharpeMaxStrategy.Members | Strategy/SharpeMaxStrategy.py:79-80 | exactly the tickers listed with that sector |
| SharpeMaxStrategy.Retained | Strategy/SharpeMaxStrategy.py:83-90 | exactly the tickers with a positive ratio, each with its own ratio |
| SharpeMaxStrategy.SortAscending | Strategy/SharpeMaxStrategy.py:93 | `argsort` applied: a permutation in ascending order of ratio |
| SharpeMaxStrategy.Reverse | Strategy/SharpeMaxStrategy.py:93 | `[::-1]`: entry i is entry n−1−i of the input |
| SharpeMaxStrategy.RankDescending | Strategy/SharpeMaxStrategy.py:92-93 | a permutation of the kept entries in non-increasing order of ratio |
| SharpeMaxStrategy.Mean | Strategy/SharpeMaxStrategy.py:94 | defined exactly for a non-empty list, and then mean × count = sum |
| SharpeMaxStrategy.MeanOfPositives | Strategy/SharpeMaxStrategy.py:94 | the mean of positive ratios is positive |
| SharpeMaxStrategy.RankedSectorSpec | Strategy/SharpeMaxStrategy.py:79-93 | the ranked list holds exactly the sector's tickers with positive ratio, ordered by non-increasing ratio |
| SharpeMaxStrategy.SectorMeanSpec | Strategy/SharpeMaxStrategy.py:94-95 | the mean is defined exactly when some ticker of the sector has a positive ratio, and is then positive |
| SharpeMaxStrategy.SelectSector | Strategy/SharpeMaxStrategy.py:79-96 | the loop over a sector gives the ranked list and mean of the specification |
| SharpeMaxStrategy.RawAllocation | Strategy/SharpeMaxStrategy.py:105-106 | succeeds exactly when every mean is defined and their sum is non-zero; one count per sector |
| SharpeMaxStrategy.SharesSum | Strategy/SharpeMaxStrategy.py:105-106 | the unrounded shares add up to the number of picks |
| SharpeMaxStrategy.RawAllocationNearShares | Strategy/SharpeMaxStrategy.py:105-106 | each count is its share rounded, and the total is within half the number of sectors of `stock_num` |
| SharpeMaxStrategy.RawAllocationNonNegative | Strategy/SharpeMaxStrategy.py:105-106 | positive means and a non-negative pick count give non-negative counts |
| SharpeMaxStrategy.BumpCounts | Strategy/SharpeMaxStrategy.py:110-111 | each count grows by the number of draws of its index |
| SharpeMaxStrategy.BumpTotal | Strategy/SharpeMaxStrategy.py:110-111 | each draw adds exactly one pick to the total |
| SharpeMaxStrategy.CapTelecom | Strategy/SharpeMaxStrategy.py:107-112 | fails exactly when the telecom label is missing or, above the cap, a draw falls outside the sectors |
| SharpeMaxStrategy.CapTelecomSpec | Strategy/SharpeMaxStrategy.py:107-112 | at most four: unchanged; above four: telecom ends at 4, every other sector gains its draws, the total shrinks by the draws on telecom, and with at least 11 sectors it always succeeds |
| SharpeMaxStrategy.CappedBump | Strategy/SharpeMaxStrategy.py:107-112 | spending `count - 4` in-range draws and then setting telecommunications to four adds each draw to its sector and lowers the total by the draws on telecommunications |
| SharpeMaxStrategy.CapTelecomLoop | Strategy/SharpeMaxStrategy.py:107-112 | the in-place increment loop computes CapTelecom |
| SharpeMaxStrategy.PyPrefix | Strategy/SharpeMaxStrategy.py:130 | Python's `s[:q]`: a prefix of length min(q, len), or len+q for a negative q |
| SharpeMaxStrategy.ApplyQuota | Strategy/SharpeMaxStrategy.py:127-130 | the cut list is a prefix of the ranked list, of length min(quota, len) for a non-negative quota |
| SharpeMaxStrategy.ApplyQuotaSpec | Strategy/SharpeMaxStrategy.py:127-130 | the cut list is the ranked list's prefix of length min(quota, len), still descending, and no dropped ticker outranks a kept one |
| SharpeMaxStrategy.Quotas | Strategy/SharpeMaxStrategy.py:123-130 | a successful loop keeps every sector of the target |
| SharpeMaxStrategy.QuotasFailurePersists | Strategy/SharpeMaxStrategy.py:123-130 | once a round fails, the loop ends with that failure |
| SharpeMaxStrategy.QuotaProgress | Strategy/SharpeMaxStrategy.py:119-130 | the lists as they stand when the loop stops keep every sector of the target |
| SharpeMaxStrategy.QuotaProgressAtFailure | Strategy/SharpeMaxStrategy.py:119-130 | `target` is `self.target` itself, so when round k+1 is the first to fail, `self.target` holds exactly the cuts of the first k rounds |
| SharpeMaxStrategy.ShortSectorListKeepsCuts | Strategy/SharpeMaxStrategy.py:122-130 | with fewer than eleven distinct sectors the loop cuts every list to its quota, then `industry_list[i]` raises IndexError, and `self.target` keeps every cut |
| SharpeMaxStrategy.QuotasSucceed | Strategy/SharpeMaxStrategy.py:123-126 | with every visited label present in both frames the loop succeeds |
| SharpeMaxStrategy.QuotasUntouched | Strategy/SharpeMaxStrategy.py:123-130 | a sector not visited in rounds m..n keeps its list across them |
| SharpeMaxStrategy.QuotasVisited | Strategy/SharpeMaxStrategy.py:123-130 | a sector visited once ends with its list cut to its own quota |
| SharpeMaxStrategy.QuotasSpec | Strategy/SharpeMaxStrategy.py:123-130 | with distinct sectors, each of the first n lists is cut to its quota and every other list is left alone |
| SharpeMaxStrategy.QuotasNeedLabels | Strategy/SharpeMaxStrategy.py:123-125 | a successful loop had n sectors, each present in the quota frame |
| SharpeMaxStrategy.QuotasOfEmptyFrameFail | Strategy/SharpeMaxStrategy.py:117-125 | read from the never-filled `industry_allocation`, the quota loop always fails |
| SharpeMaxStrategy.AllocationFrame | Strategy/SharpeMaxStrategy.py:113-115 | the allocation column labelled by sector: one key per sector, each with its own count |
| SharpeMaxStrategy.ImposeQuotaLoop | Strategy/SharpeMaxStrategy.py:119-130 | the loop over the first eleven sectors computes Quotas, and returns the lists as they stand where it stops |
| SharpeMaxStrategy.Budgets | Strategy/SharpeMaxStrategy.py:131-132 | defined exactly when the counts do not sum to zero; each budget is money × count / total |
| SharpeMaxStrategy.BudgetsSumToMoney | Strategy/SharpeMaxStrategy.py:131-132 | the budgets sum to the money |
| SharpeMaxStrategy.BudgetsNonNegative | Strategy/SharpeMaxStrategy.py:131-132 | non-negative money and counts give non-negative budgets |
| SharpeMaxStrategy.EqualWeights | Strategy/SharpeMaxStrategy.py:29-30 | k weights, each 1/k |
| SharpeMaxStrategy.EqualWeightsInSimplex | Strategy/SharpeMaxStrategy.py:29-33 | the starting weights meet the solver's bounds and sum constraint |
| SharpeMaxStrategy.PortfolioSeries | Strategy/SharpeMaxStrategy.py:19 | day t of the basket is the dot product of day t's prices with the weights |
| SharpeMaxStrategy.SharpePortfolio | Strategy/SharpeMaxStrategy.py:14-22 | the objective is defined exactly when the basket series has a first price, it is non-zero, and the volatility is non-zero |
| SharpeMaxStrategy.IdenticalInstruments | Strategy/SharpeMaxStrategy.py:19 | when all instruments share one price series, any weights summing to one give that series |
| SharpeMaxStrategy.IdenticalInstrumentsSharpe | Strategy/SharpeMaxStrategy.py:14-22 | so the objective is the same for every point of the simplex |
| SharpeMaxStrategy.Quantities | Strategy/SharpeMaxStrategy.py:41-42 | defined exactly when the basket price is non-zero, with one count per weight |
| SharpeMaxStrategy.UnroundedCostsOutlay | Strategy/SharpeMaxStrategy.py:41-42 | before rounding, the quantities cost exactly the outlay at the last prices |
| SharpeMaxStrategy.QuantitiesCostNearOutlay | Strategy/SharpeMaxStrategy.py:41-42 | after rounding, the cost is within half the sum of the last prices of the outlay |
| SharpeMaxStrategy.SingleInstrument | Strategy/SharpeMaxStrategy.py:41-42 | for one instrument the only weight is 1 and the count is round(outlay / price) |
| SharpeMaxStrategy.EqualWeightBaseline | Strategy/SharpeMaxStrategy.py:29-42 | with the starting weights every count is round(outlay / basket / k) |
| SharpeMaxStrategy.OptimizeWeight | Strategy/SharpeMaxStrategy.py:25-44 | an empty price frame raises IndexError; otherwise one count per weight |
| SharpeMaxStrategy.Label | Strategy/SharpeMaxStrategy.py:146 | position i pairs ticker i with count i |
| SharpeMaxStrategy.SectorHolding | Strategy/SharpeMaxStrategy.py:142-146 | an empty ticker list fails with ValueError, the concatenation of no price frames in `get_tickers_spec` (stock_extraction.py:94); on success one position per ranked ticker, in ranked order |
| SharpeMaxStrategy.SectorHoldings | Strategy/SharpeMaxStrategy.py:140-147 | on success one part per sector |
| SharpeMaxStrategy.SectorHoldingsNeedTickers | Strategy/SharpeMaxStrategy.py:140-147 | the sector loop succeeds only if every sector is in the target map with a non-empty list, so a sector cut to `ticker_list[:0]` by a zero quota ends the run |
| SharpeMaxStrategy.SectorHoldingsFailurePersists | Strategy/SharpeMaxStrategy.py:140-147 | a sector's failure is the loop's failure |
| SharpeMaxStrategy.SectorHoldingsExtend | Strategy/SharpeMaxStrategy.py:140-147 | one more round adds the next sector's part, or fails with its missing label or its error |
| SharpeMaxStrategy.SectorHoldingsLoop | Strategy/SharpeMaxStrategy.py:140-147 | the loop over the sectors computes SectorHoldings |
| SharpeMaxStrategy.Flatten | Strategy/SharpeMaxStrategy.py:150 | `pd.concat`: as long as all parts together, and a position is in it exactly when it is in some part |
| SharpeMaxStrategy.FlattenSlice | Strategy/SharpeMaxStrategy.py:150 | part k sits in one piece in the concatenation, right after the parts before it |
| SharpeMaxStrategy.NonZero | Strategy/SharpeMaxStrategy.py:151 | exactly the non-zero positions |
| SharpeMaxStrategy.NonZeroKeepsOrder | Strategy/SharpeMaxStrategy.py:151 | the filter keeps the order of the positions, and each non-zero position as often as it occurs |
| SharpeMaxStrategy.LocationOf | Strategy/SharpeMaxStrategy.py:156-162 | CA exactly for an SPTSX ticker, US exactly for an SPX-only ticker, missing otherwise |
| SharpeMaxStrategy.Locate | Strategy/SharpeMaxStrategy.py:154-163 | every position gets its location by that rule |
| SharpeMaxStrategy.HoldingTable | Strategy/SharpeMaxStrategy.py:150-165 | no part to concatenate fails; otherwise the table exists |
| SharpeMaxStrategy.HoldingTableSpec | Strategy/SharpeMaxStrategy.py:150-163 | the holding has exactly the non-zero (ticker, count) pairs of the sectors, and CA exactly for SPTSX tickers |
| SharpeMaxStrategy.HoldingTableOrder | Strategy/SharpeMaxStrategy.py:150-151 | the holding's (ticker, count) pairs are the sectors' positions in sector order with the zero counts removed, each non-zero pair as often as it occurs |
| SharpeMaxStrategy.DecideHolding | Strategy/SharpeMaxStrategy.py:150-165 | the location loop computes HoldingTable |
| SharpeMaxStrategy.ListingsOf | Strategy/SharpeMaxStrategy.py:73-80 | one (ticker, sector) row per table row when the table has the sector column, none otherwise |
| SharpeMaxStrategy.Stocks | Strategy/SharpeMaxStrategy.py:73-74 | the concatenated table, Canadian rows first; the sector column must exist in one of the two tables |
| SharpeMaxStrategy.MeansSpec | Strategy/SharpeMaxStrategy.py:94-101 | row i of `sharpe_mean` is sector i's mean |
| SharpeMaxStrategy.TargetsSpec | Strategy/SharpeMaxStrategy.py:96-102 | `target` has one key per sector, holding that sector's ranking |
| SharpeMaxStrategy.SelectAll | Strategy/SharpeMaxStrategy.py:78-102 | the loop over the sectors gives the means and targets of the specification |
| SharpeMaxStrategy.Allocation | Strategy/SharpeMaxStrategy.py:104-112 | on success the raw rounding succeeded and the result is its telecom-capped version |
| SharpeMaxStrategy.Develop | Strategy/SharpeMaxStrategy.py:66-70 | with no sector column in either table the run raises KeyError; a holding needs at least eleven sectors and has no zero count |
| SharpeMaxStrategy.TwoSectorScenario | Strategy/SharpeMaxStrategy.py:104-132 | ratios [1.5, 1, 0.5] and [2] give 1 and 3 picks and budgets 25000 and 75000 of 100000 |
| SharpeMaxStrategy.Strategy.constructor | Strategy/SharpeMaxStrategy.py:55-61 | the strategy takes the loader's tables and sector list and starts with nothing computed |
| SharpeMaxStrategy.Strategy.SelectPossibleStocks | Strategy/SharpeMaxStrategy.py:72-102 | records every sector's mean and ranking, or fails without changes |
| SharpeMaxStrategy.Strategy.DecideIndustryAllocation | Strategy/SharpeMaxStrategy.py:104-115 | records the capped allocation, or fails without changes |
| SharpeMaxStrategy.Strategy.ImposeQuota | Strategy/SharpeMaxStrategy.py:117-136 | the ranked lists are cut in place, so `target` holds the cuts made up to any failure; on success the budgets and the quota frame are recorded too, on failure they are unchanged |
| SharpeMaxStrategy.Strategy.DecideStockQuantity | Strategy/SharpeMaxStrategy.py:138-165 | records the located holding, or fails without changes |
| SharpeMaxStrategy.Strategy.DevelopStrategy | Strategy/SharpeMaxStrategy.py:66-70 | the four stages end Done exactly when the whole pipeline succeeds, with its holding; on a failure the holding is unchanged, and every other field holds what the stages before the failure recorded |
| VarianceMin.LoaderListsExtendScript | variance_min.py:16-32 | the loader's exclusion lists are the script's with the later additions at the end |
| VarianceMin.ScriptDropsLess | variance_min.py:33 | a sheet the loader's longer list can clean, the script's shorter list cleans too, keeping every row the loader keeps |
| VarianceMin.Indexed | variance_min.py:9-14 | the promoted, indexed frame is rectangular |
| VarianceMin.Read | variance_min.py:9-33 | the cleaned frame is rectangular |
| VarianceMin.ReadAfterIndexed | variance_min.py:37-53 | the cleaned sheet is the indexed one after the drop, and every surviving label was in the earlier snapshot |
| VarianceMin.ReadSpxWithList | variance_min.py:37-53 | `spx_list` holds every kept SPX label and every excluded one |
| VarianceMin.Trim | variance_min.py:67-74 | dropping the unused columns keeps the labels; the sector list is sorted and has no repeats |
| VarianceMin.Prepare | variance_min.py:9-74 | the cleaned tables are rectangular |
| VarianceMin.PrepareSpec | variance_min.py:9-74 | after cleaning, `sptsx_list` is the SPTSX index, `spx_list` also holds the dropped SPX tickers, and no excluded ticker is left |
| VarianceMin.ZeroOnFailure | variance_min.py:88-93 | a ratio counts as positive exactly when it was computed and is positive |
| VarianceMin.FailedScoresExcluded | variance_min.py:86-95 | a ticker whose ratio raises is never ranked; the others are ranked by non-increasing ratio |
| VarianceMin.ScriptHoldings | variance_min.py:164-170 | fewer than eleven sectors fail; a holding has exactly eleven parts |
| VarianceMin.ScriptHoldingsSpec | variance_min.py:164-170 | with exactly eleven sectors the script's holding loop is the strategy's; with fewer it fails |
| VarianceMin.ScriptHoldingLoop | variance_min.py:164-170 | the loop over eleven sectors computes ScriptHoldings |
| VarianceMin.HoldingFails | variance_min.py:164-170 | a failure in one of the first eleven sectors is the script's failure |
| VarianceMin.Pipeline | variance_min.py:76-183 | a holding from the script has no zero count |
| VarianceMin.PipelineIsStrategy | variance_min.py:76-183 | with eleven sectors and the late US list, the script computes what `develop_strategy` computes with the ratio taken as 0 on failure |
| VarianceMin.EarlyListTagsDropped | variance_min.py:174-183 | the early `spx_list` tags "US" a ticker dropped from the SPX table, which the late list leaves untagged |
| VarianceMin.Script | variance_min.py:9-183 | a holding needs the sheets to clean, and has no zero count |
| VarianceMin.Run | variance_min.py:9-183 | the script's statements in order compute Script |
| ProtectionBuffer.StopLabel | ProtectionBuffer/FullStopOrderBuffer.py:29 | ticker ++ "CA"/"US" with no separator; a NaN location raises TypeError |
| ProtectionBuffer.StopSide | ProtectionBuffer/FullStopOrderBuffer.py:26-30 | a stop sells exactly when the position is long |
| ProtectionBuffer.RecordFrame | ProtectionBuffer/FullStopOrderBuffer.py:29-34 | the intended one-row frame holds exactly the record |
| ProtectionBuffer.Concat | ProtectionBuffer/FullStopOrderBuffer.py:36 | no frames raise; any failing frame makes the result fail |
| ProtectionBuffer.ConcatRecords | ProtectionBuffer/FullStopOrderBuffer.py:36 | concatenating one-row frames gives the records back in order |
| ProtectionBuffer.ConcatAsWritten | ProtectionBuffer/FullStopOrderBuffer.py:23-36 | as written, no records leave nothing to concatenate; otherwise the first record ends the loop, with its own error or with its frame's ValueError |
| FullStopOrderBuffer.FullOrder | ProtectionBuffer/FullStopOrderBuffer.py:24-34 | one row's record exists exactly when its location does; otherwise TypeError |
| FullStopOrderBuffer.FullOrders | ProtectionBuffer/FullStopOrderBuffer.py:23-35 | on success one record per holding row |
| FullStopOrderBuffer.FullBuffer | ProtectionBuffer/FullStopOrderBuffer.py:20-36 | an empty holding leaves nothing to concatenate; otherwise the buffer is the records, or the first row's failure |
| FullStopOrderBuffer.FullBufferAsWrittenFails | ProtectionBuffer/FullStopOrderBuffer.py:20-36 | as written, an empty holding leaves nothing to concatenate, and otherwise the first row raises: TypeError without a location, ValueError from its frame with one |
| FullStopOrderBuffer.FullOrdersSucceed | ProtectionBuffer/FullStopOrderBuffer.py:23-35 | with every location present every row gets its record |
| FullStopOrderBuffer.FullOrdersAt | ProtectionBuffer/FullStopOrderBuffer.py:23-35 | record k of a successful run is row k's record |
| FullStopOrderBuffer.FullOrdersSpec | ProtectionBuffer/FullStopOrderBuffer.py:23-35 | records exist exactly when every location does, in holding order |
| FullStopOrderBuffer.FullBufferSpec | ProtectionBuffer/FullStopOrderBuffer.py:20-36 | one order per row in holding order, with quantity \|amount\|, a sell exactly for a long position, type STOP, stop price price·(1−tolerance) and label ticker ++ location |
| FullStopOrderBuffer.FullOrdersFailurePersists | ProtectionBuffer/FullStopOrderBuffer.py:23-36 | the first row without a location is the buffer's failure |
| FullStopOrderBuffer.FullStopBuffer.constructor | ProtectionBuffer/ProtectionBuffer.py:7-14 | holding and tolerance are stored and the buffer starts empty |
| FullStopOrderBuffer.FullStopBuffer.CreateBuffer | ProtectionBuffer/FullStopOrderBuffer.py:20-36 | the loop stores FullBuffer's orders, or fails and leaves the buffer |
| LadderStopOrderBuffer.Dispatch | ProtectionBuffer/LadderStopOrderBuffer.py:23-30 | "equal" and "geom" select their scheme and nothing else does |
| LadderStopOrderBuffer.RatioStrictlyDecreasing | ProtectionBuffer/LadderStopOrderBuffer.py:72 | with a positive tolerance deeper layers sit strictly lower |
| LadderStopOrderBuffer.LastRatio | ProtectionBuffer/LadderStopOrderBuffer.py:72 | the last layer sits at 1 − tolerance |
| LadderStopOrderBuffer.DivPow2 | ProtectionBuffer/LadderStopOrderBuffer.py:58 | `round(abs(q) / 2 ** i)` is never negative |
| LadderStopOrderBuffer.Carried | ProtectionBuffer/LadderStopOrderBuffer.py:57-58 | after at least one layer the amount carried is never negative |
| LadderStopOrderBuffer.LayerQuantity | ProtectionBuffer/LadderStopOrderBuffer.py:39-40 | a "geom" layer never has a negative quantity |
| LadderStopOrderBuffer.LayerSide | ProtectionBuffer/LadderStopOrderBuffer.py:39-41 | under both schemes layer 1 sells exactly for a long position |
| LadderStopOrderBuffer.DivPow2AtMost | ProtectionBuffer/LadderStopOrderBuffer.py:58 | dividing by 2^i never gives more than the amount divided |
| LadderStopOrderBuffer.SingleOrder | ProtectionBuffer/LadderStopOrderBuffer.py:70-80 | a layer's record exists exactly when the row's location does; otherwise TypeError |
| LadderStopOrderBuffer.Layers | ProtectionBuffer/LadderStopOrderBuffer.py:43-47 | on success n layers for one row; a failure is TypeError |
| LadderStopOrderBuffer.LayersSpec | ProtectionBuffer/LadderStopOrderBuffer.py:43-47 | a row's layers exist exactly when its location does, and layer i is that layer's record |
| LadderStopOrderBuffer.LayersFailurePersists | ProtectionBuffer/LadderStopOrderBuffer.py:57-66 | once a layer fails the row fails the same way |
| LadderStopOrderBuffer.RowOrders | ProtectionBuffer/LadderStopOrderBuffer.py:36-47 | a row's orders exist unless "equal" has zero layers (NotFinite) or the row needs a layer and has no location (TypeError); there are `layer` of them, none for fewer than one layer |
| LadderStopOrderBuffer.LadderOrders | ProtectionBuffer/LadderStopOrderBuffer.py:36-47 | a failure needs a row, and is NotFinite for zero layers and TypeError otherwise; fewer than one layer gives no orders |
| LadderStopOrderBuffer.LadderOrdersFailurePersists | ProtectionBuffer/LadderStopOrderBuffer.py:36-47 | a row's failure is the buffer's failure |
| LadderStopOrderBuffer.LadderOrdersSucceed | ProtectionBuffer/LadderStopOrderBuffer.py:36-47 | with every location present and at least one layer every row gets its layers |
| LadderStopOrderBuffer.LadderOrdersCount | ProtectionBuffer/LadderStopOrderBuffer.py:36-47 | there are `layer` orders per row |
| LadderStopOrderBuffer.LadderOrdersSpec | ProtectionBuffer/LadderStopOrderBuffer.py:36-47 | the orders exist exactly when every row has a location, `layer` per row |
| LadderStopOrderBuffer.LadderOrdersLast | ProtectionBuffer/LadderStopOrderBuffer.py:54-66 | the orders are those of the earlier rows, then the last row's layers |
| LadderStopOrderBuffer.LadderOrdersAt | ProtectionBuffer/LadderStopOrderBuffer.py:36-47 | order layer·k + i − 1 is layer i of row k |
| LadderStopOrderBuffer.LadderBuffer | ProtectionBuffer/LadderStopOrderBuffer.py:32-66 | the buffer is the orders when there are some; no orders leave nothing to concatenate; a failure passes through |
| LadderStopOrderBuffer.RowRecords | ProtectionBuffer/LadderStopOrderBuffer.py:36-47 | as written, a row with at least one layer gives `layer` records, the first being layer 1's; no layer gives none |
| LadderStopOrderBuffer.NoLayersNoRecords | ProtectionBuffer/LadderStopOrderBuffer.py:43-44 | with no layer to build, no row contributes a record |
| LadderStopOrderBuffer.LadderBufferAsWrittenFails | ProtectionBuffer/LadderStopOrderBuffer.py:32-80 | as written, neither scheme yields a buffer: with a layer to build, the first row raises TypeError without a location and ValueError from its frame with one; "equal" with zero layers fails on its division; otherwise nothing is left to concatenate |
| LadderStopOrderBuffer.EqualShares | ProtectionBuffer/LadderStopOrderBuffer.py:39-40 | every "equal" layer carries round(\|a\| / layer) ≥ 0 shares, selling exactly for a long position |
| LadderStopOrderBuffer.GeomQuantitiesShrink | ProtectionBuffer/LadderStopOrderBuffer.py:57-61 | "geom": the first layer takes at most the position, each later layer at most the one before, and none is negative |
| LadderStopOrderBuffer.GeomSides | ProtectionBuffer/LadderStopOrderBuffer.py:58-59 | "geom": layer 1 sells exactly for a long position, and a later layer sells exactly when the amount left is non-zero |
| LadderStopOrderBuffer.GeomExample | ProtectionBuffer/LadderStopOrderBuffer.py:57-61 | 64 shares in three layers give 32, 8 and 0, because each layer divides what the previous one left |
| LadderStopOrderBuffer.LadderStopBuffer.constructor | ProtectionBuffer/LadderStopOrderBuffer.py:10-15 | holding, tolerance, layer count and scheme are stored; the buffer starts empty |
| LadderStopOrderBuffer.LadderStopBuffer.CreateBuffer | ProtectionBuffer/LadderStopOrderBuffer.py:23-30 | an unknown scheme leaves the buffer; a known one stores its buffer or fails without change |
| LadderStopOrderBuffer.LadderStopBuffer.SingleBuffer | ProtectionBuffer/LadderStopOrderBuffer.py:70-80 | `__single_buffer` builds the layer's record |
| LadderStopOrderBuffer.LadderStopBuffer.Store | ProtectionBuffer/LadderStopOrderBuffer.py:48 | the concatenation is stored, or no orders fail |
| LadderStopOrderBuffer.LadderStopBuffer.EqualBuffer | ProtectionBuffer/LadderStopOrderBuffer.py:32-48 | the nested loops store the "equal" buffer, or fail and leave it |
| LadderStopOrderBuffer.LadderStopBuffer.EqualLayers | ProtectionBuffer/LadderStopOrderBuffer.py:36-47 | one row's "equal" layers, with zero layers failing the division |
| LadderStopOrderBuffer.LadderStopBuffer.GeometricHalfBuffer | ProtectionBuffer/LadderStopOrderBuffer.py:50-68 | the nested loops store the "geom" buffer, or fail and leave it |
| LadderStopOrderBuffer.LadderStopBuffer.GeometricLayers | ProtectionBuffer/LadderStopOrderBuffer.py:54-66 | dividing `amount` by 2^i at layer i, and once more by 2^layer at the last, gives the "geom" layers of one row |
| DataStorer.BasketLabel | DataProcessor/DataStorer.py:17 | ticker ++ "-" ++ location; NaN exactly for a NaN location |
| DataStorer.MarketSide | DataProcessor/DataStorer.py:19 | a buy exactly for a positive amount |
| DataStorer.Basket | DataProcessor/DataStorer.py:16-21 | one MKT order per holding row, buying exactly for a positive amount, for \|amount\| shares, labelled ticker-location |
| DataStorer.BasketRoundTrip | DataProcessor/DataStorer.py:19-20 | side and quantity give back every signed amount, zero included |
| DataStorer.OppositeSides | DataProcessor/DataStorer.py:19 | a row's market order and its stop order always take opposite sides |
| DataStorer.BasketLabelNormalizes | DataProcessor/DataStorer.py:17 | the loader's normalisation turns a basket label back into its dash-free ticker |
| DataStorer.LabelsAgree | DataProcessor/DataStorer.py:17 | the basket label and the stop label differ only in the dash |

## Left out

- Spreadsheet reads and writes (`read_excel`, `to_excel`, `writer.save`), `store_hold`, `_store_allocation` and the `_store_online` stub are I/O. A sheet arrives as its grid of cells, and the basket is the result.
- `DataStorer` never sets `self.writer`, and the model has no writer at all.
- Market data (`se.get_daily_stock`, `get_tickers_spec`, `get_current_price`) is foreign I/O. It appears as the `price`, `score` and `MarketData` inputs.
- `scipy.optimize.minimize` and its two passes are foreign numerical code. The weights are what `MarketData.solve` returns, and the lemmas about them assume the simplex.
- Float numerics: the fractional power, `std` and `sqrt(252)` are uninterpreted. Float rounding error is not modelled; arithmetic is exact over `real`.
- `np.random.randint` is the `draws` input.
- `print`, `tqdm`, `gc.collect` and the `__str__` methods have no effect on the results.
- The `print(_sharpe_portfolio(stock_prices, quantity))` diagnostic in `_optimize_weight` is left out.
- `cagr` also returns the frame of returns; every caller takes only `[0]`, so the model returns only the rate.
- SharpeMaxStrategy.Strategy: a ticker with zero volatility and a positive excess return gets an infinite ratio in Python, which then passes `sharpe > 0` and is ranked first. A real-valued `score` cannot express this.
- SharpeMaxStrategy.Strategy.SelectPossibleStocks: `kpi.sharpe` is called without a `try` (Strategy/SharpeMaxStrategy.py:84-85), so a download or ratio that raises aborts the whole selection in Python. The total `score` cannot express that failure.
- SharpeMaxStrategy.RankDescending: argsort is modelled as a stable ascending sort then a reversal. That is numpy's order for up to sixteen entries; for longer lists numpy's tie order is not modelled, only the non-increasing order.
- SharpeMaxStrategy.Strategy.DecideIndustryAllocation: the source concatenates the allocation into the loader's `industry_df`. The model keeps it in the strategy's `allocation` field, so the sharing of the loader's frame is not modelled.
- SharpeMaxStrategy.Strategy.constructor: the strategy copies the loader's tables once, where Python holds a reference to the loader.
- SharpeMaxStrategy.Strategy.ImposeQuota: sector `i`'s budget is read by position, where Python reads `industry_df["money"][ind]` by label. The two agree because the sector list is that frame's index.
- SharpeMaxStrategy.CapTelecom: `allocation[0]["Telecommunication Services"] = 4` is taken to write through. Under pandas copy-on-write it would not.
- SharpeMaxStrategy.Strategy.ImposeQuota uses the corrected quota source (see Findings).
- numpy `int64` overflow in `.astype(int)` is not modelled, since counts are unbounded integers.
- Both stop buffers read `holding.loc[ticker, …]` on a holding whose index is positional after `reset_index`. In Python this fails unless the labels happen to match. The model reads each row directly.
- DataLoader.DropRows: the KeyError carries the first missing label; pandas lists every missing label.
- DataLoader.CountIndustry: `groupby(...).count()` counts non-null cells column by column. The model counts rows per sector, one count per sector.
- A sector cell that is NaN is left out: sector cells are text.
- LadderStopOrderBuffer.RowOrders: with zero layers, "equal" divides by zero, and `round` then refuses the infinite or NaN share (NotFinite). "geom" builds nothing. A negative layer count builds no layers.
- SharpeMaxStrategy.Strategy.ImposeQuota: when every sector's allocation rounds to zero (few picks over many sectors), each budget is `0/0`. Python cuts every list to its zero quota, writes NaN money and finishes the stage; it then fails in stage 4 inside `get_tickers_spec([])`, which is not part of this model. The model stops in stage 3 with NotFinite and keeps the cut lists.
- Kpi.MaxDrawdownSeries: a +inf drawdown makes pandas return +inf. The model gives NotFinite, since the result is a real number.
- Kpi.CalmarSeries: with a +inf drawdown Python divides a finite growth rate by +inf and gets 0. The model gives NotFinite.
- Kpi.CagrSeries: a zero first price gives inf or NaN in Python. The model gives NotFinite.
- Kpi.Quot: a zero divisor gives ±inf or NaN in numpy. The model gives NotFinite, and every ratio then has no value.
- Kpi.FloatOps: `pow` of a negative base to a fractional exponent is NaN in numpy. `ops.pow` is an uninterpreted real function and does not capture this.
- Kpi.Std: pandas gives NaN for fewer than two numbers. That case lies inside the uninterpreted `ops.std`.
- Plotting (`Visualizer`, `holdings.py`), `Toolbox/technical_indicator.py`, `main.py`, `Strategy.py`, `OptionBuffer`, `StopOrderBuffer` and `DataCleaner` are not part of this model.

## Findings

| source | as written | input that shows it | evidently intended | confidence | as-written member | corrected member |
|---|---|---|---|---|---|---|
| Strategy/SharpeMaxStrategy.py:119-125 | `_impose_quota` reads each quota from `self.industry_allocation`, which only the constructor assigns, to an empty frame (line 60) | any run: `develop_strategy` reaches `allocation.loc[ind, "allocation"]` on an empty frame, which raises KeyError | read the capped "allocation" column that `_decide_industry_allocation` builds (lines 113-115) | not executed | SharpeMaxStrategy.QuotasOfEmptyFrameFail | SharpeMaxStrategy.QuotasSpec |
| ProtectionBuffer/FullStopOrderBuffer.py:29-34 | each record's `pd.DataFrame({...})` is built from scalars alone, with no index | a holding row ("AAPL", 10, "US"): pandas raises ValueError ("If using all scalar values, you must pass an index") | one one-row frame per record, concatenated in holding order | not executed | FullStopOrderBuffer.FullBufferAsWrittenFails | FullStopOrderBuffer.FullBufferSpec |
| ProtectionBuffer/LadderStopOrderBuffer.py:74-80 | `__single_buffer` builds its frame from scalars alone, with no index | the same row with `layer = 1` under "equal" or "geom" raises ValueError | one one-row frame per layer, concatenated | not executed | LadderStopOrderBuffer.LadderBufferAsWrittenFails | LadderStopOrderBuffer.LadderOrdersSpec |
