/** The research script that runs the stock picker from top to bottom: it
    cleans the three constituent sheets, counts the sectors, ranks every
    sector's tickers, allocates and caps the picks, imposes the quotas and
    builds the located holding. It does what the strategy class does, with
    these differences: a ratio that cannot be computed counts as 0; the first
    SPTSX and SPX exclusion lists are shorter; the quota and holding loops
    visit exactly eleven sectors; the US ticker list is taken before the SPX
    drop. Market data, the optimiser and the random draws are inputs. */
module VarianceMin {
  import opened Wrappers
  import opened Holding
  import opened SharpeMaxStrategy
  import DataLoader

  const StockNum: int := 100
  const Money: int := 1000000

  const SptsxExclusions: seq<string> := [
    "ABX", "ACO.X", "AD", "AFN", "ALA", "AP.UT", "APHA", "ARX",
    "ATD", "ATZ", "AX.UT", "BAM.A", "BBD.B", "BBU.UT", "BCB", "BEI.UT",
    "BEP.UT", "BIP.UT", "BPY.UT", "BTE", "BYD.UT", "CAR.UT", "CAS", "CCA",
    "CCL.B", "CFP", "CGX", "CHE.UT", "CHP.UT", "CHR", "CJT", "CNR",
    "CPX", "CRR.UT", "CSH.UT", "CSU", "CTC.A", "CU", "CUF.UT", "D.UT",
    "DGC", "DIR.UT", "DRG.UT", "DSG", "ECA", "ECN", "EFN", "EIF",
    "EMA", "EMP.A", "EQB", "EXE", "FCR", "FEC", "FFH", "FRU",
    "FTT", "GC", "GEI", "GIB.A", "GRT.UT", "GUD", "GWO", "HBC",
    "HCG", "HR.UT", "HSE", "IFC", "IFP", "IIP.UT", "IMG", "INE",
    "IPL", "IVN", "KL", "KMP.UT", "KXS", "LB", "LIF", "LNR",
    "LUN", "MFI", "MIC", "MRE", "MRU", "MTY", "MWC", "NFI",
    "NPI", "NVU.UT", "NWH.UT", "OGC", "ONEX", "OSB", "PVG", "PWF",
    "PXT", "QBR.B", "RCH", "RCI.B", "REI.UT", "RUS", "SIA", "SJR.B",
    "SMF", "SMU.UT", "SNC", "SRU.UT", "TCL.A", "TECK.B", "TIH", "TOU",
    "TOY", "TSGI", "WCP", "WDO", "WFT", "WJA", "WN", "WPK",
    "WSP", "WTE", "YRI"]

  const SpxExclusions: seq<string> := [
    "ADS", "AGN", "ALXN", "ANTM", "BBT", "BF.B", "BHGE", "BLL",
    "BRK.B", "CBS", "CELG", "CERN", "COG", "CTL", "CXO", "DISCA",
    "DISCK", "ETFC", "FLIR", "HFC", "INFO", "JEC", "KSU",
    "LB", "MXIM", "MYL", "NBL", "PBCT", "RTN", "STI", "SYMC",
    "TIF", "UTX", "VAR", "VIAB", "WCG", "WLTW", "XEC", "XLNX",
    "T"]

  /** The loader's lists are the script's, with the later additions at the end. */
  lemma LoaderListsExtendScript()
    ensures DataLoader.SptsxExclusions == SptsxExclusions + ["MTL", "IAG"]
    ensures DataLoader.SpxExclusions == SpxExclusions + ["NLSN", "TWTR", "CTXS"]
    ensures DataLoader.EtfExclusions == ["XCB", "XGB", "XSB", "IEMG.K", "XIC", "XIU"]
  {
  }

  /** A sheet that the loader can clean, the script can clean too. */
  lemma ScriptDropsLess(f: DataLoader.Frame, short: seq<string>, extra: seq<string>)
    requires DataLoader.DropRows(f, short + extra).Ok?
    ensures DataLoader.DropRows(f, short).Ok?
    ensures forall x :: x in DataLoader.DropRows(f, short + extra).value.rows ==> x in DataLoader.DropRows(f, short).value.rows
  {
    forall l | l in short
      ensures l in DataLoader.Labels(f)
    {
      assert l in short + extra;
    }
  }

  // ---------------------------------------------------------------------
  // Lines 9-74: cleaning and counting

  /** Promote the header and index by the normalised ticker column: the
      frame before the drop. */
  function Indexed(g: DataLoader.Grid, col: string): (r: Result<DataLoader.Frame>)
    requires DataLoader.Rectangular(g)
    ensures r.Ok? ==> DataLoader.FrameShape(r.value)
  {
    match DataLoader.Promote(g)
    case Err(e) => Err(e)
    case Ok(t) => DataLoader.IndexBy(t, col)
  }

  /** A sheet cleaned as the script cleans it: the unused column is dropped
      later, after the snapshots. */
  function Read(g: DataLoader.Grid, col: string, exclusions: seq<string>): (r: Result<DataLoader.Frame>)
    requires DataLoader.Rectangular(g)
    ensures r.Ok? ==> DataLoader.FrameShape(r.value)
  {
    DataLoader.ReadSheet(g, col, exclusions, None)
  }

  /** The cleaned sheet is the indexed one after the drop: a failure before
      the drop is the sheet's failure, and every label that survives the drop
      was in the earlier snapshot. */
  lemma ReadAfterIndexed(g: DataLoader.Grid, col: string, exclusions: seq<string>)
    requires DataLoader.Rectangular(g)
    ensures Indexed(g, col).Err? ==> Read(g, col, exclusions) == Indexed(g, col)
    ensures Indexed(g, col).Ok? ==> Read(g, col, exclusions) == DataLoader.DropRows(Indexed(g, col).value, exclusions)
    ensures Read(g, col, exclusions).Ok? ==> Indexed(g, col).Ok?
    ensures Read(g, col, exclusions).Ok? ==>
      forall l :: l in DataLoader.Labels(Read(g, col, exclusions).value) ==> l in DataLoader.Labels(Indexed(g, col).value)
  {
    if Read(g, col, exclusions).Ok? {
      var f := Indexed(g, col).value;
      var kept := Read(g, col, exclusions).value;
      forall l | l in DataLoader.Labels(kept)
        ensures l in DataLoader.Labels(f)
      {
        var i :| 0 <= i < |kept.rows| && kept.rows[i].ticker == l;
        assert kept.rows[i] in f.rows;
        var j :| 0 <= j < |f.rows| && f.rows[j] == kept.rows[i];
        assert DataLoader.Labels(f)[j] == l;
      }
    }
  }

  /** What the cleaning leaves for the rest of the script: the two tables
      without their unused columns, `sptsx_list`, `spx_list` and the sector
      list. */
  datatype Universe = Universe(sptsx: DataLoader.Frame, spx: DataLoader.Frame,
                               sptsxList: seq<string>, spxList: seq<string>, sectors: seq<string>)

  predicate Shaped(u: Universe)
  {
    DataLoader.FrameShape(u.sptsx) && DataLoader.FrameShape(u.spx)
  }

  /** Lines 37-53: the SPX sheet cleaned, with `spx_list` taken between
      `set_index` and the drop, so it still holds the dropped tickers. */
  function ReadSpxWithList(g: DataLoader.Grid): (r: Result<(DataLoader.Frame, seq<string>)>)
    requires DataLoader.Rectangular(g)
    ensures r.Ok? ==> DataLoader.FrameShape(r.value.0)
    ensures r.Ok? ==> forall l :: l in DataLoader.Labels(r.value.0) ==> l in r.value.1 && l !in SpxExclusions
    ensures r.Ok? ==> forall l :: l in SpxExclusions ==> l in r.value.1
  {
    ReadAfterIndexed(g, DataLoader.UsTickerColumn, SpxExclusions);
    match Read(g, DataLoader.UsTickerColumn, SpxExclusions)
    case Err(e) => Err(e)
    case Ok(spx) => Ok((spx, DataLoader.Labels(Indexed(g, DataLoader.UsTickerColumn).value)))
  }

  /** Lines 67-74: drop the unused columns, count each table's sectors and
      keep the sorted union of the sector names. */
  function Trim(sptsx: DataLoader.Frame, spx: DataLoader.Frame, spxList: seq<string>): (r: Result<Universe>)
    requires DataLoader.FrameShape(sptsx) && DataLoader.FrameShape(spx)
    ensures r.Ok? ==> Shaped(r.value) && r.value.spxList == spxList
    ensures r.Ok? ==> r.value.sptsxList == DataLoader.Labels(sptsx) == DataLoader.Labels(r.value.sptsx)
    ensures r.Ok? ==> DataLoader.Labels(r.value.spx) == DataLoader.Labels(spx)
    ensures r.Ok? ==> DataLoader.SectorColumn in r.value.sptsx.columns && DataLoader.SectorColumn in r.value.spx.columns
    ensures r.Ok? ==> DataLoader.Sorted(r.value.sectors) && DataLoader.Distinct(r.value.sectors)
  {
    match DataLoader.DropColumn(sptsx, DataLoader.SptsxUnused)
    case Err(e) => Err(e)
    case Ok(trimmedSptsx) =>
      match DataLoader.SectorsOf(trimmedSptsx)
      case Err(e) => Err(e)
      case Ok(a) =>
        match DataLoader.DropColumn(spx, DataLoader.SpxUnused)
        case Err(e) => Err(e)
        case Ok(trimmedSpx) =>
          match DataLoader.SectorsOf(trimmedSpx)
          case Err(e) => Err(e)
          case Ok(b) =>
            Ok(Universe(trimmedSptsx, trimmedSpx, DataLoader.Labels(sptsx), spxList, DataLoader.CountIndustry(a, b).index))
  }

  /** Lines 9-74, in the script's order; the first failure ends the run. */
  function Prepare(sptsxSheet: DataLoader.Grid, spxSheet: DataLoader.Grid, etfSheet: DataLoader.Grid)
    : (r: Result<Universe>)
    requires DataLoader.Rectangular(sptsxSheet) && DataLoader.Rectangular(spxSheet) && DataLoader.Rectangular(etfSheet)
    ensures r.Ok? ==> Shaped(r.value)
  {
    match Read(sptsxSheet, DataLoader.TickerColumn, SptsxExclusions)
    case Err(e) => Err(e)
    case Ok(sptsx) =>
      match ReadSpxWithList(spxSheet)
      case Err(e) => Err(e)
      case Ok(spx) =>
        match Read(etfSheet, DataLoader.TickerColumn, DataLoader.EtfExclusions)
        case Err(e) => Err(e)
        case Ok(_) => Trim(sptsx, spx.0, spx.1)
  }

  /** After cleaning: `sptsx_list` is the SPTSX index after its drop, and
      `spx_list` holds every SPX label that survived its drop and every
      excluded one; no excluded ticker is left in either table. */
  lemma PrepareSpec(sptsxSheet: DataLoader.Grid, spxSheet: DataLoader.Grid, etfSheet: DataLoader.Grid)
    requires DataLoader.Rectangular(sptsxSheet) && DataLoader.Rectangular(spxSheet) && DataLoader.Rectangular(etfSheet)
    requires Prepare(sptsxSheet, spxSheet, etfSheet).Ok?
    ensures var u := Prepare(sptsxSheet, spxSheet, etfSheet).value;
      && u.sptsxList == DataLoader.Labels(u.sptsx)
      && (forall l :: l in DataLoader.Labels(u.spx) ==> l in u.spxList && l !in SpxExclusions)
      && (forall l :: l in SpxExclusions ==> l in u.spxList)
      && (forall l :: l in u.sptsxList ==> l !in SptsxExclusions)
      && DataLoader.SectorColumn in u.sptsx.columns && DataLoader.SectorColumn in u.spx.columns
      && DataLoader.Sorted(u.sectors) && DataLoader.Distinct(u.sectors)
  {
    var sptsx := Read(sptsxSheet, DataLoader.TickerColumn, SptsxExclusions).value;
    var spx := ReadSpxWithList(spxSheet).value;
    assert Prepare(sptsxSheet, spxSheet, etfSheet) == Trim(sptsx, spx.0, spx.1);
  }

  // ---------------------------------------------------------------------
  // Lines 76-123: ranking, allocation, quota

  /** `sharpe = 0` before the `try`: a ratio that fails to compute stays 0. */
  function ZeroOnFailure(score: string -> Result<real>): (f: string -> real)
    ensures forall t :: f(t) > 0.0 <==> score(t).Ok? && score(t).value > 0.0
  {
    t => if score(t).Ok? then score(t).value else 0.0
  }

  /** A ticker whose ratio fails is never ranked; the others are ranked by
      their ratio exactly as the strategy ranks them. */
  lemma FailedScoresExcluded(stocks: seq<Listing>, sector: string, score: string -> Result<real>)
    ensures var r := RankedSector(stocks, sector, ZeroOnFailure(score));
      && (forall t :: t in r <==> Listing(t, sector) in stocks && score(t).Ok? && score(t).value > 0.0)
      && (forall i :: 0 <= i < |r| ==> score(r[i]).Ok?)
      && (forall i, j :: 0 <= i < j < |r| ==> score(r[i]).value >= score(r[j]).value)
  {
    var f := ZeroOnFailure(score);
    RankedSectorSpec(stocks, sector, f);
    var r := RankedSector(stocks, sector, f);
    forall t | t in r
      ensures score(t).Ok? && f(t) == score(t).value
    {
      assert f(t) > 0.0;
    }
    forall i | 0 <= i < |r|
      ensures score(r[i]).Ok?
    {
      assert r[i] in r;
    }
    forall i, j | 0 <= i < j < |r|
      ensures score(r[i]).value >= score(r[j]).value
    {
      assert r[i] in r && r[j] in r;
    }
  }

  // ---------------------------------------------------------------------
  // Lines 164-183: holding

  /** `for i in range(11)`: the first eleven sectors get a holding; fewer
      than eleven fail `industry_list[i]` once they run out. */
  function ScriptHoldings(sectors: seq<string>, target: map<string, seq<string>>, budgets: seq<real>, m: MarketData)
    : (r: Result<seq<seq<Position>>>)
    ensures |sectors| < QuotaSectors ==> r.Err?
    ensures r.Ok? ==> |r.value| == QuotaSectors
  {
    if |sectors| < QuotaSectors then
      match SectorHoldings(sectors, target, budgets, m)
      case Err(e) => Err(e)
      case Ok(_) => Err(IndexError)
    else SectorHoldings(sectors[..QuotaSectors], target, budgets, m)
  }

  /** With exactly eleven sectors the script's loop is the strategy's; with
      more, the sectors past the eleventh get no holding; with fewer, it fails. */
  lemma ScriptHoldingsSpec(sectors: seq<string>, target: map<string, seq<string>>, budgets: seq<real>, m: MarketData)
    ensures |sectors| == QuotaSectors ==> ScriptHoldings(sectors, target, budgets, m) == SectorHoldings(sectors, target, budgets, m)
    ensures |sectors| < QuotaSectors ==> ScriptHoldings(sectors, target, budgets, m).Err?
    ensures ScriptHoldings(sectors, target, budgets, m).Ok? ==> |ScriptHoldings(sectors, target, budgets, m).value| == QuotaSectors
  {
    if |sectors| == QuotaSectors {
      assert sectors[..QuotaSectors] == sectors;
    }
  }

  /** The holding loop of lines 164-170. */
  method ScriptHoldingLoop(sectors: seq<string>, target: map<string, seq<string>>, budgets: seq<real>, m: MarketData)
    returns (r: Result<seq<seq<Position>>>)
    ensures r == ScriptHoldings(sectors, target, budgets, m)
  {
    var parts: seq<seq<Position>> := [];
    for i := 0 to QuotaSectors
      invariant i <= |sectors|
      invariant SectorHoldings(sectors[..i], target, budgets, m) == Ok(parts)
    {
      if i >= |sectors| {
        ShortScript(sectors, target, budgets, m, parts);
        return Err(IndexError);
      }
      var ind := sectors[i];
      if ind !in target || i >= |budgets| {
        ScriptLookupFails(sectors, target, budgets, m, i, parts);
        return Err(KeyError(ind));
      }
      var sector := SectorHolding(target[ind], budgets[i], m);
      ScriptStep(sectors, target, budgets, m, i, parts);
      if sector.Err? {
        return Err(sector.error);
      }
      parts := parts + [sector.value];
    }
    FullScript(sectors, target, budgets, m, parts);
    return Ok(parts);
  }

  /** Round `i` of the loop finds no list or no budget for its sector. */
  lemma ScriptLookupFails(sectors: seq<string>, target: map<string, seq<string>>, budgets: seq<real>, m: MarketData,
                          i: nat, parts: seq<seq<Position>>)
    requires i < |sectors| && i < QuotaSectors && SectorHoldings(sectors[..i], target, budgets, m) == Ok(parts)
    requires sectors[i] !in target || i >= |budgets|
    ensures ScriptHoldings(sectors, target, budgets, m) == Err(KeyError(sectors[i]))
  {
    SectorHoldingsExtend(sectors, target, budgets, m, i, parts);
    HoldingFails(sectors, target, budgets, m, i + 1);
  }

  /** Round `i` of the loop: its sector's holding either ends the script with
      its error or extends the parts. */
  lemma ScriptStep(sectors: seq<string>, target: map<string, seq<string>>, budgets: seq<real>, m: MarketData,
                   i: nat, parts: seq<seq<Position>>)
    requires i < |sectors| && i < QuotaSectors && SectorHoldings(sectors[..i], target, budgets, m) == Ok(parts)
    requires sectors[i] in target && i < |budgets|
    ensures var h := SectorHolding(target[sectors[i]], budgets[i], m);
      && (h.Err? ==> ScriptHoldings(sectors, target, budgets, m) == Err(h.error))
      && (h.Ok? ==> SectorHoldings(sectors[..i + 1], target, budgets, m) == Ok(parts + [h.value]))
  {
    SectorHoldingsExtend(sectors, target, budgets, m, i, parts);
    if SectorHolding(target[sectors[i]], budgets[i], m).Err? {
      HoldingFails(sectors, target, budgets, m, i + 1);
    }
  }

  /** The loop ran out of sectors before the eleventh. */
  lemma ShortScript(sectors: seq<string>, target: map<string, seq<string>>, budgets: seq<real>, m: MarketData,
                    parts: seq<seq<Position>>)
    requires |sectors| < QuotaSectors && SectorHoldings(sectors[..|sectors|], target, budgets, m) == Ok(parts)
    ensures ScriptHoldings(sectors, target, budgets, m) == Err(IndexError)
  {
    assert sectors[..|sectors|] == sectors;
  }

  /** The loop went through all eleven sectors. */
  lemma FullScript(sectors: seq<string>, target: map<string, seq<string>>, budgets: seq<real>, m: MarketData,
                   parts: seq<seq<Position>>)
    requires QuotaSectors <= |sectors| && SectorHoldings(sectors[..QuotaSectors], target, budgets, m) == Ok(parts)
    ensures ScriptHoldings(sectors, target, budgets, m) == Ok(parts)
  {
  }

  /** A failure in one of the first eleven sectors is the script's failure. */
  lemma HoldingFails(sectors: seq<string>, target: map<string, seq<string>>, budgets: seq<real>, m: MarketData, n: nat)
    requires n <= |sectors| && n <= QuotaSectors && SectorHoldings(sectors[..n], target, budgets, m).Err?
    ensures ScriptHoldings(sectors, target, budgets, m) == SectorHoldings(sectors[..n], target, budgets, m)
  {
    if |sectors| < QuotaSectors {
      SectorHoldingsFailurePersists(sectors, target, budgets, m, n);
    } else {
      var first := sectors[..QuotaSectors];
      assert first[..n] == sectors[..n];
      SectorHoldingsFailurePersists(first, target, budgets, m, n);
    }
  }

  // ---------------------------------------------------------------------
  // The whole script

  /** Lines 76-183 on a cleaned universe: the strategy's stages, with
      failing ratios counted as 0, eleven sectors and the early `spx_list`. */
  function Pipeline(u: Universe, score: string -> Result<real>, draws: nat -> int, m: MarketData)
    : (r: Result<seq<HoldingRow>>)
    requires Shaped(u)
    ensures r.Ok? ==> forall i :: 0 <= i < |r.value| ==> r.value[i].amount != 0
  {
    match Stocks(u.sptsx, u.spx)
    case Err(e) => Err(e)
    case Ok(stocks) =>
      var ratio := ZeroOnFailure(score);
      match Allocation(u.sectors, StockNum, Means(stocks, u.sectors, ratio), draws)
      case Err(e) => Err(e)
      case Ok(alloc) =>
        match Quotas(u.sectors, AllocationFrame(u.sectors, alloc), Targets(u.sectors, Ranking(stocks, ratio)), QuotaSectors)
        case Err(e) => Err(e)
        case Ok(t) =>
          match Budgets(Money as real, alloc)
          case Err(e) => Err(e)
          case Ok(b) =>
            match ScriptHoldings(u.sectors, t, b, m)
            case Err(e) => Err(e)
            case Ok(parts) => HoldingTable(parts, u.sptsxList, u.spxList)
  }

  function Script(sptsxSheet: DataLoader.Grid, spxSheet: DataLoader.Grid, etfSheet: DataLoader.Grid,
                  score: string -> Result<real>, draws: nat -> int, m: MarketData): (r: Result<seq<HoldingRow>>)
    requires DataLoader.Rectangular(sptsxSheet) && DataLoader.Rectangular(spxSheet) && DataLoader.Rectangular(etfSheet)
    ensures r.Ok? ==> Prepare(sptsxSheet, spxSheet, etfSheet).Ok?
    ensures r.Ok? ==> forall i :: 0 <= i < |r.value| ==> r.value[i].amount != 0
  {
    match Prepare(sptsxSheet, spxSheet, etfSheet)
    case Err(e) => Err(e)
    case Ok(u) => Pipeline(u, score, draws, m)
  }

  /** With eleven sectors and the late US list, the script computes what
      `develop_strategy` computes with the zero-on-failure ratio. */
  lemma PipelineIsStrategy(u: Universe, score: string -> Result<real>, draws: nat -> int, m: MarketData)
    requires Shaped(u) && |u.sectors| == QuotaSectors
    requires u.sptsxList == DataLoader.Labels(u.sptsx) && u.spxList == DataLoader.Labels(u.spx)
    ensures Pipeline(u, score, draws, m) ==
      Develop(u.sectors, Money, StockNum, u.sptsx, u.spx, ZeroOnFailure(score), draws, m)
  {
    forall t: map<string, seq<string>>, b: seq<real>
      ensures ScriptHoldings(u.sectors, t, b, m) == SectorHoldings(u.sectors, t, b, m)
    {
      ScriptHoldingsSpec(u.sectors, t, b, m);
    }
  }

  /** The early `spx_list` tags "US" a ticker that was dropped from the SPX
      table, where the strategy's late list leaves it untagged. */
  lemma EarlyListTagsDropped(t: string, u: Universe)
    requires t in u.spxList && t !in u.sptsxList && t !in DataLoader.Labels(u.spx)
    ensures LocationOf(t, u.sptsxList, u.spxList) == US
    ensures LocationOf(t, u.sptsxList, DataLoader.Labels(u.spx)) == Missing
  {
  }

  /** The script's statements in order. */
  method Run(sptsxSheet: DataLoader.Grid, spxSheet: DataLoader.Grid, etfSheet: DataLoader.Grid,
             score: string -> Result<real>, draws: nat -> int, m: MarketData)
    returns (r: Result<seq<HoldingRow>>)
    requires DataLoader.Rectangular(sptsxSheet) && DataLoader.Rectangular(spxSheet) && DataLoader.Rectangular(etfSheet)
    ensures r == Script(sptsxSheet, spxSheet, etfSheet, score, draws, m)
  {
    var prepared := Prepare(sptsxSheet, spxSheet, etfSheet);
    if prepared.Err? {
      return Err(prepared.error);
    }
    var u := prepared.value;
    var stocks := Stocks(u.sptsx, u.spx);
    if stocks.Err? {
      return Err(stocks.error);
    }
    var ratio := ZeroOnFailure(score);
    var sharpeMean, target := SelectAll(stocks.value, u.sectors, ratio);
    var raw := RawAllocation(StockNum, sharpeMean);
    if raw.Err? {
      return Err(raw.error);
    }
    var allocation := CapTelecomLoop(u.sectors, raw.value, draws);
    if allocation.Err? {
      return Err(allocation.error);
    }
    var quotas, _ := ImposeQuotaLoop(u.sectors, AllocationFrame(u.sectors, allocation.value), target);
    if quotas.Err? {
      return Err(quotas.error);
    }
    var budgets := Budgets(Money as real, allocation.value);
    if budgets.Err? {
      return Err(budgets.error);
    }
    var parts := ScriptHoldingLoop(u.sectors, quotas.value, budgets.value, m);
    if parts.Err? {
      return Err(parts.error);
    }
    r := DecideHolding(parts.value, u.sptsxList, u.spxList);
  }
}
