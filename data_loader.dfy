/** The reference-data loader: read a constituent sheet, promote its first
    row to the header, normalise the ticker column and make it the index,
    drop the non-trackable tickers and the unused identifier column, and
    count the constituents of every sector. The spreadsheet reads are left
    out: a sheet arrives as its grid of cells. */
module DataLoader {
  import opened Wrappers

  const TickerColumn: string := "RPM Ticker"
  const UsTickerColumn: string := "RPM-USTicker"
  const SectorColumn: string := "GICS Sector\n"
  const SptsxUnused: string := "Bloom.Berg Ticker"
  const SpxUnused: string := "Bloom.B-USerg Ticker"

  const SptsxExclusions: seq<string> := [
    "ABX", "ACO.X", "AD", "AFN", "ALA", "AP.UT", "APHA", "ARX",
    "ATD", "ATZ", "AX.UT", "BAM.A", "BBD.B", "BBU.UT", "BCB", "BEI.UT",
    "BEP.UT", "BIP.UT", "BPY.UT", "BTE", "BYD.UT", "CAR.UT", "CAS", "CCA",
    "CCL.B", "CFP", "CGX", "CHE.UT", "CHP.UT", "CHR", "CJT", "CNR",
    "CPX", "CRR.UT", "CSH.UT", "CSU", "CTC.A", "CU", "CUF.UT", "D.UT",
    "DGC", "DIR.UT", "DRG.UT", "DSG", "ECA", "ECN", "EFN", "EIF",
    "EMA", "EMP.A", "EQB", "EXE", "FCR", "FEC", "FFH", "FRU",
    "FTT", "GC", "GEI", "GIB.A", "GRT.UT", "GUD", "GWO", "HBC",
    "HCG", "HR.UT", "HSE", "IFC", "IFP", "IIP.UT", "IMG", "INE",
    "IPL", "IVN", "KL", "KMP.UT", "KXS", "LB", "LIF", "LNR",
    "LUN", "MFI", "MIC", "MRE", "MRU", "MTY", "MWC", "NFI",
    "NPI", "NVU.UT", "NWH.UT", "OGC", "ONEX", "OSB", "PVG", "PWF",
    "PXT", "QBR.B", "RCH", "RCI.B", "REI.UT", "RUS", "SIA", "SJR.B",
    "SMF", "SMU.UT", "SNC", "SRU.UT", "TCL.A", "TECK.B", "TIH", "TOU",
    "TOY", "TSGI", "WCP", "WDO", "WFT", "WJA", "WN", "WPK",
    "WSP", "WTE", "YRI",
    "MTL", "IAG"]

  const SpxExclusions: seq<string> := [
    "ADS", "AGN", "ALXN", "ANTM", "BBT", "BF.B", "BHGE", "BLL",
    "BRK.B", "CBS", "CELG", "CERN", "COG", "CTL", "CXO", "DISCA",
    "DISCK", "ETFC", "FLIR", "HFC", "INFO", "JEC", "KSU",
    "LB", "MXIM", "MYL", "NBL", "PBCT", "RTN", "STI", "SYMC",
    "TIF", "UTX", "VAR", "VIAB", "WCG", "WLTW", "XEC", "XLNX",
    "T",
    "NLSN", "TWTR", "CTXS"]

  const EtfExclusions: seq<string> := ["XCB", "XGB", "XSB", "IEMG.K", "XIC", "XIU"]

  // ---------------------------------------------------------------------
  // Tables

  /** A sheet as read: rows of cells; the first row holds the column names. */
  type Grid = seq<seq<string>>

  /** A frame before `set_index`: named columns and a body of rows. */
  datatype Table = Table(header: seq<string>, body: seq<seq<string>>)

  /** A row of an indexed frame: its index label (the ticker) and its other cells. */
  datatype Row = Row(ticker: string, cells: seq<string>)

  /** A frame indexed by ticker. */
  datatype Frame = Frame(columns: seq<string>, rows: seq<Row>)

  /** Every row of a sheet has the same width (a DataFrame is rectangular). */
  predicate Rectangular(g: Grid)
  {
    forall i, j :: 0 <= i < |g| && 0 <= j < |g| ==> |g[i]| == |g[j]|
  }

  predicate TableShape(t: Table)
  {
    forall i :: 0 <= i < |t.body| ==> |t.body[i]| == |t.header|
  }

  predicate FrameShape(f: Frame)
  {
    forall i :: 0 <= i < |f.rows| ==> |f.rows[i].cells| == |f.columns|
  }

  /** `df.index` */
  function Labels(f: Frame): (ls: seq<string>)
    ensures |ls| == |f.rows| && forall i :: 0 <= i < |f.rows| ==> ls[i] == f.rows[i].ticker
  {
    seq(|f.rows|, i requires 0 <= i < |f.rows| => f.rows[i].ticker)
  }

  /** `header = df.iloc[0]; df = df.iloc[1:]; df.columns = header`; an empty
      sheet has no row 0. */
  function Promote(g: Grid): (r: Result<Table>)
    ensures r.Ok? <==> g != []
    ensures r.Ok? && Rectangular(g) ==> TableShape(r.value)
    ensures r.Ok? ==> |r.value.body| == |g| - 1
  {
    if g == [] then Err(IndexError) else Ok(Table(g[0], g[1..]))
  }

  /** Putting the header back on top of the body gives the sheet again. */
  lemma PromoteRoundTrip(g: Grid)
    requires g != []
    ensures [Promote(g).value.header] + Promote(g).value.body == g
  {
  }

  // ---------------------------------------------------------------------
  // Ticker normalisation

  /** `ticker.split('-')[0]`: the text before the first '-'. */
  function Normalize(t: string): (r: string)
    ensures r <= t && '-' !in r
    ensures |r| < |t| ==> t[|r|] == '-'
  {
    if t == [] || t[0] == '-' then []
    else
      var rest := Normalize(t[1..]);
      assert t == [t[0]] + t[1..];
      [t[0]] + rest
  }

  /** A ticker without a '-' is left as it is. */
  lemma {:induction false} NormalizePlain(t: string)
    requires '-' !in t
    ensures Normalize(t) == t
  {
    if t != [] {
      assert t[0] != '-';
      assert t == [t[0]] + t[1..];
      NormalizePlain(t[1..]);
    }
  }

  /** Normalising twice changes nothing. */
  lemma NormalizeIdempotent(t: string)
    ensures Normalize(Normalize(t)) == Normalize(t)
  {
    NormalizePlain(Normalize(t));
  }

  /** The normalised ticker is the only dash-free prefix that reaches the end
      of the text or stops at a dash. */
  lemma {:induction false} NormalizeUnique(t: string, p: string)
    requires p <= t && '-' !in p && (|p| < |t| ==> t[|p|] == '-')
    ensures p == Normalize(t)
  {
    if t != [] && t[0] != '-' {
      assert p != [];
      assert p[0] == t[0];
      assert p == [p[0]] + p[1..];
      NormalizeUnique(t[1..], p[1..]);
    }
  }

  // ---------------------------------------------------------------------
  // Indexing and dropping

  /** The position of the first column with the given name. */
  function FirstIndex(s: seq<string>, x: string): (k: nat)
    requires x in s
    ensures k < |s| && s[k] == x && x !in s[..k]
  {
    if s[0] == x then 0
    else
      var k := FirstIndex(s[1..], x);
      assert s[..k + 1] == [s[0]] + s[1..][..k];
      k + 1
  }

  function RemoveAt<T>(s: seq<T>, k: nat): (r: seq<T>)
    requires k < |s|
    ensures |r| == |s| - 1
    ensures forall j :: 0 <= j < k ==> r[j] == s[j]
    ensures forall j :: k <= j < |r| ==> r[j] == s[j + 1]
  {
    s[..k] + s[k + 1..]
  }

  /** `df[col] = [normalised tickers]; df = df.set_index(col)`: reading the
      column fails when it is absent. */
  function IndexBy(t: Table, col: string): (r: Result<Frame>)
    requires TableShape(t)
    ensures r.Ok? <==> col in t.header
    ensures r.Ok? ==> FrameShape(r.value) && |r.value.rows| == |t.body|
    ensures r.Ok? ==> forall i :: 0 <= i < |t.body| ==> '-' !in r.value.rows[i].ticker
    ensures r.Ok? ==> col !in t.header[..FirstIndex(t.header, col)] &&
                      r.value.columns == RemoveAt(t.header, FirstIndex(t.header, col))
    ensures r.Ok? ==> forall i :: 0 <= i < |t.body| ==>
                        r.value.rows[i].ticker == Normalize(t.body[i][FirstIndex(t.header, col)])
  {
    if col !in t.header then Err(KeyError(col))
    else
      var k := FirstIndex(t.header, col);
      Ok(Frame(RemoveAt(t.header, k),
               seq(|t.body|, i requires 0 <= i < |t.body| =>
                 Row(Normalize(t.body[i][k]), RemoveAt(t.body[i], k)))))
  }

  /** The first label of `labels` that the index does not hold. */
  function FirstMissing(labels: seq<string>, present: seq<string>): (m: Option<string>)
    ensures m.None? <==> forall l :: l in labels ==> l in present
    ensures m.Some? ==> m.value in labels && m.value !in present
  {
    if labels == [] then None
    else if labels[0] !in present then Some(labels[0])
    else
      assert forall l :: l in labels ==> l == labels[0] || l in labels[1..];
      FirstMissing(labels[1..], present)
  }

  /** The rows whose label is not excluded, in their order. */
  function KeepRows(rows: seq<Row>, excluded: seq<string>): (r: seq<Row>)
    ensures |r| <= |rows|
    ensures forall x :: x in r <==> x in rows && x.ticker !in excluded
  {
    if rows == [] then []
    else
      var n := |rows| - 1;
      assert rows == rows[..n] + [rows[n]];
      var rest := KeepRows(rows[..n], excluded);
      if rows[n].ticker in excluded then rest else rest + [rows[n]]
  }

  /** `a` is `b` with some elements deleted, the rest in their order. */
  predicate Subsequence<T(==)>(a: seq<T>, b: seq<T>)
    decreases |b|
  {
    if a == [] then true
    else if b == [] then false
    else if a[|a| - 1] == b[|b| - 1] then Subsequence(a[..|a| - 1], b[..|b| - 1])
    else Subsequence(a, b[..|b| - 1])
  }

  lemma {:induction false} KeepRowsSubsequence(rows: seq<Row>, excluded: seq<string>)
    ensures Subsequence(KeepRows(rows, excluded), rows)
  {
    if rows != [] {
      var n := |rows| - 1;
      KeepRowsSubsequence(rows[..n], excluded);
      var rest := KeepRows(rows[..n], excluded);
      if rows[n].ticker !in excluded {
        assert (rest + [rows[n]])[..|rest|] == rest;
      } else if rest != [] {
        assert rest[|rest| - 1] in rest;
        assert rest[|rest| - 1] != rows[n];
      }
    }
  }

  /** `df.drop(labels, inplace=True)`: every label must be in the index. */
  function DropRows(f: Frame, labels: seq<string>): (r: Result<Frame>)
    ensures r.Ok? <==> forall l :: l in labels ==> l in Labels(f)
    ensures r.Err? ==> exists l :: l in labels && l !in Labels(f) && r.error == KeyError(l)
    ensures r.Ok? ==> r.value.columns == f.columns
    ensures r.Ok? ==> forall x :: x in r.value.rows <==> x in f.rows && x.ticker !in labels
  {
    match FirstMissing(labels, Labels(f))
    case Some(l) => Err(KeyError(l))
    case None => Ok(Frame(f.columns, KeepRows(f.rows, labels)))
  }

  /** Dropping rows adds no label: one without a dash stays without. */
  lemma DropRowsKeepsTickers(f: Frame, labels: seq<string>)
    requires DropRows(f, labels).Ok? && forall i :: 0 <= i < |f.rows| ==> '-' !in f.rows[i].ticker
    ensures forall l :: l in Labels(DropRows(f, labels).value) ==> '-' !in l
  {
    var kept := DropRows(f, labels).value;
    forall l | l in Labels(kept)
      ensures '-' !in l
    {
      var i :| 0 <= i < |kept.rows| && kept.rows[i].ticker == l;
      assert kept.rows[i] in f.rows;
      var j :| 0 <= j < |f.rows| && f.rows[j] == kept.rows[i];
    }
  }

  /** After a successful drop no excluded label is left, the other rows are
      all kept, in their order, and the frame keeps its shape. */
  lemma DropRowsSpec(f: Frame, labels: seq<string>)
    requires FrameShape(f) && DropRows(f, labels).Ok?
    ensures forall l :: l in Labels(DropRows(f, labels).value) ==> l !in labels
    ensures Subsequence(DropRows(f, labels).value.rows, f.rows)
    ensures FrameShape(DropRows(f, labels).value)
  {
    var g := DropRows(f, labels).value;
    KeepRowsSubsequence(f.rows, labels);
    forall l | l in Labels(g)
      ensures l !in labels
    {
      var i :| 0 <= i < |g.rows| && Labels(g)[i] == l;
      assert g.rows[i] in g.rows;
    }
    forall i | 0 <= i < |g.rows|
      ensures |g.rows[i].cells| == |g.columns|
    {
      assert g.rows[i] in f.rows;
    }
  }

  /** The entries of `s` whose mask bit is set. */
  function KeepIf(mask: seq<bool>, s: seq<string>): (r: seq<string>)
    requires |mask| == |s|
    ensures forall x :: x in r <==> exists j :: 0 <= j < |s| && mask[j] && s[j] == x
  {
    if s == [] then []
    else
      var n := |s| - 1;
      var rest := KeepIf(mask[..n], s[..n]);
      if mask[n] then rest + [s[n]] else rest
  }

  /** The length of what KeepIf keeps depends on the mask alone. */
  lemma {:induction false} KeepIfLength(mask: seq<bool>, s: seq<string>, t: seq<string>)
    requires |mask| == |s| == |t|
    ensures |KeepIf(mask, s)| == |KeepIf(mask, t)|
  {
    if s != [] {
      KeepIfLength(mask[..|s| - 1], s[..|s| - 1], t[..|t| - 1]);
    }
  }

  /** `df.drop([name], axis=1, inplace=True)`: every column of that name goes. */
  function DropColumn(f: Frame, name: string): (r: Result<Frame>)
    requires FrameShape(f)
    ensures r.Ok? <==> name in f.columns
    ensures r.Ok? ==> name !in r.value.columns
    ensures r.Ok? ==> forall c :: c in f.columns && c != name ==> c in r.value.columns
    ensures r.Ok? ==> Labels(r.value) == Labels(f) && FrameShape(r.value)
  {
    if name !in f.columns then Err(KeyError(name))
    else
      var mask := seq(|f.columns|, j requires 0 <= j < |f.columns| => f.columns[j] != name);
      var g := Frame(KeepIf(mask, f.columns),
                     seq(|f.rows|, i requires 0 <= i < |f.rows| =>
                       Row(f.rows[i].ticker, KeepIf(mask, f.rows[i].cells))));
      forall c | c in f.columns && c != name
        ensures c in g.columns
      {
        var j :| 0 <= j < |f.columns| && f.columns[j] == c;
        assert mask[j];
      }
      forall i | 0 <= i < |g.rows|
        ensures |g.rows[i].cells| == |g.columns|
      {
        KeepIfLength(mask, f.rows[i].cells, f.columns);
      }
      assert Labels(g) == Labels(f);
      Ok(g)
  }

  /** `_read_sptsx`, `_read_spx` and `_read_etf`: promote, index by the
      normalised ticker, drop the excluded tickers, then the unused column
      when there is one. */
  function ReadSheet(g: Grid, tickerCol: string, exclusions: seq<string>, unused: Option<string>)
    : (r: Result<Frame>)
    requires Rectangular(g)
    ensures r.Ok? ==> FrameShape(r.value)
    ensures r.Ok? ==> forall l :: l in Labels(r.value) ==> l !in exclusions && '-' !in l
    ensures r.Ok? && unused.Some? ==> unused.value !in r.value.columns
  {
    match Promote(g)
    case Err(e) => Err(e)
    case Ok(t) =>
      match IndexBy(t, tickerCol)
      case Err(e) => Err(e)
      case Ok(f) =>
        match DropRows(f, exclusions)
        case Err(e) => Err(e)
        case Ok(kept) =>
          DropRowsSpec(f, exclusions);
          DropRowsKeepsTickers(f, exclusions);
          if unused.None? then Ok(kept) else DropColumn(kept, unused.value)
  }

  /** The SPTSX sheet: indexed by "Ticker", the excluded tickers and the
      unused column dropped. */
  function ReadSptsx(g: Grid): (r: Result<Frame>)
    requires Rectangular(g)
    ensures r.Ok? ==> FrameShape(r.value) && SptsxUnused !in r.value.columns
    ensures r.Ok? ==> forall l :: l in Labels(r.value) ==> l !in SptsxExclusions && '-' !in l
  {
    ReadSheet(g, TickerColumn, SptsxExclusions, Some(SptsxUnused))
  }

  /** The SPX sheet: indexed by its ticker column, the excluded tickers and
      the unused column dropped. */
  function ReadSpx(g: Grid): (r: Result<Frame>)
    requires Rectangular(g)
    ensures r.Ok? ==> FrameShape(r.value) && SpxUnused !in r.value.columns
    ensures r.Ok? ==> forall l :: l in Labels(r.value) ==> l !in SpxExclusions && '-' !in l
  {
    ReadSheet(g, UsTickerColumn, SpxExclusions, Some(SpxUnused))
  }

  /** The ETF sheet: indexed by "Ticker", the excluded tickers dropped; no
      column is removed. */
  function ReadEtf(g: Grid): (r: Result<Frame>)
    requires Rectangular(g)
    ensures r.Ok? ==> FrameShape(r.value)
    ensures r.Ok? ==> forall l :: l in Labels(r.value) ==> l !in EtfExclusions && '-' !in l
  {
    ReadSheet(g, TickerColumn, EtfExclusions, None)
  }

  // ---------------------------------------------------------------------
  // Counting sectors (`count_industry`)

  /** The sector cell of every row; the column must exist. */
  function SectorsOf(f: Frame): (r: Result<seq<string>>)
    requires FrameShape(f)
    ensures r.Ok? <==> SectorColumn in f.columns
    ensures r.Ok? ==> |r.value| == |f.rows|
  {
    if SectorColumn !in f.columns then Err(KeyError(SectorColumn))
    else
      var k := FirstIndex(f.columns, SectorColumn);
      Ok(seq(|f.rows|, i requires 0 <= i < |f.rows| => f.rows[i].cells[k]))
  }

  /** Python's ordering of strings: by code point, a proper prefix first. */
  predicate LessEq(a: string, b: string)
  {
    a == [] || (b != [] && (a[0] < b[0] || (a[0] == b[0] && LessEq(a[1..], b[1..]))))
  }

  lemma {:induction false} LessEqTotal(a: string, b: string)
    ensures LessEq(a, b) || LessEq(b, a)
  {
    if a != [] && b != [] && a[0] == b[0] {
      LessEqTotal(a[1..], b[1..]);
    }
  }

  lemma {:induction false} LessEqTransitive(a: string, b: string, c: string)
    requires LessEq(a, b) && LessEq(b, c)
    ensures LessEq(a, c)
  {
    if a != [] && b != [] && c != [] && a[0] == b[0] && b[0] == c[0] {
      LessEqTransitive(a[1..], b[1..], c[1..]);
    }
  }

  lemma {:induction false} LessEqAntisymmetric(a: string, b: string)
    requires LessEq(a, b) && LessEq(b, a)
    ensures a == b
  {
    if a != [] && b != [] {
      LessEqAntisymmetric(a[1..], b[1..]);
      assert a == [a[0]] + a[1..] && b == [b[0]] + b[1..];
    }
  }

  predicate Sorted(s: seq<string>)
  {
    forall i, j :: 0 <= i < j < |s| ==> LessEq(s[i], s[j])
  }

  function InsertString(x: string, s: seq<string>): (r: seq<string>)
    ensures |r| == |s| + 1 && multiset(r) == multiset(s) + multiset{x}
  {
    if s == [] || LessEq(x, s[0]) then [x] + s
    else
      assert s == [s[0]] + s[1..];
      [s[0]] + InsertString(x, s[1..])
  }

  lemma {:induction false} InsertStringSorted(x: string, s: seq<string>)
    requires Sorted(s)
    ensures Sorted(InsertString(x, s))
  {
    if s == [] {
    } else if LessEq(x, s[0]) {
      forall j | 1 <= j < |s| + 1
        ensures LessEq(x, ([x] + s)[j])
      {
        if j > 1 {
          LessEqTransitive(x, s[0], s[j - 1]);
        }
      }
    } else {
      LessEqTotal(x, s[0]);
      InsertStringSorted(x, s[1..]);
      var t := InsertString(x, s[1..]);
      forall y | y in t
        ensures LessEq(s[0], y)
      {
        assert y in multiset(t);
        assert y in multiset(s[1..]) || y == x;
        if y != x {
          var j :| 0 <= j < |s[1..]| && s[1..][j] == y;
          assert s[j + 1] == y;
        }
      }
      forall i, j | 0 <= i < j < |t| + 1
        ensures LessEq(([s[0]] + t)[i], ([s[0]] + t)[j])
      {
        if i == 0 {
          assert t[j - 1] in t;
        }
      }
    }
  }

  function SortStrings(s: seq<string>): (r: seq<string>)
    ensures multiset(r) == multiset(s) && Sorted(r)
  {
    if s == [] then []
    else
      var n := |s| - 1;
      assert s == s[..n] + [s[n]];
      InsertStringSorted(s[n], SortStrings(s[..n]));
      InsertString(s[n], SortStrings(s[..n]))
  }

  predicate Distinct(s: seq<string>)
  {
    forall i, j :: 0 <= i < j < |s| ==> s[i] != s[j]
  }

  /** Removes repeated neighbours: on a sorted list, every repeat. */
  function Compact(s: seq<string>): (r: seq<string>)
    ensures forall x :: x in r <==> x in s
    ensures r != [] ==> s != [] && r[|r| - 1] == s[|s| - 1]
  {
    if s == [] then []
    else
      var n := |s| - 1;
      var rest := Compact(s[..n]);
      assert s == s[..n] + [s[n]];
      if rest != [] && rest[|rest| - 1] == s[n] then rest else rest + [s[n]]
  }

  lemma {:induction false} CompactSortedDistinct(s: seq<string>)
    requires Sorted(s)
    ensures Sorted(Compact(s)) && Distinct(Compact(s))
  {
    if s != [] {
      var n := |s| - 1;
      var rest := Compact(s[..n]);
      CompactSortedDistinct(s[..n]);
      if !(rest != [] && rest[|rest| - 1] == s[n]) {
        var r := rest + [s[n]];
        forall i | 0 <= i < |rest|
          ensures LessEq(rest[i], s[n]) && rest[i] != s[n]
        {
          assert rest[i] in s[..n];
          var k :| 0 <= k < n && s[..n][k] == rest[i];
          assert LessEq(rest[i], s[n]);
          if rest[i] == s[n] {
            var m := |rest| - 1;
            assert rest[m] in s[..n];
            var k2 :| 0 <= k2 < n && s[..n][k2] == rest[m];
            assert LessEq(rest[m], s[n]);
            if i < m {
              assert LessEq(rest[i], rest[m]);
            }
            LessEqAntisymmetric(rest[m], s[n]);
          }
        }
        forall i, j | 0 <= i < j < |r|
          ensures LessEq(r[i], r[j]) && r[i] != r[j]
        {
          if j == |rest| {
            assert r[j] == s[n];
          }
        }
      }
    }
  }

  /** `df1 + df2` after the two `groupby(...).count()`: the index is the
      sorted union of the sectors, and a sector's count is defined only when
      both tables list it. */
  datatype IndustryTable = IndustryTable(index: seq<string>, counts: seq<Option<int>>)

  /** `groupby(...).count()` on one table's sector cells: one row at a time,
      the row's sector gains one. */
  function GroupCount(sectors: seq<string>): map<string, nat>
  {
    if sectors == [] then map[]
    else
      var g := GroupCount(sectors[..|sectors| - 1]);
      var s := sectors[|sectors| - 1];
      g[s := (if s in g then g[s] else 0) + 1]
  }

  /** The fold counts what the groupby promises: a sector is a key exactly
      when some row has it, and its count is the number of such rows. */
  lemma {:induction false} GroupCountIsMultiplicity(sectors: seq<string>)
    ensures forall s :: s in GroupCount(sectors) <==> s in sectors
    ensures forall s :: s in GroupCount(sectors) ==> GroupCount(sectors)[s] == multiset(sectors)[s]
  {
    if sectors != [] {
      var n := |sectors| - 1;
      GroupCountIsMultiplicity(sectors[..n]);
      assert sectors == sectors[..n] + [sectors[n]];
      assert multiset(sectors) == multiset(sectors[..n]) + multiset{sectors[n]};
    }
  }

  /** One cell of `df1 + df2`: frames are aligned on the sector, and the sum
      is NaN where either side has no row for it. */
  function AddAligned(g1: map<string, nat>, g2: map<string, nat>, s: string): Option<int>
  {
    if s in g1 && s in g2 then Some(g1[s] + g2[s]) else None
  }

  function CountIndustry(a: seq<string>, b: seq<string>): (t: IndustryTable)
    ensures Sorted(t.index) && Distinct(t.index)
    ensures forall s :: s in t.index <==> s in a || s in b
    ensures |t.counts| == |t.index|
  {
    var sorted := SortStrings(a + b);
    CompactSortedDistinct(sorted);
    assert forall s :: s in sorted <==> s in multiset(a + b);
    var index := Compact(sorted);
    var g1 := GroupCount(a);
    var g2 := GroupCount(b);
    IndustryTable(index, seq(|index|, i requires 0 <= i < |index| => AddAligned(g1, g2, index[i])))
  }

  /** A sector listed by both tables counts its rows in each; one listed by
      only one table has no count. */
  lemma CountIndustrySpec(a: seq<string>, b: seq<string>, i: nat)
    requires i < |CountIndustry(a, b).index|
    ensures var s := CountIndustry(a, b).index[i];
      && (s in a && s in b ==> CountIndustry(a, b).counts[i] == Some(multiset(a)[s] + multiset(b)[s]))
      && (s !in a || s !in b ==> CountIndustry(a, b).counts[i].None?)
  {
    var t := CountIndustry(a, b);
    var s := t.index[i];
    assert t.counts[i] == AddAligned(GroupCount(a), GroupCount(b), s);
    GroupCountAt(a, s);
    GroupCountAt(b, s);
  }

  lemma GroupCountAt(sectors: seq<string>, s: string)
    ensures s in GroupCount(sectors) <==> s in sectors
    ensures s in GroupCount(sectors) ==> GroupCount(sectors)[s] == multiset(sectors)[s]
  {
    GroupCountIsMultiplicity(sectors);
  }

  // ---------------------------------------------------------------------
  // The loader object

  function EmptyFrame(): Frame
  {
    Frame([], [])
  }

  class Loader {
    var sptsx: Frame
    var spx: Frame
    var etf: Frame
    var industry: IndustryTable

    constructor ()
      ensures sptsx == EmptyFrame() && spx == EmptyFrame() && etf == EmptyFrame()
      ensures industry == IndustryTable([], [])
    {
      sptsx := EmptyFrame();
      spx := EmptyFrame();
      etf := EmptyFrame();
      industry := IndustryTable([], []);
    }

    /** `_read_sptsx` */
    method ReadSptsxSheet(g: Grid) returns (outcome: Outcome)
      requires Rectangular(g)
      modifies this
      ensures spx == old(spx) && etf == old(etf) && industry == old(industry)
      ensures match ReadSptsx(g)
        case Ok(f) => outcome == Done && sptsx == f
        case Err(e) => outcome == Failed(e) && sptsx == old(sptsx)
    {
      var r := ReadSptsx(g);
      if r.Err? {
        return Failed(r.error);
      }
      sptsx := r.value;
      return Done;
    }

    /** `_read_spx` */
    method ReadSpxSheet(g: Grid) returns (outcome: Outcome)
      requires Rectangular(g)
      modifies this
      ensures sptsx == old(sptsx) && etf == old(etf) && industry == old(industry)
      ensures match ReadSpx(g)
        case Ok(f) => outcome == Done && spx == f
        case Err(e) => outcome == Failed(e) && spx == old(spx)
    {
      var r := ReadSpx(g);
      if r.Err? {
        return Failed(r.error);
      }
      spx := r.value;
      return Done;
    }

    /** `_read_etf` */
    method ReadEtfSheet(g: Grid) returns (outcome: Outcome)
      requires Rectangular(g)
      modifies this
      ensures sptsx == old(sptsx) && spx == old(spx) && industry == old(industry)
      ensures match ReadEtf(g)
        case Ok(f) => outcome == Done && etf == f
        case Err(e) => outcome == Failed(e) && etf == old(etf)
    {
      var r := ReadEtf(g);
      if r.Err? {
        return Failed(r.error);
      }
      etf := r.value;
      return Done;
    }

    /** `read_data`: the three sheets in order; the first failure ends it. */
    method ReadData(a: Grid, b: Grid, c: Grid) returns (outcome: Outcome)
      requires Rectangular(a) && Rectangular(b) && Rectangular(c)
      modifies this
      ensures industry == old(industry)
      ensures match ReadSptsx(a)
        case Err(e) => outcome == Failed(e) && sptsx == old(sptsx) && spx == old(spx) && etf == old(etf)
        case Ok(f) =>
          sptsx == f &&
          match ReadSpx(b)
          case Err(e) => outcome == Failed(e) && spx == old(spx) && etf == old(etf)
          case Ok(h) =>
            spx == h &&
            match ReadEtf(c)
            case Err(e) => outcome == Failed(e) && etf == old(etf)
            case Ok(k) => outcome == Done && etf == k
    {
      outcome := ReadSptsxSheet(a);
      if outcome.Failed? {
        return;
      }
      outcome := ReadSpxSheet(b);
      if outcome.Failed? {
        return;
      }
      outcome := ReadEtfSheet(c);
    }

    /** `count_industry` */
    method CountIndustries() returns (outcome: Outcome)
      requires FrameShape(sptsx) && FrameShape(spx)
      modifies this
      ensures sptsx == old(sptsx) && spx == old(spx) && etf == old(etf)
      ensures match SectorsOf(sptsx)
        case Err(e) => outcome == Failed(e) && industry == old(industry)
        case Ok(a) =>
          match SectorsOf(spx)
          case Err(e) => outcome == Failed(e) && industry == old(industry)
          case Ok(b) => outcome == Done && industry == CountIndustry(a, b)
    {
      var a := SectorsOf(sptsx);
      if a.Err? {
        return Failed(a.error);
      }
      var b := SectorsOf(spx);
      if b.Err? {
        return Failed(b.error);
      }
      industry := CountIndustry(a.value, b.value);
      return Done;
    }
  }
}
