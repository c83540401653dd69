/** The ladder stop-order buffer: every holding row is protected by `layer`
    stop orders at prices stepping down from the current price to
    `price · (1 − tolerance)`. The "equal" scheme gives every layer the same
    share of the position; in the "geom" scheme layer i divides what the
    layers before it left by `2 ** i` (by 2, then 4, then 8, ...).
    Current prices are an input (`price`). */
module LadderStopOrderBuffer {
  import opened Wrappers
  import opened Holding
  import opened Rounding
  import opened ProtectionBuffer

  const EqualMethod: string := "equal"
  const GeomMethod: string := "geom"

  datatype Scheme = Equal | Geometric

  /** `create_buffer`'s choice; any other name selects nothing. */
  function Dispatch(name: string): (s: Option<Scheme>)
    ensures s == Some(Equal) <==> name == EqualMethod
    ensures s == Some(Geometric) <==> name == GeomMethod
  {
    if name == EqualMethod then Some(Equal)
    else if name == GeomMethod then Some(Geometric)
    else None
  }

  function Pow2(i: nat): (r: nat)
    ensures r >= 1
  {
    if i == 0 then 1 else 2 * Pow2(i - 1)
  }

  /** `1 - (tolerance * i / layer)` */
  function Ratio(tolerance: real, i: int, layer: int): real
    requires layer != 0
  {
    1.0 - tolerance * (i as real / layer as real)
  }

  /** With a positive tolerance, deeper layers sit strictly lower. */
  lemma RatioStrictlyDecreasing(tolerance: real, i: int, j: int, layer: int)
    requires tolerance > 0.0 && layer > 0 && i < j
    ensures Ratio(tolerance, j, layer) < Ratio(tolerance, i, layer)
  {
    var l := layer as real;
    DivideStrict(i as real, j as real, l);
    MulStrict(tolerance, i as real / l, j as real / l);
  }

  lemma MulStrict(a: real, b: real, c: real)
    requires a > 0.0 && b < c
    ensures a * b < a * c
  {
  }

  lemma DivideStrict(a: real, b: real, l: real)
    requires a < b && l > 0.0
    ensures a / l < b / l
  {
  }

  /** The last layer sits at `1 − tolerance`. */
  lemma LastRatio(tolerance: real, layer: int)
    requires layer != 0
    ensures Ratio(tolerance, layer, layer) == 1.0 - tolerance
  {
    var l := layer as real;
    DivSelf(l);
  }

  lemma DivSelf(x: real)
    requires x != 0.0
    ensures x / x == 1.0
  {
  }

  /** "equal": `round(abs(amount) / layer)` */
  function EqualQuantity(amount: int, layer: int): int
    requires layer != 0
  {
    RoundHalfEven(Abs(amount) as real / layer as real)
  }

  /** "geom": `round(abs(q) / 2 ** i)` */
  function DivPow2(q: int, i: nat): (r: int)
    ensures r >= 0
  {
    RoundHalfEven(Abs(q) as real / Pow2(i) as real)
  }

  lemma DivPow2AtMost(q: int, i: nat)
    ensures DivPow2(q, i) <= Abs(q)
  {
    var x := Abs(q) as real;
    var p := Pow2(i) as real;
    assert x / p <= x by {
      assert x / p * p == x;
      MulMonotone(x / p, 1.0, p);
    }
    RoundAtMost(x / p, Abs(q));
  }

  /** The geom loop's `amount` after layer i, before the last layer's extra
      division: layer i divides what the previous layer left by `2 ** i`. */
  function Carried(amount: int, i: nat): (r: int)
    ensures i > 0 ==> r >= 0
  {
    if i == 0 then amount else DivPow2(Carried(amount, i - 1), i)
  }

  /** The quantity of layer i, for 1 ≤ i ≤ layer; the last geom layer is
      divided once more by `2 ** layer`. */
  function LayerQuantity(s: Scheme, amount: int, i: nat, layer: int): (q: int)
    requires layer != 0
    ensures s == Geometric && i >= 1 ==> q >= 0
  {
    match s
    case Equal => EqualQuantity(amount, layer)
    case Geometric => if i == layer then DivPow2(Carried(amount, i), i) else Carried(amount, i)
  }

  /** The side of layer i: "equal" reads the position; "geom" reads the
      amount the previous layer left. */
  function LayerSide(s: Scheme, amount: int, i: nat): (side: Side)
    requires i >= 1
    ensures i == 1 ==> (side == Sell <==> amount > 0)
  {
    match s
    case Equal => StopSide(amount)
    case Geometric => StopSide(Carried(amount, i - 1))
  }

  /** `__single_buffer` */
  function SingleOrder(i: nat, row: HoldingRow, side: Side, quantity: int, price: string -> real,
                       tolerance: real, layer: int): (r: Result<StopOrder>)
    requires layer != 0
    ensures r.Ok? <==> row.location != Missing
    ensures r.Err? ==> r.error == TypeError
  {
    match StopLabel(row.ticker, row.location)
    case Err(e) => Err(e)
    case Ok(tag) => Ok(StopOrder(tag, side, quantity, StopType, price(row.ticker) * Ratio(tolerance, i, layer)))
  }

  /** Layer i of one holding row. */
  function LayerOrder(s: Scheme, row: HoldingRow, i: nat, price: string -> real, tolerance: real, layer: int)
    : Result<StopOrder>
    requires layer != 0 && i >= 1
  {
    SingleOrder(i, row, LayerSide(s, row.amount, i), LayerQuantity(s, row.amount, i, layer), price, tolerance, layer)
  }

  /** The orders of layers 1..n of one holding row. */
  function Layers(s: Scheme, row: HoldingRow, price: string -> real, tolerance: real, layer: int, n: nat)
    : (r: Result<seq<StopOrder>>)
    requires layer != 0
    ensures r.Ok? ==> |r.value| == n
    ensures r.Err? ==> r.error == TypeError
  {
    if n == 0 then Ok([])
    else
      match Layers(s, row, price, tolerance, layer, n - 1)
      case Err(e) => Err(e)
      case Ok(os) =>
        match LayerOrder(s, row, n, price, tolerance, layer)
        case Err(e) => Err(e)
        case Ok(o) => Ok(os + [o])
  }

  lemma {:induction false} LayersSpec(s: Scheme, row: HoldingRow, price: string -> real, tolerance: real,
                                      layer: int, n: nat)
    requires layer != 0
    ensures Layers(s, row, price, tolerance, layer, n).Ok? <==> n == 0 || row.location != Missing
    ensures Layers(s, row, price, tolerance, layer, n).Ok? ==> forall i :: 1 <= i <= n ==>
      Layers(s, row, price, tolerance, layer, n).value[i - 1] == LayerOrder(s, row, i, price, tolerance, layer).value
  {
    if n > 0 {
      LayersSpec(s, row, price, tolerance, layer, n - 1);
    }
  }

  lemma {:induction false} LayersFailurePersists(s: Scheme, row: HoldingRow, price: string -> real, tolerance: real,
                                                 layer: int, n: nat, m: nat)
    requires layer != 0 && n <= m && Layers(s, row, price, tolerance, layer, n).Err?
    ensures Layers(s, row, price, tolerance, layer, m) == Layers(s, row, price, tolerance, layer, n)
  {
    if n < m {
      LayersFailurePersists(s, row, price, tolerance, layer, n, m - 1);
    }
  }

  /** The orders of one holding row. "equal" divides the numpy amount by
      `layer` before the layer loop: with zero layers that gives an infinite
      or NaN share, which `round` refuses. A count below one builds no layer. */
  function RowOrders(s: Scheme, row: HoldingRow, price: string -> real, tolerance: real, layer: int)
    : (r: Result<seq<StopOrder>>)
    ensures r.Ok? <==> !(layer == 0 && s == Equal) && (layer >= 1 ==> row.location != Missing)
    ensures r.Err? ==> r.error == if layer == 0 then NotFinite else TypeError
    ensures r.Ok? ==> |r.value| == if layer >= 1 then layer else 0
  {
    if layer == 0 then (if s == Equal then Err(NotFinite) else Ok([]))
    else if layer < 0 then Ok([])
    else LayersSpec(s, row, price, tolerance, layer, layer); Layers(s, row, price, tolerance, layer, layer)
  }

  /** The orders of every row, in holding order; the first failure ends it. */
  function LadderOrders(s: Scheme, rows: seq<HoldingRow>, price: string -> real, tolerance: real, layer: int)
    : (r: Result<seq<StopOrder>>)
    ensures r.Err? ==> rows != [] && r.error == if layer == 0 then NotFinite else TypeError
    ensures layer < 1 && r.Ok? ==> r.value == []
  {
    if rows == [] then Ok([])
    else
      var n := |rows| - 1;
      match LadderOrders(s, rows[..n], price, tolerance, layer)
      case Err(e) => Err(e)
      case Ok(os) =>
        match RowOrders(s, rows[n], price, tolerance, layer)
        case Err(e) => Err(e)
        case Ok(more) => Ok(os + more)
  }

  lemma {:induction false} LadderOrdersFailurePersists(s: Scheme, rows: seq<HoldingRow>, price: string -> real,
                                                       tolerance: real, layer: int, n: nat)
    requires n <= |rows| && LadderOrders(s, rows[..n], price, tolerance, layer).Err?
    ensures LadderOrders(s, rows, price, tolerance, layer) == LadderOrders(s, rows[..n], price, tolerance, layer)
    decreases |rows| - n
  {
    if n < |rows| {
      var k := |rows|;
      assert rows[..k] == rows;
      assert rows[..k - 1][..n] == rows[..n];
      LadderOrdersFailurePersists(s, rows[..k - 1], price, tolerance, layer, n);
    } else {
      assert rows[..n] == rows;
    }
  }

  lemma {:induction false} MulStep(k: int, p: int, layer: int)
    requires 0 <= k < p && layer > 0
    ensures k * layer + layer <= p * layer
    decreases p - k
  {
    if k + 1 < p {
      MulStep(k, p - 1, layer);
    }
  }

  /** With every location present, every row gets its layers. */
  lemma {:induction false} LadderOrdersSucceed(s: Scheme, rows: seq<HoldingRow>, price: string -> real,
                                               tolerance: real, layer: int)
    requires layer >= 1 && forall k :: 0 <= k < |rows| ==> rows[k].location != Missing
    ensures LadderOrders(s, rows, price, tolerance, layer).Ok?
  {
    if rows != [] {
      var n := |rows| - 1;
      var q := rows[..n];
      assert forall k :: 0 <= k < n ==> q[k] == rows[k];
      LadderOrdersSucceed(s, q, price, tolerance, layer);
      LayersSpec(s, rows[n], price, tolerance, layer, layer);
    }
  }

  lemma {:induction false} LadderOrdersCount(s: Scheme, rows: seq<HoldingRow>, price: string -> real,
                                             tolerance: real, layer: int)
    requires layer >= 1 && LadderOrders(s, rows, price, tolerance, layer).Ok?
    ensures |LadderOrders(s, rows, price, tolerance, layer).value| == |rows| * layer
  {
    if rows != [] {
      var n := |rows| - 1;
      LadderOrdersCount(s, rows[..n], price, tolerance, layer);
      assert |rows| * layer == n * layer + layer;
    }
  }

  /** With at least one layer, the orders exist exactly when every row has
      a location, and there are `layer` of them per row. */
  lemma LadderOrdersSpec(s: Scheme, rows: seq<HoldingRow>, price: string -> real,
                         tolerance: real, layer: int)
    requires layer >= 1
    ensures LadderOrders(s, rows, price, tolerance, layer).Ok? <==>
      forall k :: 0 <= k < |rows| ==> rows[k].location != Missing
    ensures LadderOrders(s, rows, price, tolerance, layer).Ok? ==>
      |LadderOrders(s, rows, price, tolerance, layer).value| == |rows| * layer
  {
    if forall k :: 0 <= k < |rows| ==> rows[k].location != Missing {
      LadderOrdersSucceed(s, rows, price, tolerance, layer);
    }
    if LadderOrders(s, rows, price, tolerance, layer).Ok? {
      LadderOrdersCount(s, rows, price, tolerance, layer);
      forall k | 0 <= k < |rows|
        ensures rows[k].location != Missing
      {
        LadderOrdersAt(s, rows, price, tolerance, layer, k, 1);
      }
    }
  }

  /** The orders of a non-empty holding: those of all rows but the last,
      then the last row's layers. */
  lemma LadderOrdersLast(s: Scheme, rows: seq<HoldingRow>, price: string -> real, tolerance: real, layer: int)
    requires layer >= 1 && rows != [] && LadderOrders(s, rows, price, tolerance, layer).Ok?
    ensures LadderOrders(s, rows[..|rows| - 1], price, tolerance, layer).Ok?
    ensures Layers(s, rows[|rows| - 1], price, tolerance, layer, layer).Ok?
    ensures LadderOrders(s, rows, price, tolerance, layer).value ==
      LadderOrders(s, rows[..|rows| - 1], price, tolerance, layer).value +
      Layers(s, rows[|rows| - 1], price, tolerance, layer, layer).value
    ensures |LadderOrders(s, rows[..|rows| - 1], price, tolerance, layer).value| == (|rows| - 1) * layer
    ensures |LadderOrders(s, rows, price, tolerance, layer).value| == |rows| * layer
  {
    var q := rows[..|rows| - 1];
    assert LadderOrders(s, q, price, tolerance, layer).Ok?;
    LadderOrdersCount(s, rows, price, tolerance, layer);
    LadderOrdersCount(s, q, price, tolerance, layer);
  }

  /** Where layer i of row k falls among the orders of rows 0..n. */
  lemma LadderIndex(k: nat, n: nat, layer: int, i: nat)
    requires k <= n && layer >= 1 && 1 <= i <= layer
    ensures (n + 1) * layer == n * layer + layer
    ensures k < n ==> k * layer + i - 1 < n * layer
    ensures k == n ==> k * layer + i - 1 == n * layer + (i - 1)
    ensures 0 <= k * layer + i - 1 < (n + 1) * layer
  {
    if k < n {
      MulStep(k, n, layer);
    }
  }

  /** With at least one layer, order `layer·k + i − 1` is layer i of row k. */
  lemma {:induction false} LadderOrdersAt(s: Scheme, rows: seq<HoldingRow>, price: string -> real,
                                          tolerance: real, layer: int, k: nat, i: nat)
    requires layer >= 1 && k < |rows| && 1 <= i <= layer
    requires LadderOrders(s, rows, price, tolerance, layer).Ok?
    ensures |LadderOrders(s, rows, price, tolerance, layer).value| == |rows| * layer
    ensures k * layer + i - 1 < |rows| * layer && rows[k].location != Missing
    ensures LadderOrders(s, rows, price, tolerance, layer).value[k * layer + i - 1] ==
      LayerOrder(s, rows[k], i, price, tolerance, layer).value
    decreases |rows|, 1
  {
    LadderIndex(k, |rows| - 1, layer, i);
    LadderOrdersCount(s, rows, price, tolerance, layer);
    if k < |rows| - 1 {
      LadderOrdersAtEarlier(s, rows, price, tolerance, layer, k, i, k * layer + i - 1);
    } else {
      LadderOrdersAtLast(s, rows, price, tolerance, layer, k, i, k * layer + i - 1);
    }
  }

  /** A row before the last: its orders sit in the prefix. */
  lemma {:induction false} LadderOrdersAtEarlier(s: Scheme, rows: seq<HoldingRow>, price: string -> real,
                                                 tolerance: real, layer: int, k: nat, i: nat, j: nat)
    requires layer >= 1 && k < |rows| - 1 && 1 <= i <= layer && j == k * layer + i - 1
    requires LadderOrders(s, rows, price, tolerance, layer).Ok?
    ensures j < |LadderOrders(s, rows, price, tolerance, layer).value| && rows[k].location != Missing
    ensures LadderOrders(s, rows, price, tolerance, layer).value[j] == LayerOrder(s, rows[k], i, price, tolerance, layer).value
    decreases |rows|, 0
  {
    var q := rows[..|rows| - 1];
    LadderOrdersLast(s, rows, price, tolerance, layer);
    LadderOrdersAt(s, q, price, tolerance, layer, k, i);
    assert q[k] == rows[k];
  }

  /** The last row: its orders are the final `layer` ones. */
  lemma LadderOrdersAtLast(s: Scheme, rows: seq<HoldingRow>, price: string -> real,
                           tolerance: real, layer: int, k: nat, i: nat, j: nat)
    requires layer >= 1 && k == |rows| - 1 && 1 <= i <= layer && j == k * layer + i - 1
    requires LadderOrders(s, rows, price, tolerance, layer).Ok?
    ensures j < |LadderOrders(s, rows, price, tolerance, layer).value| && rows[k].location != Missing
    ensures LadderOrders(s, rows, price, tolerance, layer).value[j] == LayerOrder(s, rows[k], i, price, tolerance, layer).value
  {
    var n := |rows| - 1;
    var q := rows[..n];
    LadderOrdersLast(s, rows, price, tolerance, layer);
    var pre := LadderOrders(s, q, price, tolerance, layer).value;
    var more := Layers(s, rows[n], price, tolerance, layer, layer).value;
    assert j == |pre| + (i - 1) by {
      LadderIndex(k, n, layer, i);
    }
    assert rows[k].location != Missing && more[i - 1] == LayerOrder(s, rows[k], i, price, tolerance, layer).value by {
      LayersSpec(s, rows[k], price, tolerance, layer, layer);
    }
  }

  /** `create_buffer` for one scheme: the records concatenated. */
  function LadderBuffer(s: Scheme, rows: seq<HoldingRow>, price: string -> real, tolerance: real, layer: int)
    : (r: Result<seq<StopOrder>>)
    ensures var os := LadderOrders(s, rows, price, tolerance, layer);
      && (os.Err? ==> r == os)
      && (os.Ok? && os.value == [] ==> r == Err(NothingToConcatenate))
      && (os.Ok? && os.value != [] ==> r == os)
  {
    match LadderOrders(s, rows, price, tolerance, layer)
    case Err(e) => Err(e)
    case Ok(os) => ConcatRecords(os); Concat(RecordFrames(os))
  }

  /** The records of one row in the order the loops as written build them.
      "equal" divides by `layer` before its layer loop, so zero layers fail
      there; otherwise layers 1..layer, none for a count below one. */
  function RowRecords(s: Scheme, row: HoldingRow, price: string -> real, tolerance: real, layer: int)
    : (rs: seq<Result<StopOrder>>)
    ensures layer >= 1 ==> |rs| == layer && rs[0] == LayerOrder(s, row, 1, price, tolerance, layer)
    ensures layer < 0 || (layer == 0 && s == Geometric) ==> rs == []
  {
    if layer == 0 then (if s == Equal then [Err(NotFinite)] else [])
    else if layer < 0 then []
    else seq(layer, j requires 0 <= j < layer => LayerOrder(s, row, j + 1, price, tolerance, layer))
  }

  /** The records of every row, in holding order. */
  function LadderRecords(s: Scheme, rows: seq<HoldingRow>, price: string -> real, tolerance: real, layer: int)
    : seq<Result<StopOrder>>
  {
    if rows == [] then [] else RowRecords(s, rows[0], price, tolerance, layer) + LadderRecords(s, rows[1..], price, tolerance, layer)
  }

  /** The scheme's buffer as written: each record is wrapped at once in a
      frame built from scalars. */
  function LadderBufferAsWritten(s: Scheme, rows: seq<HoldingRow>, price: string -> real, tolerance: real, layer: int)
    : Result<seq<StopOrder>>
  {
    ConcatAsWritten(LadderRecords(s, rows, price, tolerance, layer))
  }

  /** With no layer to build, as written or not, no row contributes a record. */
  lemma {:induction false} NoLayersNoRecords(s: Scheme, rows: seq<HoldingRow>, price: string -> real,
                                             tolerance: real, layer: int)
    requires layer < 0 || (layer == 0 && s == Geometric)
    ensures LadderRecords(s, rows, price, tolerance, layer) == []
  {
    if rows != [] {
      NoLayersNoRecords(s, rows[1..], price, tolerance, layer);
    }
  }

  /** As written, neither scheme yields a buffer for any holding. With a
      layer to build, the first layer of the first row ends the loop: with
      TypeError when the row has no location, and with ValueError from its
      frame when it has; "equal" with zero layers fails on its division;
      otherwise nothing is left to concatenate. */
  lemma LadderBufferAsWrittenFails(s: Scheme, rows: seq<HoldingRow>, price: string -> real, tolerance: real, layer: int)
    ensures rows != [] && layer >= 1 ==>
      LadderBufferAsWritten(s, rows, price, tolerance, layer) ==
      Err(if rows[0].location == Missing then TypeError else ValueError)
    ensures rows != [] && layer == 0 && s == Equal ==>
      LadderBufferAsWritten(s, rows, price, tolerance, layer) == Err(NotFinite)
    ensures rows == [] || layer < 0 || (layer == 0 && s == Geometric) ==>
      LadderBufferAsWritten(s, rows, price, tolerance, layer) == Err(NothingToConcatenate)
  {
    if layer < 0 || (layer == 0 && s == Geometric) {
      NoLayersNoRecords(s, rows, price, tolerance, layer);
    } else if rows != [] {
      var first := RowRecords(s, rows[0], price, tolerance, layer);
      assert LadderRecords(s, rows, price, tolerance, layer)[0] == first[0];
      if layer >= 1 {
        var o := LayerOrder(s, rows[0], 1, price, tolerance, layer);
        assert o.Err? <==> rows[0].location == Missing;
        assert o.Err? ==> o.error == TypeError;
      }
    }
  }

  /** "equal": every layer carries `round(|a| / layer)` shares, on the side
      the position's sign gives. */
  lemma EqualShares(a: int, i: nat, layer: int)
    requires 1 <= i <= layer
    ensures LayerQuantity(Equal, a, i, layer) == RoundHalfEven(Abs(a) as real / layer as real) >= 0
    ensures LayerSide(Equal, a, i) == Sell <==> a > 0
  {
    var x := Abs(a) as real / layer as real;
    assert x >= 0.0;
  }

  /** "geom": the first layer takes at most the position, each later layer at
      most the one before, and none is negative. */
  lemma GeomQuantitiesShrink(a: int, i: nat, layer: int)
    requires 1 <= i < layer
    ensures 0 <= LayerQuantity(Geometric, a, 1, layer) <= Abs(a)
    ensures 0 <= LayerQuantity(Geometric, a, i + 1, layer) <= LayerQuantity(Geometric, a, i, layer)
  {
    assert Carried(a, 1) == DivPow2(a, 1);
    DivPow2AtMost(a, 1);
    var c := Carried(a, i);
    assert c == DivPow2(Carried(a, i - 1), i);
    var d := Carried(a, i + 1);
    assert d == DivPow2(c, i + 1);
    DivPow2AtMost(c, i + 1);
    if i + 1 == layer {
      DivPow2AtMost(d, i + 1);
    }
  }

  /** "geom": layer 1 takes its side from the position; every later layer
      from the non-negative amount the previous layer left, so it is a sell
      unless that amount is 0. */
  lemma GeomSides(a: int, i: nat)
    requires i >= 1
    ensures i == 1 ==> (LayerSide(Geometric, a, i) == Sell <==> a > 0)
    ensures i >= 2 ==> (LayerSide(Geometric, a, i) == Sell <==> Carried(a, i - 1) != 0)
  {
    if i >= 2 {
      assert Carried(a, i - 1) == DivPow2(Carried(a, i - 2), i - 1);
    }
  }

  /** "geom" on 64 shares in three layers gives 32, 8 and 0: each layer
      divides what the previous one left (dividing the position would give
      32, 16 and 8), and the last is divided by 8 once more. */
  lemma GeomExample()
    ensures LayerQuantity(Geometric, 64, 1, 3) == 32
    ensures LayerQuantity(Geometric, 64, 2, 3) == 8
    ensures LayerQuantity(Geometric, 64, 3, 3) == 0
  {
    assert Pow2(1) == 2 && Pow2(2) == 4 && Pow2(3) == 8;
    assert Carried(64, 1) == 32 by { RoundOfInteger(32); }
    assert Carried(64, 2) == 8 by { RoundOfInteger(8); }
    assert Carried(64, 3) == 1 by { RoundOfInteger(1); }
    assert DivPow2(1, 3) == 0 by { RoundHalfEvenUnique(1.0 / 8.0, 0); }
  }

  /** The buffer object: the strategy's holding, the tolerance, the number of
      layers, the scheme's name, and the frame of orders. */
  class LadderStopBuffer {
    const holding: seq<HoldingRow>
    const tolerance: real
    const layer: int
    const scheme: string
    var buffer: seq<StopOrder>

    constructor (holding: seq<HoldingRow>, tolerance: real, layer: int, scheme: string)
      ensures this.holding == holding && this.tolerance == tolerance
      ensures this.layer == layer && this.scheme == scheme && buffer == []
    {
      this.holding := holding;
      this.tolerance := tolerance;
      this.layer := layer;
      this.scheme := scheme;
      buffer := [];
    }

    /** `create_buffer`: an unknown scheme only prints a notice. */
    method CreateBuffer(price: string -> real) returns (outcome: Outcome)
      modifies this
      ensures match Dispatch(scheme)
        case None => outcome == Done && buffer == old(buffer)
        case Some(s) =>
          match LadderBuffer(s, holding, price, tolerance, layer)
          case Ok(b) => outcome == Done && buffer == b
          case Err(e) => outcome == Failed(e) && buffer == old(buffer)
    {
      if scheme == EqualMethod {
        outcome := EqualBuffer(price);
      } else if scheme == GeomMethod {
        outcome := GeometricHalfBuffer(price);
      } else {
        outcome := Done;
      }
    }

    /** `__single_buffer` */
    method SingleBuffer(i: nat, row: HoldingRow, side: Side, amount: int, price: string -> real)
      returns (r: Result<StopOrder>)
      requires layer != 0
      ensures r == SingleOrder(i, row, side, amount, price, tolerance, layer)
    {
      var ratio := 1.0 - tolerance * (i as real / layer as real);
      var current := price(row.ticker);
      var tag := StopLabel(row.ticker, row.location);
      if tag.Err? {
        return Err(tag.error);
      }
      var order := StopOrder(tag.value, side, amount, StopType, current * ratio);
      ghost var expected := SingleOrder(i, row, side, amount, price, tolerance, layer).value;
      assert expected.ticker == order.ticker && expected.price == order.price;
      return Ok(order);
    }

    /** The end of both schemes: concatenate, or fail on nothing. */
    method Store(orders: seq<StopOrder>) returns (outcome: Outcome)
      modifies this
      ensures match Concat(RecordFrames(orders))
        case Ok(b) => outcome == Done && buffer == b
        case Err(e) => outcome == Failed(e) && buffer == old(buffer)
    {
      ConcatRecords(orders);
      if orders == [] {
        return Failed(NothingToConcatenate);
      }
      buffer := orders;
      return Done;
    }

    /** `_equal_buffer` */
    method EqualBuffer(price: string -> real) returns (outcome: Outcome)
      modifies this
      ensures match LadderBuffer(Equal, holding, price, tolerance, layer)
        case Ok(b) => outcome == Done && buffer == b
        case Err(e) => outcome == Failed(e) && buffer == old(buffer)
    {
      var orders: seq<StopOrder> := [];
      for k := 0 to |holding|
        invariant LadderOrders(Equal, holding[..k], price, tolerance, layer) == Ok(orders)
        invariant buffer == old(buffer)
      {
        assert holding[..k + 1][..k] == holding[..k];
        var more := EqualLayers(holding[k], price);
        if more.Err? {
          assert holding[..k + 1][k] == holding[k];
          LadderOrdersFailurePersists(Equal, holding, price, tolerance, layer, k + 1);
          return Failed(more.error);
        }
        orders := orders + more.value;
      }
      assert holding[..|holding|] == holding;
      outcome := Store(orders);
    }

    /** One row of `_equal_buffer`: the share is computed once, before the
        layer loop. */
    method EqualLayers(row: HoldingRow, price: string -> real) returns (r: Result<seq<StopOrder>>)
      ensures r == RowOrders(Equal, row, price, tolerance, layer)
    {
      if layer == 0 {
        return Err(NotFinite);
      }
      var amount := RoundHalfEven(Abs(row.amount) as real / layer as real);
      var side := if row.amount > 0 then Sell else Buy;
      var orders: seq<StopOrder> := [];
      if layer > 0 {
        for i := 1 to layer + 1
          invariant Layers(Equal, row, price, tolerance, layer, i - 1) == Ok(orders)
        {
          var order := SingleBuffer(i, row, side, amount, price);
          if order.Err? {
            LayersFailurePersists(Equal, row, price, tolerance, layer, i, layer);
            return Err(order.error);
          }
          orders := orders + [order.value];
        }
      }
      return Ok(orders);
    }

    /** `_geometric_half_buffer` */
    method GeometricHalfBuffer(price: string -> real) returns (outcome: Outcome)
      modifies this
      ensures match LadderBuffer(Geometric, holding, price, tolerance, layer)
        case Ok(b) => outcome == Done && buffer == b
        case Err(e) => outcome == Failed(e) && buffer == old(buffer)
    {
      var orders: seq<StopOrder> := [];
      for k := 0 to |holding|
        invariant LadderOrders(Geometric, holding[..k], price, tolerance, layer) == Ok(orders)
        invariant buffer == old(buffer)
      {
        assert holding[..k + 1][..k] == holding[..k];
        var more := GeometricLayers(holding[k], price);
        if more.Err? {
          assert holding[..k + 1][k] == holding[k];
          LadderOrdersFailurePersists(Geometric, holding, price, tolerance, layer, k + 1);
          return Failed(more.error);
        }
        orders := orders + more.value;
      }
      assert holding[..|holding|] == holding;
      outcome := Store(orders);
    }

    /** One row of `_geometric_half_buffer`: layer i divides `amount` by
        `2 ** i`, and the last layer divides it once more by `2 ** layer`. */
    method GeometricLayers(row: HoldingRow, price: string -> real) returns (r: Result<seq<StopOrder>>)
      ensures r == RowOrders(Geometric, row, price, tolerance, layer)
    {
      var amount := row.amount;
      var orders: seq<StopOrder> := [];
      if layer > 0 {
        for i := 1 to layer + 1
          invariant i <= layer ==> amount == Carried(row.amount, i - 1)
          invariant Layers(Geometric, row, price, tolerance, layer, i - 1) == Ok(orders)
        {
          var side := if amount > 0 then Sell else Buy;
          assert side == LayerSide(Geometric, row.amount, i);
          amount := DivPow2(amount, i);
          assert amount == Carried(row.amount, i);
          if i == layer {
            amount := DivPow2(amount, layer);
          }
          assert amount == LayerQuantity(Geometric, row.amount, i, layer);
          var order := SingleBuffer(i, row, side, amount, price);
          if order.Err? {
            LayersFailurePersists(Geometric, row, price, tolerance, layer, i, layer);
            return Err(order.error);
          }
          orders := orders + [order.value];
        }
      }
      return Ok(orders);
    }
  }
}
