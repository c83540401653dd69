/** The full stop-order buffer: one stop order per holding row, for the whole
    position, at a fixed tolerance below the current price. Current prices
    are an input (`price`). */
module FullStopOrderBuffer {
  import opened Wrappers
  import opened Holding
  import opened ProtectionBuffer

  /** The record for one holding row. */
  function FullOrder(row: HoldingRow, price: string -> real, tolerance: real): (r: Result<StopOrder>)
    ensures r.Ok? <==> row.location != Missing
    ensures r.Err? ==> r.error == TypeError
  {
    match StopLabel(row.ticker, row.location)
    case Err(e) => Err(e)
    case Ok(tag) =>
      Ok(StopOrder(tag, StopSide(row.amount), Abs(row.amount), StopType, price(row.ticker) * (1.0 - tolerance)))
  }

  /** The order record of every row, in holding order; the first row without
      a location fails. */
  function FullOrders(rows: seq<HoldingRow>, price: string -> real, tolerance: real): (r: Result<seq<StopOrder>>)
    ensures r.Ok? ==> |r.value| == |rows|
  {
    if rows == [] then Ok([])
    else
      var n := |rows| - 1;
      match FullOrders(rows[..n], price, tolerance)
      case Err(e) => Err(e)
      case Ok(os) =>
        match FullOrder(rows[n], price, tolerance)
        case Err(e) => Err(e)
        case Ok(o) => Ok(os + [o])
  }

  /** `create_buffer`: the records concatenated into one frame. */
  function FullBuffer(rows: seq<HoldingRow>, price: string -> real, tolerance: real): (r: Result<seq<StopOrder>>)
    ensures rows == [] ==> r == Err(NothingToConcatenate)
    ensures rows != [] && FullOrders(rows, price, tolerance).Ok? ==> r == FullOrders(rows, price, tolerance)
    ensures FullOrders(rows, price, tolerance).Err? ==> r == FullOrders(rows, price, tolerance)
  {
    match FullOrders(rows, price, tolerance)
    case Err(e) => Err(e)
    case Ok(os) => ConcatRecords(os); Concat(RecordFrames(os))
  }

  /** `create_buffer` as written: the records in holding order, each
      wrapped at once in a frame built from scalars. */
  function FullBufferAsWritten(rows: seq<HoldingRow>, price: string -> real, tolerance: real): Result<seq<StopOrder>>
  {
    ConcatAsWritten(seq(|rows|, i requires 0 <= i < |rows| => FullOrder(rows[i], price, tolerance)))
  }

  /** As written, no holding yields a buffer: an empty one leaves nothing to
      concatenate, and otherwise the first row ends the loop, with TypeError
      when it has no location and ValueError from its frame when it has. */
  lemma FullBufferAsWrittenFails(rows: seq<HoldingRow>, price: string -> real, tolerance: real)
    ensures rows == [] ==> FullBufferAsWritten(rows, price, tolerance) == Err(NothingToConcatenate)
    ensures rows != [] ==>
      FullBufferAsWritten(rows, price, tolerance) ==
      Err(if rows[0].location == Missing then TypeError else ValueError)
  {
  }

  /** With every location present, every row gets its record. */
  lemma {:induction false} FullOrdersSucceed(rows: seq<HoldingRow>, price: string -> real, tolerance: real)
    requires forall k :: 0 <= k < |rows| ==> rows[k].location != Missing
    ensures FullOrders(rows, price, tolerance).Ok?
  {
    if rows != [] {
      var n := |rows| - 1;
      var q := rows[..n];
      assert forall k :: 0 <= k < n ==> q[k] == rows[k];
      FullOrdersSucceed(q, price, tolerance);
      assert FullOrder(rows[n], price, tolerance).Ok?;
    }
  }

  /** A successful run is the run over all rows but the last, then the last row's record. */
  lemma FullOrdersLast(rows: seq<HoldingRow>, price: string -> real, tolerance: real)
    requires rows != [] && FullOrders(rows, price, tolerance).Ok?
    ensures FullOrders(rows[..|rows| - 1], price, tolerance).Ok? && FullOrder(rows[|rows| - 1], price, tolerance).Ok?
    ensures FullOrders(rows, price, tolerance).value
         == FullOrders(rows[..|rows| - 1], price, tolerance).value + [FullOrder(rows[|rows| - 1], price, tolerance).value]
  {
  }

  /** Record k of a successful run is row k's record. */
  lemma {:induction false} FullOrdersAt(rows: seq<HoldingRow>, price: string -> real, tolerance: real, k: nat)
    requires k < |rows| && FullOrders(rows, price, tolerance).Ok?
    ensures FullOrder(rows[k], price, tolerance).Ok?
    ensures FullOrders(rows, price, tolerance).value[k] == FullOrder(rows[k], price, tolerance).value
  {
    var n := |rows| - 1;
    FullOrdersLast(rows, price, tolerance);
    if k < n {
      FullOrdersAt(rows[..n], price, tolerance, k);
      assert rows[..n][k] == rows[k];
    }
  }

  /** Every row has a record exactly when every row has a location, and the
      k-th record belongs to the k-th row. */
  lemma FullOrdersSpec(rows: seq<HoldingRow>, price: string -> real, tolerance: real)
    ensures FullOrders(rows, price, tolerance).Ok? <==> forall k :: 0 <= k < |rows| ==> rows[k].location != Missing
    ensures FullOrders(rows, price, tolerance).Ok? ==>
      forall k :: 0 <= k < |rows| ==> FullOrders(rows, price, tolerance).value[k] == FullOrder(rows[k], price, tolerance).value
  {
    if forall k :: 0 <= k < |rows| ==> rows[k].location != Missing {
      FullOrdersSucceed(rows, price, tolerance);
    }
    if FullOrders(rows, price, tolerance).Ok? {
      forall k | 0 <= k < |rows|
        ensures rows[k].location != Missing
        ensures FullOrders(rows, price, tolerance).value[k] == FullOrder(rows[k], price, tolerance).value
      {
        FullOrdersAt(rows, price, tolerance, k);
      }
    }
  }

  /** The buffer holds one order per holding row, in holding order, for the
      whole position: a sell stop for a long position and a buy stop
      otherwise, at `price · (1 − tolerance)`, labelled ticker ++ location. */
  lemma FullBufferSpec(rows: seq<HoldingRow>, price: string -> real, tolerance: real)
    ensures var b := FullBuffer(rows, price, tolerance);
      && (b.Ok? <==> rows != [] && forall k :: 0 <= k < |rows| ==> rows[k].location != Missing)
      && (b.Ok? ==> |b.value| == |rows|)
      && (b.Ok? ==> forall k :: 0 <= k < |rows| ==>
            && b.value[k].quantity == Abs(rows[k].amount)
            && (b.value[k].side == Sell <==> rows[k].amount > 0)
            && b.value[k].orderType == StopType
            && b.value[k].price == price(rows[k].ticker) * (1.0 - tolerance)
            && b.value[k].ticker == rows[k].ticker + LocationText(rows[k].location).value)
  {
    FullOrdersSpec(rows, price, tolerance);
    var r := FullOrders(rows, price, tolerance);
    if r.Ok? {
      ConcatRecords(r.value);
    }
  }

  lemma {:induction false} FullOrdersFailurePersists(rows: seq<HoldingRow>, price: string -> real, tolerance: real, n: nat)
    requires n <= |rows| && FullOrders(rows[..n], price, tolerance).Err?
    ensures FullOrders(rows, price, tolerance) == FullOrders(rows[..n], price, tolerance)
    decreases |rows| - n
  {
    if n < |rows| {
      var k := |rows|;
      assert rows[..k] == rows;
      assert rows[..k - 1][..n] == rows[..n];
      FullOrdersFailurePersists(rows[..k - 1], price, tolerance, n);
    } else {
      assert rows[..n] == rows;
    }
  }

  /** The buffer object: the strategy's holding, the tolerance, and the
      frame of orders. */
  class FullStopBuffer {
    const holding: seq<HoldingRow>
    const tolerance: real
    var buffer: seq<StopOrder>

    constructor (holding: seq<HoldingRow>, tolerance: real)
      ensures this.holding == holding && this.tolerance == tolerance && buffer == []
    {
      this.holding := holding;
      this.tolerance := tolerance;
      buffer := [];
    }

    /** `create_buffer` */
    method CreateBuffer(price: string -> real) returns (outcome: Outcome)
      modifies this
      ensures match FullBuffer(holding, price, tolerance)
        case Ok(b) => outcome == Done && buffer == b
        case Err(e) => outcome == Failed(e) && buffer == old(buffer)
    {
      var orders: seq<StopOrder> := [];
      for i := 0 to |holding|
        invariant FullOrders(holding[..i], price, tolerance) == Ok(orders)
      {
        var row := holding[i];
        assert holding[..i + 1][..i] == holding[..i];
        var tag := StopLabel(row.ticker, row.location);
        if tag.Err? {
          FullOrdersFailurePersists(holding, price, tolerance, i + 1);
          return Failed(tag.error);
        }
        var amount, sell := Abs(row.amount), row.amount > 0;
        var order := StopOrder(tag.value, if sell then Sell else Buy, amount, StopType,
                               price(row.ticker) * (1.0 - tolerance));
        ghost var expected := FullOrder(row, price, tolerance).value;
        assert expected.ticker == order.ticker && expected.side == order.side;
        assert expected.quantity == order.quantity && expected.price == order.price;
        assert FullOrder(row, price, tolerance) == Ok(order);
        orders := orders + [order];
      }
      assert holding[..|holding|] == holding;
      ConcatRecords(orders);
      if orders == [] {
        return Failed(NothingToConcatenate);
      }
      buffer := orders;
      return Done;
    }
  }
}
