/** The "buy" basket that `store_buy` writes: one market order per holding
    row, built column by column. The Excel writes are not modelled; the
    basket itself is the result. */
module DataStorer {
  import opened Wrappers
  import opened Holding
  import ProtectionBuffer
  import DataLoader

  const MarketType: string := "MKT"

  /** One row of the basket: "Ticker", "Buy/Sell", "Quantity", "Type". A row
      whose location is NaN gets a NaN ticker, written here as `None`. */
  datatype MarketOrder = MarketOrder(ticker: Option<string>, side: Side, quantity: nat, orderType: string)

  /** `ticker + "-" + location`, element-wise; pandas turns a NaN location
      into a NaN label rather than raising. */
  function BasketLabel(ticker: string, location: Location): (r: Option<string>)
    ensures r.None? <==> location == Missing
    ensures r.Some? ==> |r.value| == |ticker| + 3 && r.value[..|ticker|] == ticker && r.value[|ticker|] == '-'
    ensures r.Some? ==> Some(r.value[|ticker| + 1..]) == LocationText(location)
  {
    match LocationText(location)
    case None => None
    case Some(text) => Some(ticker + "-" + text)
  }

  /** `np.where(amount > 0, "Buy", "Sell")`: a zero amount is a sell. */
  function MarketSide(amount: int): (s: Side)
    ensures s == Buy <==> amount > 0
  {
    if amount > 0 then Buy else Sell
  }

  /** The basket of `store_buy`. */
  function Basket(holding: seq<HoldingRow>): (r: seq<MarketOrder>)
    ensures |r| == |holding|
    ensures forall k :: 0 <= k < |r| ==>
      && r[k].orderType == MarketType
      && (r[k].side == Buy <==> holding[k].amount > 0)
      && (r[k].quantity == holding[k].amount || r[k].quantity == -holding[k].amount)
      && r[k].ticker == BasketLabel(holding[k].ticker, holding[k].location)
  {
    seq(|holding|, k requires 0 <= k < |holding| =>
      MarketOrder(BasketLabel(holding[k].ticker, holding[k].location),
                  MarketSide(holding[k].amount), Abs(holding[k].amount), MarketType))
  }

  /** The share count a market order stands for: bought shares count up,
      sold shares down. */
  function SignedQuantity(o: MarketOrder): int
  {
    if o.side == Buy then o.quantity else -(o.quantity as int)
  }

  /** The basket loses nothing: every row's signed amount, zero included, is
      recovered from its order's side and quantity. */
  lemma BasketRoundTrip(holding: seq<HoldingRow>)
    ensures forall k :: 0 <= k < |holding| ==> SignedQuantity(Basket(holding)[k]) == holding[k].amount
  {
    forall k | 0 <= k < |holding|
      ensures SignedQuantity(Basket(holding)[k]) == holding[k].amount
    {
      var o := Basket(holding)[k];
      assert o.quantity == Abs(holding[k].amount);
    }
  }

  /** A market order and the stop order protecting the same row always take
      opposite sides, a zero amount included (sell here, buy there). */
  lemma OppositeSides(amount: int)
    ensures MarketSide(amount) == Buy <==> ProtectionBuffer.StopSide(amount) == Sell
    ensures MarketSide(amount) != ProtectionBuffer.StopSide(amount)
  {
  }

  /** The loader's ticker normalisation turns a basket label back into its
      ticker when the ticker itself has no '-'. */
  lemma BasketLabelNormalizes(ticker: string, location: Location)
    requires '-' !in ticker && location != Missing
    ensures DataLoader.Normalize(BasketLabel(ticker, location).value) == ticker
  {
    DataLoader.NormalizeUnique(BasketLabel(ticker, location).value, ticker);
  }

  /** The basket label and the stop label differ only in the dash. */
  lemma LabelsAgree(ticker: string, location: Location)
    requires location != Missing
    ensures var m := BasketLabel(ticker, location).value;
      var s := ProtectionBuffer.StopLabel(ticker, location).value;
      s == m[..|ticker|] + m[|ticker| + 1..]
  {
  }
}
