/** The holding table that the strategy hands on: one row per instrument with
    its signed share count and the exchange it trades on. */
module Holding {
  import opened Wrappers

  /** The `location` column: "CA", "US", or NaN for a ticker on neither list. */
  datatype Location = CA | US | Missing

  /** The "Buy/Sell" column of an order. */
  datatype Side = Buy | Sell

  datatype HoldingRow = HoldingRow(ticker: string, amount: int, location: Location)

  /** The location as the text Python concatenates to a ticker; a NaN has none. */
  function LocationText(l: Location): (r: Option<string>)
    ensures r.None? <==> l == Missing
  {
    match l
    case CA => Some("CA")
    case US => Some("US")
    case Missing => None
  }

  /** `abs` on a share count. */
  function Abs(x: int): (r: nat)
    ensures r == x || r == -x
  {
    if x < 0 then -x else x
  }
}
