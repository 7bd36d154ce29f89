/**
 * Orders as the broker hands them to the strategy engine: `CCXTOrder`,
 * built from the exchange's acknowledgement of a placed order.
 */
module Orders {
  import opened Wrappers

  datatype Side = Buy | Sell

  /** backtrader's execution types; the broker maps only four of them. */
  datatype ExecType = Market | Close | Limit | Stop | StopLimit | StopTrail | StopTrailLimit | Historical

  /** The strategy that placed an order; the broker only stores it. */
  datatype Owner = Owner(name: string)

  /** A data feed; the broker only reads its `BASE/QUOTE` symbol. */
  datatype Feed = Feed(symbol: string)

  /**
   * The exchange-native fields found under an acknowledgement's `info` key.
   * A key the exchange left out is `None`; `original_amount` is already a number.
   */
  datatype Info = Info(side: Option<string>, originalAmount: Option<real>)

  /** The exchange's own structure for an order: its `id` and its `info` dictionary. */
  datatype Ack = Ack(id: Option<string>, info: Option<Info>)

  /** An order as the engine sees it; `ack` is kept verbatim. */
  datatype Order = Order(owner: Owner, data: Feed, ack: Ack, side: Side, size: real)

  /** The side string `buy` and `sell` send to the exchange. */
  function SideName(s: Side): string
  {
    match s
    case Buy => "buy"
    case Sell => "sell"
  }

  /** The side recorded for a side string the exchange reports: an exact, case-sensitive test for "buy". */
  function SideOf(reported: string): (s: Side)
    ensures s == Buy <==> reported == "buy"
    ensures s == Sell <==> reported != "buy"
  {
    if reported == "buy" then Buy else Sell
  }

  /**
   * `CCXTOrder.__init__`: reads `info.side`, then `info.original_amount`;
   * the first key that is missing raises `KeyError` and no order exists.
   */
  function MakeOrder(owner: Owner, data: Feed, ack: Ack): (r: Result<Order, Error>)
    ensures r.Ok? <==> ack.info.Some? && ack.info.value.side.Some? && ack.info.value.originalAmount.Some?
    ensures r.Ok? ==> r.value.owner == owner && r.value.data == data && r.value.ack == ack
    ensures r.Ok? ==> (r.value.side == Buy <==> ack.info.value.side.value == "buy")
    ensures r.Ok? ==> r.value.size == ack.info.value.originalAmount.value
    ensures ack.info.None? ==> r == Err(KeyError("info"))
    ensures ack.info.Some? && ack.info.value.side.None? ==> r == Err(KeyError("side"))
    ensures ack.info.Some? && ack.info.value.side.Some? && ack.info.value.originalAmount.None?
            ==> r == Err(KeyError("original_amount"))
  {
    match ack.info
    case None => Err(KeyError("info"))
    case Some(info) =>
      match info.side
      case None => Err(KeyError("side"))
      case Some(reported) =>
        match info.originalAmount
        case None => Err(KeyError("original_amount"))
        case Some(amount) => Ok(Order(owner, data, ack, SideOf(reported), amount))
  }

  /** An exchange that echoes the side it was sent gives back an order of that side. */
  lemma SideRoundTrip(s: Side)
    ensures SideOf(SideName(s)) == s
  {
  }

  /** Any other spelling of "buy", however close, is recorded as a sell. */
  lemma SideIsCaseSensitive()
    ensures SideOf("Buy") == Sell && SideOf("BUY") == Sell && SideOf("") == Sell
  {
  }
}
