/**
 * `CCXTBroker`: backtrader's broker interface on top of a ccxt exchange.
 * Cash and value are snapshots refreshed on each query, accepted orders are
 * queued for the engine to poll, and order kinds are translated through a
 * fixed table.
 */
module CcxtBroker {
  import opened Wrappers
  import opened Orders
  import opened Exchanges
  import Notifications

  /** `order_types`: backtrader's execution type to the exchange's order type string. */
  const OrderTypes: map<ExecType, string> :=
    map[Market := "market", Limit := "limit", Stop := "stop", StopLimit := "stop limit"]

  /** `order_types.get(exectype)`: the type string, or None for an unmapped kind or no kind at all. */
  function OrderType(exectype: Option<ExecType>): (t: Option<string>)
    ensures t.Some? <==> exectype.Some? && exectype.value in {Market, Limit, Stop, StopLimit}
    ensures t.Some? ==> t.value in {"market", "limit", "stop", "stop limit"}
  {
    if exectype.Some? && exectype.value in OrderTypes then Some(OrderTypes[exectype.value]) else None
  }

  /** The table has exactly four entries, with these strings, and no two kinds share a string. */
  lemma OrderTypesTable()
    ensures OrderTypes.Keys == {Market, Limit, Stop, StopLimit} && |OrderTypes| == 4
    ensures OrderType(Some(Market)) == Some("market") && OrderType(Some(Limit)) == Some("limit")
    ensures OrderType(Some(Stop)) == Some("stop") && OrderType(Some(StopLimit)) == Some("stop limit")
    ensures forall a, b :: OrderType(Some(a)).Some? && OrderType(Some(a)) == OrderType(Some(b)) ==> a == b
  {
  }

  /** `symbol.split('/')[0]`: the currency code before the first `/`, or the whole symbol. */
  function BaseCurrency(symbol: string): (base: string)
    ensures base <= symbol
    ensures '/' !in base
    ensures |base| < |symbol| ==> symbol[|base|] == '/'
  {
    if symbol == [] || symbol[0] == '/' then [] else [symbol[0]] + BaseCurrency(symbol[1..])
  }

  /** The base of a `BASE/QUOTE` symbol is BASE, whatever QUOTE is. */
  lemma {:induction false} BaseOfPair(base: string, quote: string)
    requires '/' !in base
    ensures BaseCurrency(base + "/" + quote) == base
  {
    if base != [] {
      assert (base + "/" + quote)[1..] == base[1..] + "/" + quote;
      BaseOfPair(base[1..], quote);
    }
  }

  /** The position of "BTC/USD" is read from the BTC balance, not the USD one. */
  lemma PositionCurrencyExample()
    ensures BaseCurrency("BTC/USD") == "BTC"
  {
  }

  /**
   * What `_submit` returns for the exchange's reply to its `create_order`
   * call: the exchange's failure, or the order built from the acknowledgement.
   */
  function Accepted(reply: Result<Ack, Error>, owner: Owner, data: Feed): (r: Result<Order, Error>)
    ensures reply.Err? ==> r == Err(reply.error)
    ensures reply.Ok? ==> r == MakeOrder(owner, data, reply.value)
    ensures r.Ok? ==> reply.Ok? && r.value.ack == reply.value
  {
    match reply
    case Err(e) => Err(e)
    case Ok(ack) => MakeOrder(owner, data, ack)
  }

  /** The `create_order` arguments `_submit` sends. */
  function Request(data: Feed, exectype: Option<ExecType>, side: string, amount: real,
                   price: Option<real>, params: map<string, string>): CreateRequest
  {
    CreateRequest(data.symbol, OrderType(exectype), side, amount, price, params)
  }

  class Broker {
    const exchange: Exchange
    const currency: string
    const startingcash: real
    const startingvalue: real
    var cash: real
    var value: real
    /** The notification queue, oldest entry first. */
    var notifs: seq<Order>

    constructor (exchange: Exchange, currency: string)
      ensures this.exchange == exchange && this.currency == currency
      ensures cash == startingcash == 0.0 && value == startingvalue == 0.0
      ensures notifs == []
    {
      this.exchange := exchange;
      this.currency := currency;
      notifs := [];
      startingcash, cash := 0.0, 0.0;
      startingvalue, value := 0.0, 0.0;
    }

    /** `getcash`: the free balance of the broker's currency, also stored in `cash`. */
    method GetCash() returns (r: Result<real, Error>)
      modifies this`cash, exchange`account
      ensures r == Lookup(exchange.account, Free, currency)
      ensures cash == if r.Ok? then r.value else old(cash)
    {
      var fetched := exchange.FetchBalance();
      r := Lookup(fetched, Free, currency);
      if r.Ok? {
        cash := r.value;
      }
    }

    /** `getvalue`: the total balance of the broker's currency, also stored in `value`. */
    method GetValue() returns (r: Result<real, Error>)
      modifies this`value, exchange`account
      ensures r == Lookup(exchange.account, Total, currency)
      ensures value == if r.Ok? then r.value else old(value)
    {
      var fetched := exchange.FetchBalance();
      r := Lookup(fetched, Total, currency);
      if r.Ok? {
        value := r.value;
      }
    }

    /** `getposition`: the total balance of the feed's base currency; nothing is stored. */
    method GetPosition(data: Feed) returns (r: Result<real, Error>)
      modifies exchange`account
      ensures r == Lookup(exchange.account, Total, BaseCurrency(data.symbol))
    {
      var base := BaseCurrency(data.symbol);
      var fetched := exchange.FetchBalance();
      r := Lookup(fetched, Total, base);
    }

    /** `get_notification`: the oldest queued order, removed, or None when nothing is queued. */
    method GetNotification() returns (r: Option<Order>)
      modifies this`notifs
      ensures (r, notifs) == Notifications.TryGet(old(notifs))
    {
      r := if notifs == [] then None else Some(notifs[0]);
      if notifs != [] {
        notifs := notifs[1..];
      }
    }

    /** `notify`: queues an order behind every order already queued. */
    method Notify(order: Order)
      modifies this`notifs
      ensures notifs == old(notifs) + [order]
    {
      notifs := notifs + [order];
    }

    /**
     * `_submit`: exactly one `create_order` call, with the mapped order type
     * (None for an unmapped kind: nothing is rejected up front). An accepted
     * order is queued once and returned; a failed call or an acknowledgement
     * that lacks a field queues nothing.
     */
    method Submit(owner: Owner, data: Feed, exectype: Option<ExecType>, side: string,
                  amount: real, price: Option<real>, params: map<string, string>)
      returns (r: Result<Order, Error>)
      modifies this`notifs, exchange`created, exchange`account
      ensures exchange.created == old(exchange.created) + [Request(data, exectype, side, amount, price, params)]
      ensures r == Accepted(exchange.createReply(|old(exchange.created)|,
                                                 Request(data, exectype, side, amount, price, params)),
                            owner, data)
      ensures notifs == if r.Ok? then old(notifs) + [r.value] else old(notifs)
    {
      var reply := exchange.CreateOrder(Request(data, exectype, side, amount, price, params));
      r := Accepted(reply, owner, data);
      if r.Ok? {
        Notify(r.value);
      }
    }

    /**
     * `buy`: `_submit` with side "buy", `size` as the amount and the price unchanged;
     * `plimit`, `valid`, `tradeid`, `oco`, `trailamount` and `trailpercent` are ignored;
     * `kwargs` become the params.
     */
    method Buy(owner: Owner, data: Feed, size: real, price: Option<real>, plimit: Option<real>,
               exectype: Option<ExecType>, valid: Option<real>, tradeid: int, oco: Option<Order>,
               trailamount: Option<real>, trailpercent: Option<real>, kwargs: map<string, string>)
      returns (r: Result<Order, Error>)
      modifies this`notifs, exchange`created, exchange`account
      ensures exchange.created == old(exchange.created) + [Request(data, exectype, "buy", size, price, kwargs)]
      ensures r == Accepted(exchange.createReply(|old(exchange.created)|,
                                                 Request(data, exectype, "buy", size, price, kwargs)),
                            owner, data)
      ensures notifs == if r.Ok? then old(notifs) + [r.value] else old(notifs)
    {
      r := Submit(owner, data, exectype, SideName(Orders.Buy), size, price, kwargs);
    }

    /** `sell`: `_submit` with side "sell"; otherwise exactly as `buy`. */
    method Sell(owner: Owner, data: Feed, size: real, price: Option<real>, plimit: Option<real>,
                exectype: Option<ExecType>, valid: Option<real>, tradeid: int, oco: Option<Order>,
                trailamount: Option<real>, trailpercent: Option<real>, kwargs: map<string, string>)
      returns (r: Result<Order, Error>)
      modifies this`notifs, exchange`created, exchange`account
      ensures exchange.created == old(exchange.created) + [Request(data, exectype, "sell", size, price, kwargs)]
      ensures r == Accepted(exchange.createReply(|old(exchange.created)|,
                                                 Request(data, exectype, "sell", size, price, kwargs)),
                            owner, data)
      ensures notifs == if r.Ok? then old(notifs) + [r.value] else old(notifs)
    {
      r := Submit(owner, data, exectype, SideName(Orders.Sell), size, price, kwargs);
    }

    /**
     * `cancel`: one `cancel_order` call for the order's exchange id, whose
     * reply is passed back; no broker field and no queued order changes.
     * An order whose acknowledgement has no id raises `KeyError` before any call.
     */
    method Cancel(order: Order) returns (r: Result<Ack, Error>)
      modifies exchange`cancelled, exchange`account
      ensures order.ack.id.None? ==> r == Err(KeyError("id")) && exchange.cancelled == old(exchange.cancelled)
      ensures order.ack.id.Some? ==>
                exchange.cancelled == old(exchange.cancelled) + [order.ack.id.value] &&
                r == exchange.cancelReply(|old(exchange.cancelled)|, order.ack.id.value)
    {
      match order.ack.id
      case None =>
        r := Err(KeyError("id"));
      case Some(id) =>
        r := exchange.CancelOrder(id);
    }
  }

  /** Two orders notified on an empty queue are polled back in notify order, then the queue reports empty. */
  method PollInNotifyOrder(b: Broker, x: Order, y: Order) returns (first: Option<Order>, second: Option<Order>, third: Option<Order>)
    requires b.notifs == []
    modifies b`notifs
    ensures first == Some(x) && second == Some(y) && third == None
    ensures b.notifs == []
  {
    b.Notify(x);
    b.Notify(y);
    first := b.GetNotification();
    second := b.GetNotification();
    third := b.GetNotification();
  }
}
