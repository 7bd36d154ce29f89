/**
 * The exchange client the broker talks to, reduced to what the broker can
 * observe: the balance `fetch_balance` answers with, and the replies of
 * `create_order` and `cancel_order`, given in advance per call.
 * Every call that changes the exchange is logged, so contracts can say how
 * many calls were made and with what arguments.
 */
module Exchanges {
  import opened Wrappers
  import opened Orders

  /** A balance snapshot: `free` and `total` amounts per currency code. */
  datatype Balance = Balance(free: map<string, real>, total: map<string, real>)

  datatype Column = Free | Total

  /** The arguments of one `create_order` call. `orderType` is None when the kind has no mapping. */
  datatype CreateRequest = CreateRequest(
    symbol: string, orderType: Option<string>, side: string,
    amount: real, price: Option<real>, params: map<string, string>)

  class Exchange {
    /**
     * What `fetch_balance` answers at this moment: a snapshot or a failure.
     * It may move between any two calls: orders fill, funds arrive, placing or
     * cancelling an order reserves or releases funds.
     */
    var account: Result<Balance, Error>
    /** The reply to the n-th `create_order` call, given its arguments. */
    const createReply: (nat, CreateRequest) -> Result<Ack, Error>
    /** The reply to the n-th `cancel_order` call, given the order id. */
    const cancelReply: (nat, string) -> Result<Ack, Error>
    /** Every `create_order` call made so far, oldest first. */
    var created: seq<CreateRequest>
    /** The ids of every `cancel_order` call made so far, oldest first. */
    var cancelled: seq<string>

    constructor (account: Result<Balance, Error>,
                 createReply: (nat, CreateRequest) -> Result<Ack, Error>,
                 cancelReply: (nat, string) -> Result<Ack, Error>)
      ensures this.account == account
      ensures this.createReply == createReply && this.cancelReply == cancelReply
      ensures created == [] && cancelled == []
    {
      this.account := account;
      this.createReply := createReply;
      this.cancelReply := cancelReply;
      created := [];
      cancelled := [];
    }

    /** A fresh snapshot; the account may have moved since the last one. */
    method FetchBalance() returns (b: Result<Balance, Error>)
      modifies this`account
      ensures b == account
    {
      b := account;
    }

    method CreateOrder(req: CreateRequest) returns (r: Result<Ack, Error>)
      modifies this`created, this`account
      ensures created == old(created) + [req]
      ensures r == createReply(|old(created)|, req)
    {
      r := createReply(|created|, req);
      created := created + [req];
    }

    method CancelOrder(id: string) returns (r: Result<Ack, Error>)
      modifies this`cancelled, this`account
      ensures cancelled == old(cancelled) + [id]
      ensures r == cancelReply(|old(cancelled)|, id)
    {
      r := cancelReply(|cancelled|, id);
      cancelled := cancelled + [id];
    }
  }

  function Amounts(b: Balance, column: Column): map<string, real>
  {
    match column
    case Free => b.free
    case Total => b.total
  }

  /**
   * `fetch_balance()[column][currency]`: a failed fetch propagates unchanged,
   * a currency missing from the column raises `KeyError`.
   */
  function Lookup(fetched: Result<Balance, Error>, column: Column, currency: string): (r: Result<real, Error>)
    ensures r.Ok? <==> fetched.Ok? && currency in Amounts(fetched.value, column)
    ensures r.Ok? ==> r.value == Amounts(fetched.value, column)[currency]
    ensures fetched.Err? ==> r == Err(fetched.error)
    ensures fetched.Ok? && currency !in Amounts(fetched.value, column) ==> r == Err(KeyError(currency))
  {
    match fetched
    case Err(e) => Err(e)
    case Ok(b) =>
      var amounts := Amounts(b, column);
      if currency in amounts then Ok(amounts[currency]) else Err(KeyError(currency))
  }
}
