# ccxt broker adapter for backtrader, in Dafny

This project models `CCXTBroker`, backtrader's broker for cryptocurrency
exchanges reached through the ccxt library, and `CCXTOrder`, the order it
hands to strategies. The broker:

- translates backtrader's execution types into exchange order-type strings through a fixed table;
- places orders with one `create_order` call;
- turns the exchange's acknowledgement into an order;
- queues that order for the engine to poll;
- answers cash, value and position queries from a fresh balance snapshot.

Files:

- `wrappers.dfy`: `Option`, `Result` and `Error`.
- `orders.dfy` (module `Orders`): sides, execution types, the acknowledgement, `CCXTOrder` as `MakeOrder`.
- `exchanges.dfy` (module `Exchanges`): the exchange client, reduced to what the broker observes. `account` is what `fetch_balance` answers. `createReply` and `cancelReply` give the reply to the n-th `create_order` / `cancel_order` call. `created` and `cancelled` log every call made. `Lookup` is `fetch_balance()[column][currency]`.
- `notifications.dfy` (module `Notifications`): the notification queue as a sequence. `Run` replays puts and non-blocking gets, and the lemmas prove FIFO delivery.
- `broker.dfy` (module `CcxtBroker`): the `order_types` table, the symbol split, and the `Broker` class with fields `cash`, `value` and `notifs`.

Python exceptions become `Err` results. A failure of the exchange library is
`ExchangeError`. A missing dictionary key is `KeyError(key)`.

The model follows `ccxtbroker.py` as written:

- An order kind with no table entry (or no kind at all, the default) is not rejected. `order_types.get` yields `None`, and `create_order` is still called with that type (`ccxtbroker.py:91-93`).
- An acknowledgement that lacks `info`, `info.side` or `info.original_amount` raises `KeyError` (`ccxtbroker.py:42-43`), after `create_order` has already been called. So the exchange holds the order, but nothing is queued or returned.

## Model

| member | source | states |
|---|---|---|
| Orders.SideOf | backtrader/brokers/ccxtbroker.py:42 | an order is a buy exactly when the reported side equals "buy", compared case-sensitively; every other string, however unexpected, gives a sell and never an error |
| Orders.MakeOrder | backtrader/brokers/ccxtbroker.py:38-43 | an order exists exactly when `info`, `info.side` and `info.original_amount` are all present; it keeps the owner, the feed and the acknowledgement verbatim, its size is `original_amount`, and its side is Buy iff the side is "buy"; otherwise the first missing key, in read order, is the `KeyError` |
| Orders.SideRoundTrip | backtrader/brokers/ccxtbroker.py:42 | an acknowledgement that echoes the side string `buy`/`sell` sent gives an order of that same side |
| Orders.SideIsCaseSensitive | backtrader/brokers/ccxtbroker.py:42 | "Buy", "BUY" and "" are recorded as sells |
| CcxtBroker.OrderType | backtrader/brokers/ccxtbroker.py:54-57 | a type string exists exactly for Market, Limit, Stop and StopLimit; an unmapped kind or no kind yields None; every string is one of the four table values |
| CcxtBroker.OrderTypesTable | backtrader/brokers/ccxtbroker.py:54-57 | the table has exactly four keys, maps Market, Limit, Stop and StopLimit to "market", "limit", "stop" and "stop limit", and no two kinds share a string |
| CcxtBroker.BaseCurrency | backtrader/brokers/ccxtbroker.py:87 | the result is a prefix of the symbol, contains no `/`, and is either the whole symbol or followed by a `/`, so it is the text before the first `/` |
| CcxtBroker.BaseOfPair | backtrader/brokers/ccxtbroker.py:87 | for any BASE without `/` and any QUOTE, the base currency of `BASE/QUOTE` is BASE |
| CcxtBroker.PositionCurrencyExample | backtrader/brokers/ccxtbroker.py:86-88 | the position of "BTC/USD" is looked up under "BTC" |
| Exchanges.Lookup | backtrader/brokers/ccxtbroker.py:70 | reading a column of a balance: a failed fetch propagates its error unchanged; a currency missing from the column is a `KeyError`; otherwise the amount recorded for it |
| CcxtBroker.Accepted | backtrader/brokers/ccxtbroker.py:92-94 | a failed `create_order` propagates its error unchanged; a successful one becomes the order built from its acknowledgement, so an order only exists for an acknowledgement the exchange returned |
| CcxtBroker.Broker.constructor | backtrader/brokers/ccxtbroker.py:59-67 | a fresh broker has cash = startingcash = 0, value = startingvalue = 0 and an empty queue |
| CcxtBroker.Broker.GetCash | backtrader/brokers/ccxtbroker.py:69-71 | fetches a fresh snapshot, which may differ from any earlier one, and returns the free balance of the broker's currency, also storing it in `cash`; on failure `cash` keeps its old value; `value` and the queue are untouched |
| CcxtBroker.Broker.GetValue | backtrader/brokers/ccxtbroker.py:73-75 | fetches a fresh snapshot, which may differ from any earlier one, and returns the total balance of the broker's currency, also storing it in `value`; on failure `value` keeps its old value; `cash` and the queue are untouched |
| CcxtBroker.Broker.GetPosition | backtrader/brokers/ccxtbroker.py:86-88 | fetches a fresh snapshot and returns the total balance of the feed's base currency; it changes no broker field |
| CcxtBroker.Broker.GetNotification | backtrader/brokers/ccxtbroker.py:77-81 | removes and returns the oldest queued order, or returns None and leaves the queue empty when nothing is queued |
| CcxtBroker.Broker.Notify | backtrader/brokers/ccxtbroker.py:83-84 | appends the order behind every order already queued |
| CcxtBroker.Broker.Submit | backtrader/brokers/ccxtbroker.py:90-96 | makes exactly one `create_order` call, with the feed's symbol, the mapped type (None when unmapped), the side, amount, price and params. On acceptance it queues exactly one order and returns that same order. On a failed call or an incomplete acknowledgement it queues nothing and returns the error |
| CcxtBroker.Broker.Buy | backtrader/brokers/ccxtbroker.py:98-102 | `_submit` with side "buy", `size` as the amount, the price unchanged and the keyword arguments as params; `plimit`, `valid`, `tradeid`, `oco`, `trailamount` and `trailpercent` have no effect |
| CcxtBroker.Broker.Sell | backtrader/brokers/ccxtbroker.py:104-108 | as `buy`, with side "sell" |
| CcxtBroker.Broker.Cancel | backtrader/brokers/ccxtbroker.py:110-111 | one `cancel_order` call for the order's exchange id, whose reply is returned; no broker field, no queued order and no `create_order` log entry changes |
| CcxtBroker.PollInNotifyOrder | backtrader/brokers/ccxtbroker.py:77-84 | two orders notified on an empty queue are polled back in notify order, then a third poll returns None |
| Notifications.TryGet | backtrader/brokers/ccxtbroker.py:77-81 | a non-blocking get returns None exactly on an empty queue, which stays empty; otherwise the returned entry followed by the new queue is the old queue |
| Notifications.RunAppend | backtrader/brokers/ccxtbroker.py:77-84 | running two batches of queue operations is running the second from where the first left the queue, with the outputs concatenated |
| Notifications.RunPuts | backtrader/brokers/ccxtbroker.py:83-84 | a batch of puts appends its entries in order and returns nothing |
| Notifications.RunGets | backtrader/brokers/ccxtbroker.py:77-81 | at least as many gets as queued entries return every entry oldest first, then None, and leave the queue empty |
| Notifications.DeliveredInPutOrder | backtrader/brokers/ccxtbroker.py:77-84 | after entries are put behind a queue, enough gets return every entry exactly once in put order, then None |

## Left out

- Building the exchange client with `getattr(ccxt, exchange)(config)` (`ccxtbroker.py:62`). The model takes an `Exchange` object instead, because the ccxt library is not part of this model.
- The network behaviour of `fetch_balance`, `create_order` and `cancel_order`. Only their results or failures are modelled, as the `Exchange` fields `account`, `createReply` and `cancelReply`.
- Thread safety of `queue.Queue`: the queue is a plain sequence. The concurrency guarantee belongs to the library.
- Floating point: amounts and balances are mathematical reals. `float()` parse failures of `original_amount` are not modelled.
- Object identity: orders are values. "The same order object is both returned and queued" becomes equality of the returned and the queued value.
- Later mutation of an order's state by backtrader's order machinery is not modelled.
- CcxtBroker.Broker.Cancel: does not model the argument passing of `cancel` (`ccxtbroker.py:111`). The source passes the broker itself as the first argument of `cancel_order` and subscripts the order with `order['id']`; what that does depends on ccxt's signature and on backtrader's order class, neither of which is part of this model. The model reads the id from the acknowledgement the order holds, and a missing id raises `KeyError` before any call.
- Orders.MakeOrder: the `OrderBase` superclass initialiser that `CCXTOrder.__init__` calls last (`ccxtbroker.py:45`) is not modelled, and it may adjust fields set here, `size` among them (backtrader makes it negative for sells); backtrader/order.py is not part of this model.
- The `BrokerBase` superclass initialisation and the unused imports. backtrader/order.py is not part of this model; the execution types listed in `Orders.ExecType` are backtrader's.
