/** The Interactive Brokers glue of quant/ibkr.py: the pure translation rules
    (order status strings, bar sizes, contracts, request durations) and the
    bookkeeping of the API wrapper and of the broker built on it. The transport
    to the server is an append-only log of the requests the wrapper sends; the
    server's callbacks are the methods that take their arguments. */
module Ibkr {
  import opened Base
  import opened Markets
  import opened Broker
  import opened TimeUtil
  import opened Channel

  // ---------------------------------------------------------------------
  // Status strings

  /** The server's order status strings the wrapper recognises. */
  const StatusTable: map<string, OrderStatus> := map[
    "ApiPending" := PENDING, "PendingSubmit" := PENDING, "PendingCancel" := PENDING,
    "PreSubmitted" := PENDING, "Submitted" := SUBMITTED, "Filled" := FILLED,
    "Cancelled" := CANCELLED, "ApiCancelled" := CANCELLED, "Inactive" := CANCELLED]

  /** `to_order_status`: a server status string as an OrderStatus; an unrecognised
      string (which is logged) becomes UNKNOWN. The server never reports an order
      as UNPOSTED or PARTIALLY_FILLED. */
  function ToOrderStatus(status: string): (r: OrderStatus)
    ensures r != UNPOSTED && r != PARTIALLY_FILLED
  {
    if status in {"ApiPending", "PendingSubmit", "PendingCancel", "PreSubmitted"} then PENDING
    else if status == "Submitted" then SUBMITTED
    else if status == "Filled" then FILLED
    else if status in {"Cancelled", "ApiCancelled", "Inactive"} then CANCELLED
    else UNKNOWN
  }

  /** The mapping is the table of recognised strings, with UNKNOWN for every other
      string. */
  lemma ToOrderStatusTable(status: string)
    ensures status in StatusTable ==> ToOrderStatus(status) == StatusTable[status]
    ensures ToOrderStatus(status) == UNKNOWN <==> status !in StatusTable
  {
  }

  // ---------------------------------------------------------------------
  // Bar sizes

  /** `bar_size`: the server's name for a resolution; KeyError for TICK, which the
      table lacks. */
  function BarSize(resolution: Resolution): (r: Result<string>)
    ensures r.Err? <==> resolution == TICK
    ensures r.Err? ==> r.error == KeyError
  {
    match resolution
    case FIVE_SEC => Ok("5 secs")
    case MINUTE => Ok("1 min")
    case DAY => Ok("1 day")
    case WEEK => Ok("1 week")
    case MONTH => Ok("1 month")
    case TICK => Err(KeyError)
  }

  /** Distinct resolutions have distinct bar sizes. */
  lemma BarSizeInjective(a: Resolution, b: Resolution)
    requires BarSize(a).Ok? && BarSize(b).Ok? && a != b
    ensures BarSize(a).value != BarSize(b).value
  {
  }

  /** The bar-size table has an entry exactly for the resolutions of positive length. */
  lemma BarSizeForLength(resolution: Resolution)
    ensures BarSize(resolution).Ok? <==> resolution.Seconds() > 0
  {
    ResolutionSeconds(resolution, TICK);
  }

  // ---------------------------------------------------------------------
  // Contracts

  datatype Contract = Contract(symbol: string, secType: string, exchange: string, currency: string)

  function StockContract(symbol: string): (c: Contract)
    ensures c.symbol == symbol && c.currency == "USD"
  {
    Contract(symbol, "STK", "SMART", "USD")
  }

  function CryptoContract(symbol: string): (c: Contract)
    ensures c.symbol == symbol && c.currency == "USD"
  {
    Contract(symbol, "CRYPTO", "PAXOS", "USD")
  }

  function ForexContract(symbol: string): (c: Contract)
    ensures c.symbol == symbol && c.currency == "USD"
  {
    Contract(symbol, "CASH", "IDEALPRO", "USD")
  }

  /** `contract_for`: crypto is checked before forex, so BTC (both) trades as crypto. */
  function ContractFor(symbol: string): (c: Contract)
    ensures c.symbol == symbol && c.currency == "USD"
    ensures c.secType == "CRYPTO" <==> IsCrypto(symbol)
    ensures c.secType == "CASH" <==> IsForex(symbol) && !IsCrypto(symbol)
    ensures c.secType == "STK" <==> !IsForex(symbol) && !IsCrypto(symbol)
    ensures c.exchange == (if c.secType == "CRYPTO" then "PAXOS" else if c.secType == "CASH" then "IDEALPRO" else "SMART")
  {
    if IsCrypto(symbol) then CryptoContract(symbol)
    else if IsForex(symbol) then ForexContract(symbol)
    else StockContract(symbol)
  }

  lemma ContractExamples()
    ensures ContractFor("btc").secType == "CRYPTO"
    ensures ContractFor("EUR").secType == "CASH"
    ensures ContractFor("AAPL") == Contract("AAPL", "STK", "SMART", "USD")
  {
    ClassifierExamples();
  }

  /** What a market-data request asks for: midpoints for forex, trades otherwise. */
  function WhatToShow(symbol: string): (r: string)
    ensures r == "MIDPOINT" <==> IsForex(symbol)
  {
    if IsForex(symbol) then "MIDPOINT" else "TRADES"
  }

  // ---------------------------------------------------------------------
  // Request durations

  /** The duration of a historical request: a number of days, or of seconds. */
  datatype Duration = Days(days: int) | Secs(seconds: int)

  /** The duration `to_time_string` asks for: across days, the trading days counted from
      start to end, or all the days when none is a trading day; within a day, the
      seconds between them. */
  function TimeSpan(start: DateTime, end: DateTime, tradingDay: int -> bool): Duration
  {
    if SpansDays(start, end) then
      Days(if TradingSteps(start, end, tradingDay) != 0 then TradingSteps(start, end, tradingDay)
           else DaySteps(start, end))
    else Secs(end - start)
  }

  /** A request from an earlier day to a later one asks for at least one day and for no
      more than the whole or partial days between them. */
  lemma TimeSpanBounds(start: DateTime, end: DateTime, tradingDay: int -> bool)
    requires start < end && SpansDays(start, end)
    ensures TimeSpan(start, end, tradingDay).Days?
    ensures 1 <= TimeSpan(start, end, tradingDay).days <= (end - start + SecondsPerDay - 1) / SecondsPerDay
  {
    DayStepsIsCeiling(start, end);
    TradingStepsBound(start, end, tradingDay);
  }

  /** `to_time_string(start, end)`, with the text formatting left out. */
  method ToTimeString(start: DateTime, end: DateTime, tradingDay: int -> bool) returns (d: Duration)
    ensures d == TimeSpan(start, end, tradingDay)
  {
    if SpansDays(start, end) {
      var totalDays, tradingDays := CountTradingDays(start, end, tradingDay);
      d := Days(if tradingDays != 0 then tradingDays else totalDays);
    } else {
      d := Secs(end - start);
    }
  }

  // ---------------------------------------------------------------------
  // Orders and requests sent to the server

  /** The server-side order: market orders, sized by cash for crypto and by quantity
      otherwise (the other size is left unset). */
  datatype IbOrder = IbOrder(orderType: string, action: string, totalQuantity: Option<int>, cashQty: Option<int>)

  /** The order `place_order` sends for a position. */
  function IbOrderFor(p: Position): (o: IbOrder)
    ensures o.orderType == "MKT"
    ensures o.action == (if p.direction == LONG then "BUY" else "SELL")
    ensures IsCrypto(p.symbol) ==> o.cashQty == Some(p.quantity) && o.totalQuantity.None?
    ensures !IsCrypto(p.symbol) ==> o.totalQuantity == Some(p.quantity) && o.cashQty.None?
  {
    IbOrder("MKT", if p.direction == LONG then "BUY" else "SELL",
            if IsCrypto(p.symbol) then None else Some(p.quantity),
            if IsCrypto(p.symbol) then Some(p.quantity) else None)
  }

  /** The reverse of a position is sent as the opposite action for the same amount. */
  lemma IbOrderForReverse(p: Position)
    ensures IbOrderFor(Reverse(p)).action != IbOrderFor(p).action
    ensures IbOrderFor(Reverse(p)).totalQuantity == IbOrderFor(p).totalQuantity
    ensures IbOrderFor(Reverse(p)).cashQty == IbOrderFor(p).cashQty
  {
  }

  datatype Request =
    | PlaceOrderRequest(orderId: int, contract: Contract, order: IbOrder)
    | CancelOrderRequest(orderId: int)
    | RealTimeBarsRequest(reqId: Key, contract: Contract, barSeconds: int, whatToShow: string, useRth: bool)
    | CancelRealTimeBarsRequest(reqId: Key)

  /** The cancels `cancel_pending_orders` sends for a list of orders: one per cancellable
      order, in order. */
  function CancelRequests(orders: seq<Order>): (r: seq<Request>)
    ensures |r| <= |orders|
    decreases |orders|
  {
    if orders == [] then []
    else (if IsCancellable(orders[0]) then [CancelOrderRequest(orders[0].orderId)] else [])
         + CancelRequests(orders[1..])
  }

  lemma {:induction false} CancelRequestsAppend(a: seq<Order>, b: seq<Order>)
    ensures CancelRequests(a + b) == CancelRequests(a) + CancelRequests(b)
    decreases |a|
  {
    if a == [] {
      assert a + b == b;
    } else {
      var h := if IsCancellable(a[0]) then [CancelOrderRequest(a[0].orderId)] else [];
      assert (a + b)[0] == a[0] && (a + b)[1..] == a[1..] + b;
      assert CancelRequests(a + b) == h + CancelRequests(a[1..] + b);
      assert CancelRequests(a) == h + CancelRequests(a[1..]);
      CancelRequestsAppend(a[1..], b);
      assert h + (CancelRequests(a[1..]) + CancelRequests(b)) == (h + CancelRequests(a[1..])) + CancelRequests(b);
    }
  }

  /** A cancel for each order of `orders`, in order. */
  function CancelsFor(orders: seq<Order>): (r: seq<Request>)
    ensures |r| == |orders|
    ensures forall i :: 0 <= i < |r| ==> r[i] == CancelOrderRequest(orders[i].orderId)
    decreases |orders|
  {
    if orders == [] then []
    else
      var rest := CancelsFor(orders[1..]);
      assert forall i :: 1 <= i < |orders| ==> orders[i] == orders[1..][i - 1];
      [CancelOrderRequest(orders[0].orderId)] + rest
  }

  /** The cancels name the cancellable orders, one each, in book order. */
  lemma {:induction false} CancelRequestsSelect(orders: seq<Order>)
    ensures CancelRequests(orders) == CancelsFor(Select(orders, IsCancellable))
    decreases |orders|
  {
    if orders != [] {
      CancelRequestsSelect(orders[1..]);
      var o := orders[0];
      var sel := Select(orders[1..], IsCancellable);
      if IsCancellable(o) {
        assert Select(orders, IsCancellable) == [o] + sel;
        assert ([o] + sel)[0] == o && ([o] + sel)[1..] == sel;
      } else {
        assert Select(orders, IsCancellable) == sel;
      }
    }
  }

  /** A cancel is sent for an id exactly when some cancellable order of the list has it. */
  lemma {:induction false} CancelRequestsExact(orders: seq<Order>, id: int)
    ensures CancelOrderRequest(id) in CancelRequests(orders)
      <==> exists o :: o in orders && IsCancellable(o) && o.orderId == id
    decreases |orders|
  {
    if orders != [] {
      CancelRequestsExact(orders[1..], id);
      assert forall o :: o in orders <==> o == orders[0] || o in orders[1..];
    }
  }

  /** A registered order-status listener, identified by a number. */
  type ListenerId = int

  /** The callback a realtime subscription registers: emit each bar as a TickEvent. */
  const TickBarCallback: CallbackId := 0

  /** The seconds per realtime bar the wrapper asks for. */
  const RealTimeBarSeconds := 5

  // ---------------------------------------------------------------------
  // Closing a subscription's channel with the older channel class of quant/ibkr.py

  /** The outcome of the older `CallChannel.close` in quant/ibkr.py: it tells the waiter
      it is done without checking that there is one, so a channel without a waiter raises
      AttributeError (after delivering any final data, before unregistering). */
  function LegacyCloseOutcome(hasWaiter: bool, registered: bool): (r: Outcome)
    ensures r.Pass? <==> hasWaiter && registered
    ensures !hasWaiter ==> r == Fail(AttributeError)
  {
    if !hasWaiter then Fail(AttributeError)
    else if !registered then Fail(KeyError)
    else Pass
  }

  // ---------------------------------------------------------------------
  // The API wrapper

  /** The wrapper's bookkeeping: the order-id counter, the order listeners, the realtime
      subscriptions, the registry of call channels it correlates requests through, and
      the log of requests it sends. */
  class IBApi {
    var orderId: int
    var threadRunning: bool
    var orderListeners: map<int, ListenerId>
    var subscriptions: map<string, CallChannel>
    const channels: CallChannels
    var requests: seq<Request>

    /** The registry is sound, and no channel it holds or a subscription holds has a
        waiter: subscriptions call with max_wait 0. */
    ghost predicate Valid()
      reads this, channels, set s | s in subscriptions :: subscriptions[s],
            set k | k in channels.channels :: channels.channels[k]
    {
      && channels.Valid()
      && (forall s :: s in subscriptions ==> subscriptions[s].registry == channels && subscriptions[s].waiter == null)
      && (forall k :: k in channels.channels ==> channels.channels[k].waiter == null)
    }

    constructor ()
      ensures Valid() && fresh(channels)
      ensures orderId == 0 && !threadRunning && orderListeners == map[] && subscriptions == map[]
      ensures channels.channels == map[] && channels.nextReqId == DefaultBaseReqId && requests == []
    {
      orderId := 0;
      threadRunning := false;
      orderListeners := map[];
      subscriptions := map[];
      channels := new CallChannels(DefaultBaseReqId);
      requests := [];
    }

    /** `next_order_id`: advance the counter and return its new value. */
    method NextOrderId() returns (id: int)
      modifies this
      ensures orderId == old(orderId) + 1 && id == orderId
      ensures orderListeners == old(orderListeners) && subscriptions == old(subscriptions)
      ensures requests == old(requests) && threadRunning == old(threadRunning)
    {
      orderId := orderId + 1;
      id := orderId;
    }

    /** `nextValidId(n)`: the server's next valid id; the next id issued is n + 1. */
    method NextValidId(n: int)
      modifies this
      ensures orderId == n && threadRunning
      ensures orderListeners == old(orderListeners) && subscriptions == old(subscriptions)
      ensures requests == old(requests)
    {
      orderId := n;
      threadRunning := true;
    }

    /** `place_order(position, listener)`: a fresh id, the listener registered under it,
        the order sent, and a PENDING order with that id returned. */
    method PlaceOrder(position: Position, listener: ListenerId) returns (o: Order)
      modifies this
      ensures orderId == old(orderId) + 1
      ensures o == Order(position, PENDING, orderId, 0.0, 0)
      ensures orderListeners == old(orderListeners)[orderId := listener]
      ensures requests == old(requests) + [PlaceOrderRequest(orderId, ContractFor(position.symbol), IbOrderFor(position))]
      ensures subscriptions == old(subscriptions) && threadRunning == old(threadRunning)
    {
      var order := IbOrderFor(position);
      var id := NextOrderId();
      orderListeners := orderListeners[id := listener];
      o := Order(position, PENDING, id, 0.0, 0);
      requests := requests + [PlaceOrderRequest(id, ContractFor(position.symbol), order)];
    }

    /** `subscribe_realtime(symbol)`: ValueError when already subscribed; otherwise the
        next channel gets the tick-bar callback and the symbol as metadata, is recorded as
        the subscription, and the realtime-bars request is sent through it without
        waiting. */
    method SubscribeRealtime(symbol: string) returns (r: Outcome)
      requires Valid()
      modifies this, channels, set k | k in channels.channels :: channels.channels[k]
      ensures Valid()
      ensures r.Fail? <==> symbol in old(subscriptions)
      ensures r.Fail? ==> r.error == ValueError && subscriptions == old(subscriptions) && requests == old(requests)
      ensures r.Fail? ==> channels.channels == old(channels.channels) && channels.nextReqId == old(channels.nextReqId)
      ensures r.Pass? ==>
        && symbol in subscriptions && subscriptions == old(subscriptions)[symbol := subscriptions[symbol]]
        && subscriptions[symbol].key == Id(old(channels.nextReqId))
        && subscriptions[symbol].metadata == Some(symbol)
        && subscriptions[symbol].callbacks != []
        && subscriptions[symbol].callbacks[|subscriptions[symbol].callbacks| - 1] == TickBarCallback
        && channels.nextReqId == old(channels.nextReqId) + 1
        && requests == old(requests) + [RealTimeBarsRequest(Id(old(channels.nextReqId)), ContractFor(symbol),
                                                            RealTimeBarSeconds, WhatToShow(symbol), false)]
      ensures orderId == old(orderId) && orderListeners == old(orderListeners)
    {
      if symbol in subscriptions {
        return Fail(ValueError);
      }
      var c := OpenSubscription(symbol);
      var _, _ := c.Call(0.0, 0.0, TimedOut([]));
      requests := requests + [RealTimeBarsRequest(c.key, ContractFor(symbol), RealTimeBarSeconds, WhatToShow(symbol), false)];
      return Pass;
    }

    /** The first half of `subscribe_realtime`: the next channel, given the tick-bar
        callback and the symbol as metadata, becomes the symbol's subscription. */
    method OpenSubscription(symbol: string) returns (c: CallChannel)
      requires Valid() && symbol !in subscriptions
      modifies this, channels, set k | k in channels.channels :: channels.channels[k]
      ensures Valid() && c.registry == channels && c.waiter == null
      ensures subscriptions == old(subscriptions)[symbol := c]
      ensures c.key == Id(old(channels.nextReqId)) && c.metadata == Some(symbol)
      ensures c.callbacks != [] && c.callbacks[|c.callbacks| - 1] == TickBarCallback
      ensures channels.nextReqId == old(channels.nextReqId) + 1 && channels.channels == old(channels.channels)[c.key := c]
      ensures Id(old(channels.nextReqId)) in old(channels.channels) ==> c == old(channels.channels)[c.key]
      ensures Id(old(channels.nextReqId)) !in old(channels.channels) ==> fresh(c)
      ensures requests == old(requests) && orderId == old(orderId) && orderListeners == old(orderListeners)
    {
      c := channels.NextChannel(None, None);
      c.AddCallback(TickBarCallback);
      c.metadata := Some(symbol);
      subscriptions := subscriptions[symbol := c];
    }

    /** `unsubscribe_realtime(symbol)`: ValueError when not subscribed; otherwise the
        cancel is sent and the subscription's channel closed, which unregisters its key
        (KeyError when it is already unregistered, as on a second unsubscribe). The
        subscription itself stays recorded, so subscribing again raises ValueError. */
    method UnsubscribeRealtime(symbol: string) returns (r: Outcome)
      requires Valid()
      modifies this, channels, set s | s in subscriptions :: subscriptions[s]
      ensures Valid()
      ensures symbol !in subscriptions ==>
        r == Fail(ValueError) && requests == old(requests) && channels.channels == old(channels.channels)
      ensures symbol in subscriptions ==>
        && requests == old(requests) + [CancelRealTimeBarsRequest(subscriptions[symbol].key)]
        && channels.channels == old(channels.channels) - {subscriptions[symbol].key}
        && (r.Pass? <==> subscriptions[symbol].key in old(channels.channels))
        && (r.Fail? ==> r.error == KeyError)
      ensures subscriptions == old(subscriptions)
      ensures orderId == old(orderId) && orderListeners == old(orderListeners)
    {
      if symbol !in subscriptions {
        return Fail(ValueError);
      }
      var c := subscriptions[symbol];
      requests := requests + [CancelRealTimeBarsRequest(c.key)];
      r := c.Close(None);
    }
  }

  /** With the older channel class, unsubscribing can never succeed: every subscription's
      channel was called with max_wait 0 and so has no waiter, and closing it raises
      AttributeError before the key is unregistered. */
  lemma LegacyUnsubscribeFails(api: IBApi, symbol: string)
    requires api.Valid() && symbol in api.subscriptions
    ensures LegacyCloseOutcome(api.subscriptions[symbol].waiter != null,
                               api.subscriptions[symbol].key in api.channels.channels) == Fail(AttributeError)
  {
  }

  // ---------------------------------------------------------------------
  // The broker on top of the wrapper

  /** The broker the wrapper serves: its book and watchlist, the wrapper, and the log of
      emitted OrderEvents. */
  class InteractiveBroker {
    const book: OrderBook
    const watchlist: WatchList
    const ib: IBApi
    /** The broker's `on_order_status` as registered with the wrapper. */
    const listener: ListenerId
    var emitted: seq<Order>

    ghost predicate Valid()
      reads this, book, watchlist
    {
      book.Valid() && book.State().Consistent() && watchlist.Valid()
    }

    constructor (watchlist: WatchList, ib: IBApi, listener: ListenerId)
      requires watchlist.Valid()
      ensures Valid() && fresh(book) && book.State() == EmptyBook && emitted == []
      ensures this.watchlist == watchlist && this.ib == ib && this.listener == listener
    {
      book := new OrderBook();
      EmptyBookConsistent();
      this.watchlist := watchlist;
      this.ib := ib;
      this.listener := listener;
      emitted := [];
    }

    /** `place_order(position)`: the wrapper's order, appended to the book and returned. */
    method PlaceOrder(position: Position) returns (o: Order)
      requires Valid()
      modifies book, ib
      ensures Valid()
      ensures o == Order(position, PENDING, ib.orderId, 0.0, 0) && ib.orderId == old(ib.orderId) + 1
      ensures book.State() == old(book.State()).Appended(o)
      ensures ib.orderListeners == old(ib.orderListeners)[o.orderId := listener]
      ensures ib.requests == old(ib.requests) + [PlaceOrderRequest(o.orderId, ContractFor(position.symbol), IbOrderFor(position))]
    {
      o := ib.PlaceOrder(position, listener);
      AppendedConsistent(book.State(), o);
      book.Append(o);
    }

    /** `on_order_status(id, status, filled, avg_fill_price)`: for a booked id, the
        order's snapshot updated with the translated status and the fill and stored back
        in its slot, and an OrderEvent emitted; for an unknown id the KeyError is caught
        (and logged) and nothing changes. */
    method OnOrderStatus(id: int, status: string, filled: int, avgFillPrice: real)
      requires Valid()
      modifies this, book
      ensures Valid()
      ensures old(book.ByOrderId(id)).Err? ==> book.State() == old(book.State()) && emitted == old(emitted)
      ensures old(book.ByOrderId(id)).Ok? ==>
        var (o, slot) := old(book.ByOrderId(id)).value;
        var n := UpdateStatus(o, ToOrderStatus(status), Some(avgFillPrice), Some(filled));
        && slot < |old(book.orders)|
        && book.State() == old(book.State()).SetAt(slot, n)
        && emitted == old(emitted) + [n]
    {
      var found := book.ByOrderId(id);
      if found.Err? {
        return;
      }
      var (o, slot) := found.value;
      var n := UpdateStatus(o, ToOrderStatus(status), Some(avgFillPrice), Some(filled));
      SetAtConsistent(book.State(), slot, n);
      var _ := book.Set(slot, n);
      emitted := emitted + [n];
    }

    /** `cancel_pending_orders`: a cancel request for every cancellable order, in book
        order; the book itself is left to the server's status callbacks. */
    method CancelPendingOrders()
      modifies ib
      ensures ib.requests == old(ib.requests) + CancelRequests(book.orders)
      ensures ib.orderId == old(ib.orderId) && ib.orderListeners == old(ib.orderListeners)
      ensures ib.subscriptions == old(ib.subscriptions)
    {
      ghost var r0 := ib.requests;
      var i := 0;
      while i < |book.orders|
        invariant i <= |book.orders|
        invariant ib.requests == r0 + CancelRequests(book.orders[..i])
        invariant ib.orderId == old(ib.orderId) && ib.orderListeners == old(ib.orderListeners)
        invariant ib.subscriptions == old(ib.subscriptions)
        decreases |book.orders| - i
      {
        var o := book.orders[i];
        assert book.orders[..i + 1] == book.orders[..i] + [o];
        CancelRequestsAppend(book.orders[..i], [o]);
        if IsCancellable(o) {
          ib.requests := ib.requests + [CancelOrderRequest(o.orderId)];
        }
        i := i + 1;
      }
      assert book.orders[..i] == book.orders;
    }
  }
}
