/** The simulated broker of quant/fakebroker.py: orders placed on a queue, and a
    worker that moves every order of the shared book one status further per pass
    (UNPOSTED, PENDING, SUBMITTED, FILLED), filling at the watched close. The
    OrderEvents the worker emits are kept as a log of order snapshots. */
module FakeBroker {
  import opened Base
  import opened Markets
  import opened Broker

  /** The status one pass of `update_orders` moves an order to. */
  function NextStatus(s: OrderStatus): OrderStatus
  {
    match s
    case UNPOSTED => PENDING
    case PENDING => SUBMITTED
    case SUBMITTED => FILLED
    case _ => s
  }

  /** One order of `update_orders`: the new snapshot and the OrderEvents emitted for it.
      A SUBMITTED order fills its whole quantity at the watched close of its symbol and
      raises KeyError when that symbol is not watched. */
  function Advance(o: Order, prices: map<string, TickBar>): (r: Result<(Order, seq<Order>)>)
    ensures r.Err? <==> o.status == SUBMITTED && o.position.symbol !in prices
    ensures r.Err? ==> r.error == KeyError
    ensures r.Ok? ==> r.value.0.position == o.position && r.value.0.orderId == o.orderId
    ensures r.Ok? ==> r.value.0.status == NextStatus(o.status)
    ensures r.Ok? ==> r.value.1 == if o.status in {UNPOSTED, PENDING, SUBMITTED} then [r.value.0] else []
    ensures r.Ok? && o.status != SUBMITTED ==>
      r.value.0.filledAt == o.filledAt && r.value.0.filledQuantity == o.filledQuantity
    ensures r.Ok? && o.status == SUBMITTED ==>
      r.value.0 == UpdateStatus(o, FILLED, Some(prices[o.position.symbol].close), Some(o.position.quantity))
  {
    match o.status
    case UNPOSTED =>
      var n := UpdateStatus(o, PENDING, None, None);
      Ok((n, [n]))
    case PENDING =>
      var n := UpdateStatus(o, SUBMITTED, None, None);
      Ok((n, [n]))
    case SUBMITTED =>
      if o.position.symbol !in prices then Err(KeyError)
      else
        var filled := UpdateStatus(o, FILLED, Some(prices[o.position.symbol].close), Some(o.position.quantity));
        var n := UpdateStatus(filled, FILLED, None, None);
        Ok((n, [n]))
    case _ => Ok((o, []))
  }

  /** A SUBMITTED order of a watched symbol with a non-zero close and quantity fills its
      whole quantity at that close. */
  lemma AdvanceFills(o: Order, prices: map<string, TickBar>)
    requires o.status == SUBMITTED && o.position.symbol in prices
    requires prices[o.position.symbol].close != 0.0 && o.position.quantity != 0
    ensures Advance(o, prices).Ok?
    ensures Advance(o, prices).value.0.filledAt == prices[o.position.symbol].close
    ensures Advance(o, prices).value.0.filledQuantity == o.position.quantity
    ensures IsFilled(Advance(o, prices).value.0)
  {
  }

  /** Three passes take an UNPOSTED order of a watched symbol to FILLED, emitting one event each. */
  lemma ThreePassesFill(o: Order, prices: map<string, TickBar>)
    requires o.status == UNPOSTED && o.position.symbol in prices
    ensures Advance(o, prices).Ok?
    ensures Advance(Advance(o, prices).value.0, prices).Ok?
    ensures var o2 := Advance(Advance(o, prices).value.0, prices).value.0;
            Advance(o2, prices).Ok? && Advance(o2, prices).value.0.status == FILLED
            && |Advance(o2, prices).value.1| == 1
  {
  }

  /** `update_orders` from slot i on: the resulting book, the events emitted, and whether
      it stopped with KeyError (the pass ends at the first failing order). */
  function UpdateFrom(b: Book, i: nat, prices: map<string, TickBar>): (Book, seq<Order>, Outcome)
    decreases |b.orders| - i
  {
    if i >= |b.orders| then (b, [], Pass)
    else
      var a := Advance(b.orders[i], prices);
      if a.Err? then (b, [], Fail(a.error))
      else
        var rest := UpdateFrom(b.SetAt(i, a.value.0), i + 1, prices);
        (rest.0, a.value.1 + rest.1, rest.2)
  }

  /** Unfolding one slot of a pass: after an advanced order the pass continues from the
      next slot with that order in place. */
  lemma UpdateFromStep(b: Book, i: nat, prices: map<string, TickBar>, o: Order, ev: seq<Order>)
    requires i < |b.orders| && Advance(b.orders[i], prices) == Ok((o, ev))
    ensures UpdateFrom(b, i, prices).0 == UpdateFrom(b.SetAt(i, o), i + 1, prices).0
    ensures UpdateFrom(b, i, prices).1 == ev + UpdateFrom(b.SetAt(i, o), i + 1, prices).1
    ensures UpdateFrom(b, i, prices).2 == UpdateFrom(b.SetAt(i, o), i + 1, prices).2
  {
  }

  /** The loop state of `update_orders` after i slots, with e emitted so far: finishing
      the pass from here gives `goal`, what the whole pass gives. */
  ghost predicate UpdatePrefix(goal: (Book, seq<Order>, Outcome), cur: Book, i: nat,
                               prices: map<string, TickBar>, e: seq<Order>)
  {
    var rest := UpdateFrom(cur, i, prices);
    goal == (rest.0, e + rest.1, rest.2)
  }

  lemma UpdatePrefixStep(goal: (Book, seq<Order>, Outcome), cur: Book, i: nat,
                         prices: map<string, TickBar>, e: seq<Order>, o: Order, ev: seq<Order>)
    requires i < |cur.orders| && Advance(cur.orders[i], prices) == Ok((o, ev))
    requires UpdatePrefix(goal, cur, i, prices, e)
    ensures UpdatePrefix(goal, cur.SetAt(i, o), i + 1, prices, e + ev)
  {
    UpdateFromStep(cur, i, prices, o, ev);
    var rest := UpdateFrom(cur.SetAt(i, o), i + 1, prices);
    assert e + (ev + rest.1) == (e + ev) + rest.1;
    assert UpdateFrom(cur, i, prices) == (rest.0, ev + rest.1, rest.2);
  }

  /** Where the loop of `update_orders` stops, the pass over the whole book has ended:
      at a slot that cannot advance, with its error, or past the last slot. */
  lemma UpdatePrefixEnd(goal: (Book, seq<Order>, Outcome), cur: Book, i: nat,
                        prices: map<string, TickBar>, e: seq<Order>)
    requires UpdatePrefix(goal, cur, i, prices, e)
    requires i >= |cur.orders| || Advance(cur.orders[i], prices).Err?
    ensures goal.0 == cur && goal.1 == e
    ensures goal.2 == (if i >= |cur.orders| then Pass else Fail(Advance(cur.orders[i], prices).error))
  {
    assert e + [] == e;
  }

  /** The first slot at or after i whose order `update_orders` cannot advance, or the
      length of the book when there is none. */
  function FirstFailure(orders: seq<Order>, i: nat, prices: map<string, TickBar>): (k: nat)
    ensures i <= |orders| ==> i <= k <= |orders|
    ensures forall j :: i <= j < k && j < |orders| ==> Advance(orders[j], prices).Ok?
    ensures k < |orders| ==> Advance(orders[k], prices).Err?
    decreases |orders| - i
  {
    if i >= |orders| then |orders|
    else if Advance(orders[i], prices).Err? then i
    else FirstFailure(orders, i + 1, prices)
  }

  lemma {:induction false} FirstFailureAgree(a: seq<Order>, b: seq<Order>, i: nat, prices: map<string, TickBar>)
    requires |a| == |b| && forall j :: i <= j < |a| ==> a[j] == b[j]
    ensures FirstFailure(a, i, prices) == FirstFailure(b, i, prices)
    decreases |a| - i
  {
    if i < |a| {
      FirstFailureAgree(a, b, i + 1, prices);
    }
  }

  /** One pass of `update_orders` from slot i keeps the length of the book and the slots
      before i; it succeeds exactly when no order from i on is a SUBMITTED order of an
      unwatched symbol, and otherwise raises KeyError. */
  lemma {:induction false} UpdateFromShape(b: Book, i: nat, prices: map<string, TickBar>)
    requires i <= |b.orders|
    ensures |UpdateFrom(b, i, prices).0.orders| == |b.orders|
    ensures UpdateFrom(b, i, prices).0.orders[..i] == b.orders[..i]
    ensures UpdateFrom(b, i, prices).2.Pass? <==> FirstFailure(b.orders, i, prices) == |b.orders|
    ensures UpdateFrom(b, i, prices).2.Fail? ==> UpdateFrom(b, i, prices).2.error == KeyError
    decreases |b.orders| - i
  {
    if i < |b.orders| {
      var a := Advance(b.orders[i], prices);
      if a.Ok? {
        var c := b.SetAt(i, a.value.0);
        UpdateFromShape(c, i + 1, prices);
        FirstFailureAgree(c.orders, b.orders, i + 1, prices);
        assert c.orders[..i] == b.orders[..i];
        assert UpdateFrom(c, i + 1, prices).0.orders[..i] == UpdateFrom(c, i + 1, prices).0.orders[..i + 1][..i];
      }
    }
  }

  /** The slots from i up to the first failure move one status on; those from the first
      failure on keep their orders. */
  lemma {:induction false} UpdateFromAdvances(b: Book, i: nat, prices: map<string, TickBar>)
    requires i <= |b.orders|
    ensures |UpdateFrom(b, i, prices).0.orders| == |b.orders|
    ensures forall j :: i <= j < FirstFailure(b.orders, i, prices) ==>
              UpdateFrom(b, i, prices).0.orders[j] == Advance(b.orders[j], prices).value.0
    ensures forall j :: FirstFailure(b.orders, i, prices) <= j < |b.orders| ==>
              UpdateFrom(b, i, prices).0.orders[j] == b.orders[j]
    decreases |b.orders| - i
  {
    UpdateFromShape(b, i, prices);
    if i < |b.orders| {
      var a := Advance(b.orders[i], prices);
      if a.Ok? {
        var c := b.SetAt(i, a.value.0);
        UpdateFromAdvances(c, i + 1, prices);
        UpdateFromShape(c, i + 1, prices);
        FirstFailureAgree(c.orders, b.orders, i + 1, prices);
        assert UpdateFrom(c, i + 1, prices).0.orders[..i + 1][i] == c.orders[i];
      }
    }
  }

  /** A pass of `update_orders` keeps a consistent index consistent, and every index
      entry in range. */
  lemma {:induction false} UpdateFromConsistent(b: Book, i: nat, prices: map<string, TickBar>)
    ensures b.Consistent() ==> UpdateFrom(b, i, prices).0.Consistent()
    ensures b.Bounded() ==> UpdateFrom(b, i, prices).0.Bounded()
    decreases |b.orders| - i
  {
    if i < |b.orders| {
      var a := Advance(b.orders[i], prices);
      if a.Ok? {
        UpdateFromConsistent(b.SetAt(i, a.value.0), i + 1, prices);
        if b.Consistent() {
          SetAtConsistent(b, i, a.value.0);
        }
        if b.Bounded() {
          UpdatesBounded(b, i, a.value.0);
        }
      }
    }
  }

  /** A pass of `update_orders` keeps every slot's position and order id. */
  lemma UpdateKeepsIdentity(b: Book, prices: map<string, TickBar>)
    ensures var r := UpdateFrom(b, 0, prices);
            |r.0.orders| == |b.orders| &&
            forall j :: 0 <= j < |b.orders| ==>
              r.0.orders[j].position == b.orders[j].position && r.0.orders[j].orderId == b.orders[j].orderId
  {
    UpdateFromAdvances(b, 0, prices);
    var r := UpdateFrom(b, 0, prices);
    var k := FirstFailure(b.orders, 0, prices);
    forall j | 0 <= j < |b.orders|
      ensures r.0.orders[j].position == b.orders[j].position && r.0.orders[j].orderId == b.orders[j].orderId
    {
      if j < k {
        assert Advance(b.orders[j], prices).Ok?;
      }
    }
  }

  /** The statuses `cancel_pending_orders` gives the book: every cancellable order becomes CANCELLED. */
  function Cancelled(o: Order): Order
  {
    UpdateStatus(o, CANCELLED, None, None)
  }

  /** `cancel_pending_orders` from slot i on: the resulting book and the events emitted. */
  function CancelFrom(b: Book, i: nat): (Book, seq<Order>)
    decreases |b.orders| - i
  {
    if i >= |b.orders| then (b, [])
    else if IsCancellable(b.orders[i]) then
      var c := Cancelled(b.orders[i]);
      var rest := CancelFrom(b.SetAt(i, c), i + 1);
      (rest.0, [c] + rest.1)
    else CancelFrom(b, i + 1)
  }

  /** The cancelled snapshots of the cancellable orders of `orders`, in book order. */
  function CancelEvents(orders: seq<Order>): seq<Order>
  {
    if orders == [] then []
    else (if IsCancellable(orders[0]) then [Cancelled(orders[0])] else []) + CancelEvents(orders[1..])
  }

  /** `cancel_pending_orders` turns exactly the UNPOSTED and PENDING orders into CANCELLED
      ones, leaves every other order, the length, the positions and the ids as they were,
      emits one event per cancelled order in book order, and keeps a consistent index
      consistent. */
  lemma {:induction false} CancelFromEffect(b: Book, i: nat)
    requires i <= |b.orders|
    ensures var r := CancelFrom(b, i);
            && |r.0.orders| == |b.orders|
            && (forall j :: 0 <= j < i ==> r.0.orders[j] == b.orders[j])
            && (forall j :: i <= j < |b.orders| ==>
                  r.0.orders[j] == if IsCancellable(b.orders[j]) then b.orders[j].(status := CANCELLED) else b.orders[j])
            && r.1 == CancelEvents(b.orders[i..])
            && (b.Consistent() ==> r.0.Consistent())
            && (b.Bounded() ==> r.0.Bounded())
    decreases |b.orders| - i
  {
    if i < |b.orders| {
      assert b.orders[i..] == [b.orders[i]] + b.orders[i + 1..];
      assert b.orders[i..][1..] == b.orders[i + 1..];
      if IsCancellable(b.orders[i]) {
        var c := b.SetAt(i, Cancelled(b.orders[i]));
        CancelFromEffect(c, i + 1);
        assert c.orders[i + 1..] == b.orders[i + 1..];
        if b.Consistent() {
          SetAtConsistent(b, i, Cancelled(b.orders[i]));
        }
        if b.Bounded() {
          UpdatesBounded(b, i, Cancelled(b.orders[i]));
        }
      } else {
        CancelFromEffect(b, i + 1);
      }
    } else {
      assert b.orders[i..] == [];
    }
  }

  /** After `cancel_pending_orders` no order is cancellable any more. */
  lemma CancelLeavesNoneCancellable(b: Book)
    ensures forall j :: 0 <= j < |CancelFrom(b, 0).0.orders| ==> !IsCancellable(CancelFrom(b, 0).0.orders[j])
  {
    CancelFromEffect(b, 0);
  }

  /** The order the worker books for a dequeued position: PENDING, with the id of its slot. */
  function Booked(p: Position, slot: nat): (o: Order)
    ensures o.position == p && o.status == PENDING && o.orderId == slot
  {
    Order(p, PENDING, slot, 0.0, 0)
  }

  /** The background worker: the order queue, the shutdown flag, the shared book and
      watchlist, and the log of emitted OrderEvents. */
  class Worker {
    var queue: seq<Position>
    var shutdownRequest: bool
    const book: OrderBook
    const watchlist: WatchList
    var emitted: seq<Order>

    ghost predicate Valid()
      reads this, book, watchlist
    {
      book.Valid() && book.State().Consistent() && watchlist.Valid()
    }

    constructor (book: OrderBook, watchlist: WatchList)
      requires book.Valid() && book.State().Consistent() && watchlist.Valid()
      ensures Valid() && this.book == book && this.watchlist == watchlist
      ensures queue == [] && !shutdownRequest && emitted == []
    {
      this.book := book;
      this.watchlist := watchlist;
      queue := [];
      shutdownRequest := false;
      emitted := [];
    }

    /** `shutdown`: ask the run loop to stop. */
    method Shutdown()
      modifies this
      ensures shutdownRequest
      ensures queue == old(queue) && emitted == old(emitted)
    {
      shutdownRequest := true;
    }

    /** `update_order_status`: the order with the new status, announced as an OrderEvent. */
    method UpdateOrderStatus(o: Order, status: OrderStatus) returns (n: Order)
      modifies this
      ensures n == UpdateStatus(o, status, None, None)
      ensures emitted == old(emitted) + [n]
      ensures queue == old(queue) && shutdownRequest == old(shutdownRequest)
    {
      n := UpdateStatus(o, status, None, None);
      emitted := emitted + [n];
    }

    /** `cancel_pending_orders`: cancel every UNPOSTED or PENDING order in place. */
    method CancelPendingOrders()
      requires Valid()
      modifies this, book
      ensures Valid()
      ensures book.State() == CancelFrom(old(book.State()), 0).0
      ensures emitted == old(emitted) + CancelFrom(old(book.State()), 0).1
      ensures queue == old(queue) && shutdownRequest == old(shutdownRequest)
    {
      ghost var b0 := book.State();
      ghost var e0 := emitted;
      var i := 0;
      ghost var out: seq<Order> := [];
      while i < |book.orders|
        invariant book.Valid() && book.State().Consistent()
        invariant i <= |book.orders| == |b0.orders|
        invariant emitted == e0 + out
        invariant CancelFrom(b0, 0).0 == CancelFrom(book.State(), i).0
        invariant CancelFrom(b0, 0).1 == out + CancelFrom(book.State(), i).1
        invariant queue == old(queue) && shutdownRequest == old(shutdownRequest)
        decreases |book.orders| - i
      {
        var o := book.orders[i];
        if IsCancellable(o) {
          ghost var before := book.State();
          var c := UpdateOrderStatus(o, CANCELLED);
          SetAtConsistent(before, i, c);
          var r := book.Set(i, c);
          out := out + [c];
        }
        i := i + 1;
      }
    }

    /** The body of the `update_orders` loop for slot i: move that order one status on,
        announcing the change, and store it back; KeyError for a SUBMITTED order of an
        unwatched symbol, which leaves the book and the log as they were. */
    method UpdateSlot(i: nat, prices: map<string, TickBar>) returns (r: Outcome)
      requires Valid() && i < |book.orders|
      modifies this, book
      ensures Valid()
      ensures r.Fail? <==> Advance(old(book.orders[i]), prices).Err?
      ensures r.Fail? ==> r.error == KeyError && book.State() == old(book.State()) && emitted == old(emitted)
      ensures r.Pass? ==>
        && book.State() == old(book.State()).SetAt(i, Advance(old(book.orders[i]), prices).value.0)
        && emitted == old(emitted) + Advance(old(book.orders[i]), prices).value.1
      ensures queue == old(queue) && shutdownRequest == old(shutdownRequest)
    {
      var o := book.orders[i];
      ghost var before := book.State();
      if o.status == UNPOSTED {
        o := UpdateOrderStatus(o, PENDING);
      } else if o.status == PENDING {
        o := UpdateOrderStatus(o, SUBMITTED);
      } else if o.status == SUBMITTED {
        if o.position.symbol !in prices {
          return Fail(KeyError);
        }
        var filledQuantity := o.position.quantity;
        var filledAt := prices[o.position.symbol].close;
        o := UpdateStatus(o, FILLED, Some(filledAt), Some(filledQuantity));
        o := UpdateOrderStatus(o, FILLED);
      } else {
        assert Advance(before.orders[i], prices) == Ok((o, []));
        assert emitted == old(emitted) + [];
      }
      SetAtConsistent(before, i, o);
      r := book.Set(i, o);
    }

    /** `update_orders`: one pass moving every order one status on; it stops with KeyError
        at a SUBMITTED order whose symbol is not watched. */
    method UpdateOrders() returns (r: Outcome)
      requires Valid()
      modifies this, book
      ensures Valid()
      ensures book.State() == UpdateFrom(old(book.State()), 0, watchlist.lastPrice).0
      ensures emitted == old(emitted) + UpdateFrom(old(book.State()), 0, watchlist.lastPrice).1
      ensures r == UpdateFrom(old(book.State()), 0, watchlist.lastPrice).2
      ensures queue == old(queue) && shutdownRequest == old(shutdownRequest)
    {
      ghost var b0 := book.State();
      ghost var e0 := emitted;
      var prices := watchlist.lastPrice;
      ghost var goal := UpdateFrom(b0, 0, prices);
      assert [] + goal.1 == goal.1;
      var n := |book.orders|;
      var i := 0;
      ghost var out: seq<Order> := [];
      while i < n
        invariant Valid() && i <= n == |book.orders|
        invariant emitted == e0 + out
        invariant UpdatePrefix(goal, book.State(), i, prices, out)
        invariant queue == old(queue) && shutdownRequest == old(shutdownRequest)
        decreases n - i
      {
        r, out := UpdateNext(i, prices, goal, e0, out);
        if r.Fail? {
          return;
        }
        i := i + 1;
      }
      UpdatePrefixEnd(goal, book.State(), i, prices, out);
      return Pass;
    }

    /** One slot of the `update_orders` pass, on the loop state it keeps: `goal` is the
        result of the whole pass and `out` what has been emitted so far. */
    method UpdateNext(i: nat, prices: map<string, TickBar>, ghost goal: (Book, seq<Order>, Outcome),
                      ghost e0: seq<Order>, ghost out: seq<Order>) returns (r: Outcome, ghost out': seq<Order>)
      requires Valid() && i < |book.orders|
      requires emitted == e0 + out && UpdatePrefix(goal, book.State(), i, prices, out)
      modifies this, book
      ensures Valid() && |book.orders| == old(|book.orders|) && emitted == e0 + out'
      ensures r.Fail? ==> goal == (book.State(), out', r)
      ensures r.Pass? ==> UpdatePrefix(goal, book.State(), i + 1, prices, out')
      ensures queue == old(queue) && shutdownRequest == old(shutdownRequest)
    {
      ghost var before := book.State();
      ghost var a := Advance(book.orders[i], prices);
      r := UpdateSlot(i, prices);
      if r.Fail? {
        UpdatePrefixEnd(goal, before, i, prices, out);
        out' := out;
        return;
      }
      UpdatePrefixStep(goal, before, i, prices, out, a.value.0, a.value.1);
      assert (e0 + out) + a.value.1 == e0 + (out + a.value.1);
      out' := out + a.value.1;
    }

    /** The `queue.get` part of one iteration of `run`: a queued position becomes a
        PENDING order whose id is its slot, appended to the book. */
    method TakeQueued() returns (took: bool)
      requires Valid()
      modifies this, book
      ensures Valid()
      ensures took <==> old(queue) != []
      ensures took ==> queue == old(queue)[1..] &&
                       book.State() == old(book.State()).Appended(Booked(old(queue)[0], old(book.Length())))
      ensures !took ==> queue == old(queue) && book.State() == old(book.State())
      ensures emitted == old(emitted) && shutdownRequest == old(shutdownRequest)
    {
      if queue == [] {
        return false;
      }
      var position := queue[0];
      queue := queue[1..];
      AppendedConsistent(book.State(), Booked(position, |book.orders|));
      book.Append(Booked(position, |book.orders|));
      return true;
    }

    /** One iteration of `run`: nothing once shut down; otherwise take a queued position,
        if any, then make one `update_orders` pass. */
    method RunStep() returns (r: Outcome)
      requires Valid()
      modifies this, book
      ensures Valid()
      ensures old(shutdownRequest) ==>
        r == Pass && book.State() == old(book.State()) && queue == old(queue) && emitted == old(emitted)
      ensures !old(shutdownRequest) && old(queue) != [] ==> queue == old(queue)[1..]
      ensures !old(shutdownRequest) ==>
        var taken := if old(queue) == [] then old(book.State())
                     else old(book.State()).Appended(Booked(old(queue)[0], old(book.Length())));
        && queue == (if old(queue) == [] then [] else old(queue)[1..])
        && book.State() == UpdateFrom(taken, 0, watchlist.lastPrice).0
        && emitted == old(emitted) + UpdateFrom(taken, 0, watchlist.lastPrice).1
        && r == UpdateFrom(taken, 0, watchlist.lastPrice).2
    {
      if shutdownRequest {
        return Pass;
      }
      var took := TakeQueued();
      r := UpdateOrders();
    }
  }

  /** A broker that satisfies every order without a venue, sharing its book and
      watchlist with its worker. */
  class FakeBroker {
    const book: OrderBook
    const watchlist: WatchList
    const worker: Worker

    ghost predicate Valid()
      reads this, worker, book, watchlist
    {
      worker.book == book && worker.watchlist == watchlist && worker.Valid()
    }

    constructor (watchlist: WatchList)
      requires watchlist.Valid()
      ensures Valid() && this.watchlist == watchlist
      ensures fresh(book) && fresh(worker)
      ensures book.State() == EmptyBook && worker.queue == [] && !worker.shutdownRequest && worker.emitted == []
    {
      var b := new OrderBook();
      EmptyBookConsistent();
      book := b;
      this.watchlist := watchlist;
      worker := new Worker(b, watchlist);
    }

    /** `place_order`: queue the position for the worker, or raise KeyError when its symbol
        is not watched. The book is not touched. */
    method PlaceOrder(position: Position) returns (r: Outcome)
      requires Valid()
      modifies worker
      ensures Valid()
      ensures r.Pass? <==> position.symbol in watchlist.lastPrice
      ensures r.Fail? ==> r.error == KeyError && worker.queue == old(worker.queue)
      ensures r.Pass? ==> worker.queue == old(worker.queue) + [position]
      ensures worker.emitted == old(worker.emitted) && worker.shutdownRequest == old(worker.shutdownRequest)
    {
      if position.symbol !in watchlist.lastPrice {
        return Fail(KeyError);
      }
      worker.queue := worker.queue + [position];
      return Pass;
    }

    /** `shutdown`: stop the worker. */
    method Shutdown()
      requires Valid()
      modifies worker
      ensures Valid() && worker.shutdownRequest
      ensures worker.queue == old(worker.queue) && worker.emitted == old(worker.emitted)
    {
      worker.Shutdown();
    }

    /** `cancel_pending_orders`: the worker's. */
    method CancelPendingOrders()
      requires Valid()
      modifies worker, book
      ensures Valid()
      ensures book.State() == CancelFrom(old(book.State()), 0).0
      ensures worker.emitted == old(worker.emitted) + CancelFrom(old(book.State()), 0).1
      ensures worker.queue == old(worker.queue) && worker.shutdownRequest == old(worker.shutdownRequest)
    {
      worker.CancelPendingOrders();
    }

    /** `current_positions`: the current position of each watched symbol, in watch order. */
    function CurrentPositions(): (r: seq<Summed>)
      reads this, book, watchlist
      ensures |r| == |watchlist.symbols|
      ensures forall i :: 0 <= i < |r| ==> r[i] == CurrentPosition(book.orders, watchlist.symbols[i])
    {
      Broker.CurrentPositions(book.orders, watchlist.symbols)
    }

    /** `open_orders`. */
    function OpenOrders(): (r: seq<Order>)
      reads this, book
      ensures forall o :: o in r <==> o in book.orders && o.status in {SUBMITTED, PENDING}
    {
      Broker.OpenOrders(book.orders)
    }

    /** `filled_orders`. */
    function FilledOrders(): (r: seq<Order>)
      reads this, book
      ensures forall o :: o in r <==> o in book.orders && o.status == FILLED
    {
      Broker.FilledOrders(book.orders)
    }

    /** `p_or_l(symbol)`. */
    function POrL(symbol: Option<string>): (r: Result<real>)
      reads this, book, watchlist
      requires watchlist.Valid()
      ensures r == BrokerPOrL(book.orders, watchlist.Items(), watchlist.lastPrice, symbol)
    {
      BrokerPOrL(book.orders, watchlist.Items(), watchlist.lastPrice, symbol)
    }
  }
}
