/** Orders, positions and the order book of quant/broker.py: signed position
    arithmetic, immutable order snapshots, the indexed OrderBook with its
    filtered views and folds, and the Broker base-class queries. */
module Broker {
  import opened Base
  import opened Markets

  datatype Direction = LONG | SHORT
  {
    /** The enum value: 1 for LONG, -1 for SHORT. */
    function Value(): int
    {
      if LONG? then 1 else -1
    }
  }

  datatype OrderStatus = UNPOSTED | PENDING | SUBMITTED | PARTIALLY_FILLED | FILLED | CANCELLED | UNKNOWN

  datatype Position = Position(symbol: string, direction: Direction, quantity: int)

  /** The quantity with the direction's sign. */
  function Signed(p: Position): int
  {
    p.quantity * p.direction.Value()
  }

  /** `Position.reverse`: same symbol and quantity, the other direction. */
  function Reverse(p: Position): (r: Position)
    ensures r.symbol == p.symbol && r.quantity == p.quantity
    ensures r.direction != p.direction
    ensures Signed(r) == -Signed(p)
  {
    Position(p.symbol, if p.direction == SHORT then LONG else SHORT, p.quantity)
  }

  lemma ReverseInvolutive(p: Position)
    ensures Reverse(Reverse(p)) == p
  {
  }

  /** The right operand of `Position.__add__`: a plain int or another position. */
  datatype Addend = IntAddend(n: int) | PosAddend(pos: Position)

  /** A signed amount turned back into a position of `symbol`: SHORT with |val| when
      val is negative, LONG with val otherwise. */
  function FromSigned(symbol: string, val: int): (p: Position)
    ensures p.symbol == symbol && p.quantity >= 0
    ensures Signed(p) == val
    ensures p.direction == SHORT <==> val < 0
  {
    if val < 0 then Position(symbol, SHORT, -val) else Position(symbol, LONG, val)
  }

  /** `Position.__add__`. An int is added to the raw quantity whatever the direction; a
      position of another symbol raises ValueError; a position of the same symbol adds
      the signed quantities. The sum keeps the left operand's symbol. */
  function Add(p: Position, other: Addend): (r: Result<Position>)
    ensures r.Err? <==> other.PosAddend? && other.pos.symbol != p.symbol
    ensures r.Err? ==> r.error == ValueError
    ensures r.Ok? ==> r.value.symbol == p.symbol && r.value.quantity >= 0
    ensures other.IntAddend? ==> r == Ok(FromSigned(p.symbol, p.quantity + other.n))
    ensures r.Ok? && other.PosAddend? ==> Signed(r.value) == Signed(p) + Signed(other.pos)
  {
    if other.IntAddend? then Ok(FromSigned(p.symbol, p.quantity + other.n))
    else if other.pos.symbol != p.symbol then Err(ValueError)
    else Ok(FromSigned(p.symbol, Signed(other.pos) + Signed(p)))
  }

  /** `Position.__radd__`, reached by `0 + position`: the same as `__add__`. */
  function RAdd(p: Position, other: Addend): (r: Result<Position>)
    ensures r == Add(p, other)
  {
    Add(p, other)
  }

  /** Adding same-symbol positions is commutative. */
  lemma AddCommutes(p: Position, q: Position)
    requires p.symbol == q.symbol
    ensures Add(p, PosAddend(q)) == Add(q, PosAddend(p))
  {
  }

  /** AAPL LONG 100 + AAPL SHORT 40 = AAPL LONG 60. */
  lemma AddExample()
    ensures Add(Position("AAPL", LONG, 100), PosAddend(Position("AAPL", SHORT, 40)))
            == Ok(Position("AAPL", LONG, 60))
  {
  }

  /** `0 + p` turns a SHORT position into a LONG one of the same quantity. */
  lemma RAddZeroNormalises(p: Position)
    requires p.quantity >= 0
    ensures RAdd(p, IntAddend(0)) == Ok(Position(p.symbol, LONG, p.quantity))
  {
  }

  // ---------------------------------------------------------------------
  // sum() over positions

  /** The running value of Python's `sum()` over positions: the start value 0 until
      the first position is added, a position afterwards. */
  datatype Summed = IntZero | Total(pos: Position)
  {
    /** The quantity the value stands for: 0 for the start value. */
    function Quantity(): int
    {
      if IntZero? then 0 else pos.quantity
    }
  }

  /** One step of `sum()`: `0 + p` goes through `p.__radd__(0)`, later steps through
      `acc.__add__(p)`. */
  function SumStep(acc: Summed, p: Position): (r: Result<Summed>)
    ensures r.Ok? ==> r.value.Total?
    ensures acc.IntZero? ==> r == Ok(Total(FromSigned(p.symbol, p.quantity)))
  {
    match acc
    case IntZero => Ok(Total(RAdd(p, IntAddend(0)).value))
    case Total(a) =>
      var s := Add(a, PosAddend(p));
      if s.Ok? then Ok(Total(s.value)) else Err(s.error)
  }

  /** `sum(ps)` continued from `acc`. */
  function SumFrom(acc: Summed, ps: seq<Position>): Result<Summed>
    decreases |ps|
  {
    if ps == [] then Ok(acc)
    else
      var s := SumStep(acc, ps[0]);
      if s.Ok? then SumFrom(s.value, ps[1..]) else Err(s.error)
  }

  /** `sum(ps)` with Python's start value 0. */
  function SumPositions(ps: seq<Position>): Result<Summed>
  {
    SumFrom(IntZero, ps)
  }

  function SignedSum(ps: seq<Position>): int
  {
    if ps == [] then 0 else Signed(ps[0]) + SignedSum(ps[1..])
  }

  predicate AllOf(ps: seq<Position>, symbol: string)
  {
    forall i :: 0 <= i < |ps| ==> ps[i].symbol == symbol
  }

  /** Folding same-symbol positions into a running position adds their signed quantities. */
  lemma {:induction false} SumFromSameSymbol(acc: Position, ps: seq<Position>)
    requires AllOf(ps, acc.symbol)
    ensures SumFrom(Total(acc), ps).Ok?
    ensures SumFrom(Total(acc), ps).value.Total?
    ensures SumFrom(Total(acc), ps).value.pos.symbol == acc.symbol
    ensures ps != [] ==> SumFrom(Total(acc), ps).value.pos.quantity >= 0
    ensures Signed(SumFrom(Total(acc), ps).value.pos) == Signed(acc) + SignedSum(ps)
    decreases |ps|
  {
    if ps != [] {
      var next := FromSigned(acc.symbol, Signed(ps[0]) + Signed(acc));
      assert SumStep(Total(acc), ps[0]) == Ok(Total(next));
      SumFromSameSymbol(next, ps[1..]);
    }
  }

  /** `sum()` of same-symbol positions: 0 for none; otherwise a position of that symbol
      whose signed quantity is the FIRST position's raw quantity (its direction is lost
      in `0 + p`) plus the signed quantities of the rest. */
  lemma SumOfSameSymbol(ps: seq<Position>, symbol: string)
    requires AllOf(ps, symbol)
    ensures SumPositions(ps).Ok?
    ensures ps == [] <==> SumPositions(ps).value.IntZero?
    ensures ps != [] ==>
      && SumPositions(ps).value.pos.symbol == symbol
      && SumPositions(ps).value.pos.quantity >= 0
      && Signed(SumPositions(ps).value.pos) == ps[0].quantity + SignedSum(ps[1..])
  {
    if ps != [] {
      var first := FromSigned(symbol, ps[0].quantity);
      assert SumStep(IntZero, ps[0]) == Ok(Total(first));
      SumFromSameSymbol(first, ps[1..]);
    }
  }

  /** When the first position is LONG, `sum()` is the signed sum of all of them. */
  lemma SumIsSignedSumWhenFirstLong(ps: seq<Position>, symbol: string)
    requires AllOf(ps, symbol) && ps != [] && ps[0].direction == LONG
    ensures SumPositions(ps).Ok? && SumPositions(ps).value.Total?
    ensures Signed(SumPositions(ps).value.pos) == SignedSum(ps)
  {
    SumOfSameSymbol(ps, symbol);
  }

  /** A lone SHORT position sums to LONG: the quirk of `sum()` starting from 0. */
  lemma SumOfOneShort(symbol: string, q: nat)
    ensures SumPositions([Position(symbol, SHORT, q)]) == Ok(Total(Position(symbol, LONG, q)))
  {
    var ps := [Position(symbol, SHORT, q)];
    var lng := Position(symbol, LONG, q);
    assert SumStep(IntZero, ps[0]) == Ok(Total(lng));
    assert ps[1..] == [];
    assert SumFrom(Total(lng), []) == Ok(Total(lng));
    assert SumFrom(IntZero, ps) == SumFrom(Total(lng), ps[1..]);
  }

  // ---------------------------------------------------------------------
  // Orders

  /** An immutable order snapshot. */
  datatype Order = Order(position: Position, status: OrderStatus, orderId: int, filledAt: real,
                         filledQuantity: int)

  /** `Order(position)` with the constructor's defaults. */
  function NewOrder(position: Position): (o: Order)
    ensures o.position == position && o.status == UNPOSTED && o.orderId == -1
    ensures o.filledAt == 0.0 && o.filledQuantity == 0
  {
    Order(position, UNPOSTED, -1, 0.0, 0)
  }

  /** `is_cancellable`: the order is UNPOSTED or PENDING. */
  predicate IsCancellable(o: Order)
  {
    o.status in {UNPOSTED, PENDING}
  }

  /** `update_status`: a new snapshot with the given status and the same position and id.
      A missing or zero fill price or quantity (both falsy in Python) keeps the old one. */
  function UpdateStatus(o: Order, status: OrderStatus, filledAt: Option<real>, filledQuantity: Option<int>): (r: Order)
    ensures r.position == o.position && r.orderId == o.orderId && r.status == status
    ensures r.filledAt == (if filledAt.Some? && filledAt.value != 0.0 then filledAt.value else o.filledAt)
    ensures r.filledQuantity == (if filledQuantity.Some? && filledQuantity.value != 0 then filledQuantity.value else o.filledQuantity)
  {
    Order(o.position, status,  o.orderId,
          if filledAt.Some? && filledAt.value != 0.0 then filledAt.value else o.filledAt,
          if filledQuantity.Some? && filledQuantity.value != 0 then filledQuantity.value else o.filledQuantity)
  }

  /** Updating the status alone keeps the fill and changes nothing else; repeating it is a no-op. */
  lemma UpdateStatusOnly(o: Order, status: OrderStatus)
    ensures UpdateStatus(o, status, None, None) == o.(status := status)
    ensures UpdateStatus(UpdateStatus(o, status, None, None), status, None, None) == UpdateStatus(o, status, None, None)
  {
  }

  /** `p_or_l(price)`: 0 for an UNPOSTED order, otherwise the price move since the fill
      times the filled quantity, with the direction's sign. */
  function POrL(o: Order, price: real): real
  {
    if o.status == UNPOSTED then 0.0
    else (price - o.filledAt) * (o.filledQuantity as real) * (o.position.direction.Value() as real)
  }

  /** Reversing the position of an order negates its profit or loss. */
  lemma POrLReverse(o: Order, price: real)
    ensures POrL(o.(position := Reverse(o.position)), price) == -POrL(o, price)
  {
  }

  /** A position bought at the fill price earns the move times the quantity; a short one loses it. */
  lemma POrLSign(o: Order, price: real)
    requires o.status != UNPOSTED && o.filledQuantity > 0
    ensures o.position.direction == LONG ==> (POrL(o, price) > 0.0 <==> price > o.filledAt)
    ensures o.position.direction == SHORT ==> (POrL(o, price) > 0.0 <==> price < o.filledAt)
  {
    var q := o.filledQuantity as real;
    var m := price - o.filledAt;
    var s := o.position.direction.Value() as real;
    assert POrL(o, price) == m * q * s;
    ProductSign(m, q);
    if o.position.direction == LONG {
      assert s == 1.0 && m * q * s == m * q;
    } else {
      assert s == -1.0 && m * q * s == -(m * q);
    }
  }

  /** With a positive factor q, a product has the sign of its other factor. */
  lemma ProductSign(m: real, q: real)
    requires q > 0.0
    ensures m * q > 0.0 <==> m > 0.0
    ensures m * q < 0.0 <==> m < 0.0
  {
    if m > 0.0 {
      assert m * q > 0.0;
    } else if m < 0.0 {
      assert (-m) * q > 0.0;
    } else {
      assert m * q == 0.0;
    }
  }

  /** `combined_p_or_l`: the sum of the orders' profit or loss (0 for no orders). */
  function CombinedPOrL(orders: seq<Order>, price: real): real
  {
    if orders == [] then 0.0 else POrL(orders[0], price) + CombinedPOrL(orders[1..], price)
  }

  lemma {:induction false} CombinedPOrLAppend(a: seq<Order>, b: seq<Order>, price: real)
    ensures CombinedPOrL(a + b, price) == CombinedPOrL(a, price) + CombinedPOrL(b, price)
    decreases |a|
  {
    if a == [] {
      assert a + b == b;
    } else {
      assert (a + b)[0] == a[0] && (a + b)[1..] == a[1..] + b;
      CombinedPOrLAppend(a[1..], b, price);
    }
  }

  /** UNPOSTED orders take no part in the combined profit or loss. */
  lemma {:induction false} CombinedIgnoresUnposted(orders: seq<Order>, price: real)
    ensures CombinedPOrL(orders, price) == CombinedPOrL(Select(orders, IsPosted), price)
    decreases |orders|
  {
    if orders != [] {
      CombinedIgnoresUnposted(orders[1..], price);
      var rest := Select(orders[1..], IsPosted);
      if IsPosted(orders[0]) {
        assert Select(orders, IsPosted) == [orders[0]] + rest;
        assert ([orders[0]] + rest)[1..] == rest;
      } else {
        assert Select(orders, IsPosted) == rest;
      }
    }
  }

  predicate IsPosted(o: Order)
  {
    o.status != UNPOSTED
  }

  // ---------------------------------------------------------------------
  // Filtered views

  /** The orders satisfying `keep`, in book order (a list comprehension with a condition). */
  function Select(orders: seq<Order>, keep: Order -> bool): (r: seq<Order>)
    ensures |r| <= |orders|
    ensures forall i :: 0 <= i < |r| ==> keep(r[i]) && r[i] in orders
    ensures forall o :: o in r <==> o in orders && keep(o)
    ensures forall o :: keep(o) ==> multiset(r)[o] == multiset(orders)[o]
    decreases |orders|
  {
    if orders == [] then []
    else
      assert orders == [orders[0]] + orders[1..];
      (if keep(orders[0]) then [orders[0]] else []) + Select(orders[1..], keep)
  }

  /** Selection keeps book order: selecting from a concatenation concatenates the selections. */
  lemma {:induction false} SelectAppend(a: seq<Order>, b: seq<Order>, keep: Order -> bool)
    ensures Select(a + b, keep) == Select(a, keep) + Select(b, keep)
    decreases |a|
  {
    if a == [] {
      assert a + b == b;
    } else {
      assert (a + b)[0] == a[0] && (a + b)[1..] == a[1..] + b;
      SelectAppend(a[1..], b, keep);
    }
  }

  predicate IsOpen(o: Order)
  {
    o.status in {SUBMITTED, PENDING}
  }

  predicate IsFilled(o: Order)
  {
    o.status == FILLED
  }

  /** `open_orders`: the PENDING and SUBMITTED orders in book order. */
  function OpenOrders(orders: seq<Order>): (r: seq<Order>)
    ensures forall o :: o in r <==> o in orders && o.status in {SUBMITTED, PENDING}
    ensures forall o: Order :: o.status in {SUBMITTED, PENDING} ==> multiset(r)[o] == multiset(orders)[o]
  {
    Select(orders, IsOpen)
  }

  /** `filled_orders`: the FILLED orders in book order. */
  function FilledOrders(orders: seq<Order>): (r: seq<Order>)
    ensures forall o :: o in r <==> o in orders && o.status == FILLED
    ensures forall o: Order :: o.status == FILLED ==> multiset(r)[o] == multiset(orders)[o]
  {
    Select(orders, IsFilled)
  }

  /** `orders_for(symbol)`: the orders whose position is in `symbol`, in book order. */
  function OrdersFor(orders: seq<Order>, symbol: string): (r: seq<Order>)
    ensures forall o :: o in r <==> o in orders && o.position.symbol == symbol
    ensures forall o: Order :: o.position.symbol == symbol ==> multiset(r)[o] == multiset(orders)[o]
  {
    Select(orders, InSymbol(symbol))
  }

  /** The condition of `orders_for(symbol)`. */
  function InSymbol(symbol: string): Order -> bool
  {
    (o: Order) => o.position.symbol == symbol
  }

  /** The filled orders of one symbol, the orders both folds of the book run over. */
  function FilledFor(orders: seq<Order>, symbol: string): (r: seq<Order>)
    ensures forall o :: o in r <==> o in orders && o.position.symbol == symbol && o.status == FILLED
  {
    Select(OrdersFor(orders, symbol), IsFilled)
  }

  function PositionsOf(orders: seq<Order>): (r: seq<Position>)
    ensures |r| == |orders| && forall i :: 0 <= i < |r| ==> r[i] == orders[i].position
  {
    if orders == [] then [] else [orders[0].position] + PositionsOf(orders[1..])
  }

  /** `OrderBook.p_or_l(symbol, price)`: the combined profit or loss of the symbol's filled orders. */
  function BookPOrL(orders: seq<Order>, symbol: string, price: real): real
  {
    CombinedPOrL(FilledFor(orders, symbol), price)
  }

  /** `OrderBook.current_position(symbol)`: `sum()` of the positions of the symbol's filled
      orders. The sum of no orders is the int 0; otherwise a position of that symbol whose
      signed quantity is the first fill's raw quantity plus the signed quantities of the rest. */
  function CurrentPosition(orders: seq<Order>, symbol: string): (r: Summed)
    ensures r.IntZero? <==> FilledFor(orders, symbol) == []
    ensures r.Total? ==>
      && r.pos.symbol == symbol && r.pos.quantity >= 0
      && Signed(r.pos) == FilledFor(orders, symbol)[0].position.quantity
                          + SignedSum(PositionsOf(FilledFor(orders, symbol))[1..])
  {
    var ps := PositionsOf(FilledFor(orders, symbol));
    assert AllOf(ps, symbol) by {
      forall i | 0 <= i < |ps| ensures ps[i].symbol == symbol {
        assert FilledFor(orders, symbol)[i] in FilledFor(orders, symbol);
      }
    }
    SumOfSameSymbol(ps, symbol);
    SumPositions(ps).value
  }

  /** The filled orders of a symbol in a concatenated book are those of each part, in order. */
  lemma FilledForAppend(a: seq<Order>, b: seq<Order>, symbol: string)
    ensures FilledFor(a + b, symbol) == FilledFor(a, symbol) + FilledFor(b, symbol)
  {
    SelectAppend(a, b, InSymbol(symbol));
    SelectAppend(OrdersFor(a, symbol), OrdersFor(b, symbol), IsFilled);
  }

  /** An order that is not a fill of the symbol leaves its current position and its profit
      or loss as they are. */
  lemma CurrentPositionIgnores(orders: seq<Order>, o: Order, symbol: string, price: real)
    requires o.position.symbol != symbol || o.status != FILLED
    ensures CurrentPosition(orders + [o], symbol) == CurrentPosition(orders, symbol)
    ensures BookPOrL(orders + [o], symbol, price) == BookPOrL(orders, symbol, price)
  {
    FilledForAppend(orders, [o], symbol);
    assert FilledFor([o], symbol) == [];
    assert FilledFor(orders, symbol) + [] == FilledFor(orders, symbol);
  }

  /** A fill of the symbol adds its profit or loss to the symbol's total. */
  lemma BookPOrLFill(orders: seq<Order>, o: Order, price: real)
    requires o.status == FILLED
    ensures BookPOrL(orders + [o], o.position.symbol, price)
            == BookPOrL(orders, o.position.symbol, price) + POrL(o, price)
  {
    var symbol := o.position.symbol;
    FilledForAppend(orders, [o], symbol);
    assert OrdersFor([o], symbol) == [o];
    assert FilledFor([o], symbol) == [o];
    CombinedPOrLAppend(FilledFor(orders, symbol), [o], price);
  }

  /** `Broker.current_positions`: the current position of every watched symbol, in watch order. */
  function CurrentPositions(orders: seq<Order>, symbols: seq<string>): (r: seq<Summed>)
    ensures |r| == |symbols|
    ensures forall i :: 0 <= i < |symbols| ==> r[i] == CurrentPosition(orders, symbols[i])
  {
    if symbols == [] then [] else [CurrentPosition(orders, symbols[0])] + CurrentPositions(orders, symbols[1..])
  }

  /** The sum over watched (symbol, bar) items of the book's profit or loss at the bar's close. */
  function WatchedPOrL(orders: seq<Order>, items: seq<(string, TickBar)>): real
  {
    if items == [] then 0.0 else BookPOrL(orders, items[0].0, items[0].1.close) + WatchedPOrL(orders, items[1..])
  }

  /** The watch-list total over two runs of items is the sum of both totals. */
  lemma {:induction false} WatchedPOrLAppend(orders: seq<Order>, a: seq<(string, TickBar)>, b: seq<(string, TickBar)>)
    ensures WatchedPOrL(orders, a + b) == WatchedPOrL(orders, a) + WatchedPOrL(orders, b)
    decreases |a|
  {
    if a == [] {
      assert a + b == b;
    } else {
      assert (a + b)[0] == a[0] && (a + b)[1..] == a[1..] + b;
      WatchedPOrLAppend(orders, a[1..], b);
    }
  }

  /** `Broker.p_or_l(symbol)`. A non-empty symbol is priced at its watched close and raises
      KeyError when it is not watched; no symbol, or the empty string (falsy in Python),
      sums the profit or loss of every watched symbol. */
  function BrokerPOrL(orders: seq<Order>, items: seq<(string, TickBar)>, prices: map<string, TickBar>,
                      symbol: Option<string>): (r: Result<real>)
    ensures r.Err? <==> symbol.Some? && symbol.value != "" && symbol.value !in prices
    ensures r.Err? ==> r.error == KeyError
    ensures symbol.Some? && symbol.value in prices && symbol.value != "" ==>
      r == Ok(BookPOrL(orders, symbol.value, prices[symbol.value].close))
    ensures (symbol.None? || symbol.value == "") ==> r == Ok(WatchedPOrL(orders, items))
  {
    if symbol.Some? && symbol.value != "" then
      if symbol.value in prices then Ok(BookPOrL(orders, symbol.value, prices[symbol.value].close))
      else Err(KeyError)
    else Ok(WatchedPOrL(orders, items))
  }

  // ---------------------------------------------------------------------
  // OrderBook

  /** The state of an OrderBook: the order list and the index from order id to
      (order, slot). */
  datatype Book = Book(orders: seq<Order>, byId: map<int, (Order, nat)>)
  {
    /** Every indexed slot exists. */
    predicate Bounded()
    {
      forall id :: id in byId ==> byId[id].1 < |orders|
    }

    /** The index agrees with the list: each entry names a slot holding that very order
        under that id, and every listed order's id is indexed. */
    predicate Consistent()
    {
      && (forall id :: id in byId ==>
            byId[id].1 < |orders| && orders[byId[id].1] == byId[id].0 && byId[id].0.orderId == id)
      && (forall i :: 0 <= i < |orders| ==> orders[i].orderId in byId)
    }

    /** `append(order)`. */
    function Appended(o: Order): (b: Book)
      ensures |b.orders| == |orders| + 1 && b.orders[..|orders|] == orders && b.orders[|orders|] == o
    {
      Book(orders + [o], byId[o.orderId := (o, |orders|)])
    }

    /** `book[i] = order` for a slot that exists. */
    function SetAt(i: nat, o: Order): (b: Book)
      requires i < |orders|
      ensures |b.orders| == |orders| && b.orders[i] == o
      ensures forall j :: 0 <= j < |orders| && j != i ==> b.orders[j] == orders[j]
    {
      Book(orders[i := o], byId[o.orderId := (o, i)])
    }

    /** `by_order_id(id)`: the indexed (order, slot), or KeyError. */
    function ByOrderId(id: int): (r: Result<(Order, nat)>)
      ensures r.Ok? <==> id in byId
      ensures r.Ok? ==> r.value == byId[id]
      ensures r.Err? ==> r.error == KeyError
    {
      if id in byId then Ok(byId[id]) else Err(KeyError)
    }
  }

  const EmptyBook := Book([], map[])

  lemma EmptyBookConsistent()
    ensures EmptyBook.Consistent() && EmptyBook.Bounded()
  {
  }

  /** Appending keeps the index consistent and indexes the new order under its slot. */
  lemma AppendedConsistent(b: Book, o: Order)
    requires b.Consistent()
    ensures b.Appended(o).Consistent()
    ensures b.Appended(o).ByOrderId(o.orderId) == Ok((o, |b.orders|))
  {
    var c := b.Appended(o);
    forall i | 0 <= i < |c.orders| ensures c.orders[i].orderId in c.byId {
      if i < |b.orders| {
        assert c.orders[i] == b.orders[i];
      }
    }
  }

  /** Replacing a slot by an order with the same id keeps the index consistent, indexes the
      new order under that slot and leaves every other id's entry as it was. */
  lemma SetAtConsistent(b: Book, i: nat, o: Order)
    requires b.Consistent() && i < |b.orders| && o.orderId == b.orders[i].orderId
    ensures b.SetAt(i, o).Consistent()
    ensures b.SetAt(i, o).ByOrderId(o.orderId) == Ok((o, i))
    ensures forall id :: id != o.orderId ==> b.SetAt(i, o).ByOrderId(id) == b.ByOrderId(id)
  {
    var c := b.SetAt(i, o);
    forall id | id in c.byId
      ensures c.byId[id].1 < |c.orders| && c.orders[c.byId[id].1] == c.byId[id].0 && c.byId[id].0.orderId == id
    {
      if id != o.orderId {
        var j := b.byId[id].1;
        assert j != i;
      }
    }
  }

  /** Appending and replacing slots keep every index entry in range. */
  lemma UpdatesBounded(b: Book, i: nat, o: Order)
    requires b.Bounded()
    ensures b.Appended(o).Bounded()
    ensures i < |b.orders| ==> b.SetAt(i, o).Bounded()
  {
  }

  /** The list-like order book. */
  class OrderBook {
    var orders: seq<Order>
    var byId: map<int, (Order, nat)>

    function State(): Book
      reads this
    {
      Book(orders, byId)
    }

    ghost predicate Valid()
      reads this
    {
      State().Bounded()
    }

    constructor ()
      ensures State() == EmptyBook && Valid()
    {
      orders := [];
      byId := map[];
    }

    /** `len(book)`. */
    function Length(): nat
      reads this
    {
      |orders|
    }

    /** `book[i]` for a non-negative index: the order in slot i, or IndexError. */
    function Get(i: nat): (r: Result<Order>)
      reads this
      ensures r.Ok? <==> i < |orders|
      ensures r.Ok? ==> r.value == orders[i]
      ensures r.Err? ==> r.error == IndexError
    {
      if i < |orders| then Ok(orders[i]) else Err(IndexError)
    }

    /** `append(order)`: the order goes last and its id maps to (order, len - 1). */
    method Append(o: Order)
      requires Valid()
      modifies this
      ensures Valid()
      ensures State() == old(State()).Appended(o)
      ensures Length() == old(Length()) + 1 && orders[Length() - 1] == o
      ensures byId[o.orderId] == (o, Length() - 1)
    {
      orders := orders + [o];
      byId := byId[o.orderId := (o, |orders| - 1)];
    }

    /** `book[i] = order`: replace slot i and refresh that order's index entry; a slot
        outside the list raises IndexError and changes nothing. */
    method Set(i: nat, o: Order) returns (r: Outcome)
      requires Valid()
      modifies this
      ensures Valid()
      ensures r.Pass? <==> i < old(Length())
      ensures r.Fail? ==> r.error == IndexError && State() == old(State())
      ensures r.Pass? ==> State() == old(State()).SetAt(i, o)
    {
      if i >= |orders| {
        return Fail(IndexError);
      }
      orders := orders[i := o];
      byId := byId[o.orderId := (o, i)];
      return Pass;
    }

    /** `by_order_id(id)`. */
    function ByOrderId(id: int): (r: Result<(Order, nat)>)
      reads this
      ensures r == State().ByOrderId(id)
    {
      State().ByOrderId(id)
    }
  }
}
