/** The position guards of quant/trader.py: a Trader opens one initial position
    through its broker, reduces it, records the last bar it saw, and refuses to shut
    down while the position is open. The broker is the fake broker; console output
    is left out. */
module Trader {
  import opened Base
  import opened Markets
  import opened Broker
  import opened FakeBroker

  /** `any(position.quantity for position in ...)` as written: the generator stops at the
      first position with a non-zero quantity, and reading `.quantity` on the int 0 that
      `sum()` gives a watched symbol without fills raises AttributeError. */
  function AnyQuantityAsWritten(ps: seq<Summed>): (r: Result<bool>)
    ensures r.Err? ==> r.error == AttributeError
    ensures r == Ok(true) ==> exists i :: 0 <= i < |ps| && ps[i].Total? && ps[i].pos.quantity != 0
    ensures (forall i :: 0 <= i < |ps| ==> ps[i].Total?) ==> r.Ok?
    decreases |ps|
  {
    if ps == [] then Ok(false)
    else if ps[0].IntZero? then Err(AttributeError)
    else if ps[0].pos.quantity != 0 then Ok(true)
    else AnyQuantityAsWritten(ps[1..])
  }

  /** Whether some current position has a non-zero quantity, the int 0 of a symbol
      without fills counting as quantity 0. */
  function AnyNonZero(ps: seq<Summed>): (r: bool)
    ensures r <==> exists i :: 0 <= i < |ps| && ps[i].Quantity() != 0
    decreases |ps|
  {
    if ps == [] then false
    else ps[0].Quantity() != 0 || AnyNonZero(ps[1..])
  }

  /** Where the written scan gives an answer, the corrected one gives the same. */
  lemma {:induction false} AnyQuantityAgrees(ps: seq<Summed>)
    ensures AnyQuantityAsWritten(ps).Ok? ==> AnyQuantityAsWritten(ps).value == AnyNonZero(ps)
    decreases |ps|
  {
    if ps != [] && ps[0].Total? && ps[0].pos.quantity == 0 {
      AnyQuantityAgrees(ps[1..]);
    }
  }

  /** Right after `open_position`, before the fill, the watched symbol's position is the
      int 0: the written check raises where the intended answer is "no open position". */
  lemma AnyQuantityBeforeFill(symbol: string)
    ensures CurrentPositions([Booked(Position(symbol, LONG, 100), 0)], [symbol]) == [IntZero]
    ensures AnyQuantityAsWritten([IntZero]) == Err(AttributeError)
    ensures !AnyNonZero([IntZero])
  {
    var orders := [Booked(Position(symbol, LONG, 100), 0)];
    assert FilledFor(orders, symbol) == [] by {
      assert orders[0] !in FilledFor(orders, symbol);
    }
  }

  /** What `reduce_position` does: nothing, raise, or place an order. */
  datatype Reduction = NoReduction | ReductionFails(error: Error) | ReduceBy(order: Position)

  /** The decision of `reduce_position(quantity)` for the trader's symbol, given the
      open-position check and the first current position. Nothing without an open
      position or for a quantity below 1; the check's error propagates; the first
      position, taken as the only one, must hold at least the quantity (ValueError
      otherwise, and AttributeError when it is the int 0 of a symbol without fills);
      then the reduction is the quantity in the opposite direction. */
  function ReductionFor(open: Result<bool>, quantity: int, first: Option<Summed>, symbol: string): (r: Reduction)
    ensures r.NoReduction? <==> open == Ok(false) || (open.Ok? && quantity < 1)
    ensures open.Err? ==> r == ReductionFails(open.error)
    ensures r.ReduceBy? ==>
      && open == Ok(true) && first.Some? && first.value.Total?
      && r.order.symbol == symbol && r.order.quantity == quantity
      && 1 <= quantity <= first.value.pos.quantity
      && r.order.direction != first.value.pos.direction
    ensures open == Ok(true) && 1 <= quantity && first.Some? && first.value.Total? && first.value.pos.quantity < quantity
      ==> r == ReductionFails(ValueError)
  {
    if open.Err? then ReductionFails(open.error)
    else if !open.value || quantity < 1 then NoReduction
    else if first.None? then ReductionFails(IndexError)
    else if first.value.IntZero? then ReductionFails(AttributeError)
    else if first.value.pos.quantity < quantity then ReductionFails(ValueError)
    else ReduceBy(Position(symbol, Reverse(first.value.pos).direction, quantity))
  }

  /** With an open position the position list is not empty, so the first position
      always exists. */
  lemma OpenHasFirst(orders: seq<Order>, symbols: seq<string>)
    requires AnyNonZero(CurrentPositions(orders, symbols))
    ensures symbols != []
  {
  }

  /** One trader: its broker (none after shutdown), the last close and average price
      seen, the initial position, and whether it has opened and closed that position. */
  class Trader {
    var broker: FakeBroker?
    /** The broker the trader was made with. */
    const fake: FakeBroker
    var prevClose: real
    var prevWap: real
    const initialPosition: Position
    const symbol: string
    var isOpen: bool
    var isClosed: bool

    ghost predicate Valid()
      reads this, fake, fake.worker, fake.book, fake.watchlist
    {
      (broker == null || broker == fake) && fake.Valid()
    }

    /** `Trader(position, broker)`; the observers it registers are left out. */
    constructor (position: Position, broker: FakeBroker)
      requires broker.Valid()
      ensures Valid() && this.broker == broker && fake == broker
      ensures prevClose == 0.0 && prevWap == 0.0 && !isOpen && !isClosed
      ensures initialPosition == position && symbol == position.symbol
    {
      this.broker := broker;
      fake := broker;
      prevClose := 0.0;
      prevWap := 0.0;
      initialPosition := position;
      symbol := position.symbol;
      isOpen := false;
      isClosed := false;
    }

    /** `is_active`: the trader still has its broker. */
    predicate IsActive()
      reads this
    {
      broker != null
    }

    /** `has_open_position` as written. */
    function HasOpenPositionAsWritten(): (r: Result<bool>)
      requires Valid()
      reads this, fake, fake.worker, fake.book, fake.watchlist
      ensures (!isOpen || isClosed) ==> r == Ok(false)
    {
      if !isOpen || isClosed then Ok(false)
      else if broker == null then Err(AttributeError)
      else AnyQuantityAsWritten(broker.CurrentPositions())
    }

    /** `has_open_position`: only after opening and before closing, and then exactly when
        some watched symbol's current position is non-zero; AttributeError once the
        broker is gone. */
    function HasOpenPosition(): (r: Result<bool>)
      requires Valid()
      reads this, fake, fake.worker, fake.book, fake.watchlist
      ensures (!isOpen || isClosed) ==> r == Ok(false)
      ensures isOpen && !isClosed && broker == null ==> r == Err(AttributeError)
      ensures isOpen && !isClosed && broker != null ==>
        r == Ok(AnyNonZero(Broker.CurrentPositions(fake.book.orders, fake.watchlist.symbols)))
    {
      if !isOpen || isClosed then Ok(false)
      else if broker == null then Err(AttributeError)
      else Ok(AnyNonZero(broker.CurrentPositions()))
    }

    /** `open_position`: place the initial position once; any later call places nothing.
        A failing `place_order` propagates and leaves the trader unopened. */
    method OpenPosition() returns (r: Outcome)
      requires Valid()
      modifies this, fake.worker
      ensures Valid() && broker == old(broker)
      ensures old(isOpen) ==> r == Pass && isOpen && fake.worker.queue == old(fake.worker.queue)
      ensures !old(isOpen) && broker == null ==> r == Fail(AttributeError) && !isOpen
      ensures !old(isOpen) && broker != null ==>
        && (r.Pass? <==> initialPosition.symbol in fake.watchlist.lastPrice)
        && (r.Pass? ==> isOpen && fake.worker.queue == old(fake.worker.queue) + [initialPosition])
        && (r.Fail? ==> r.error == KeyError && !isOpen && fake.worker.queue == old(fake.worker.queue))
      ensures fake.worker.emitted == old(fake.worker.emitted)
      ensures isClosed == old(isClosed) && prevClose == old(prevClose) && prevWap == old(prevWap)
    {
      if isOpen {
        return Pass;
      }
      if broker == null {
        return Fail(AttributeError);
      }
      r := broker.PlaceOrder(initialPosition);
      if r.Fail? {
        return;
      }
      isOpen := true;
    }

    /** `on_bar(bar)`: remember the bar's close and average price. Once open, the
        profit or loss is rendered first, which raises AttributeError without a broker. */
    method OnBar(bar: TickBar) returns (r: Outcome)
      requires Valid()
      modifies this
      ensures Valid() && broker == old(broker) && isOpen == old(isOpen) && isClosed == old(isClosed)
      ensures r.Fail? <==> isOpen && broker == null
      ensures r.Fail? ==> r.error == AttributeError && prevClose == old(prevClose) && prevWap == old(prevWap)
      ensures r.Pass? ==> prevClose == bar.close && prevWap == bar.wap
    {
      if isOpen {
        if broker == null {
          return Fail(AttributeError);
        }
        var _ := broker.POrL(None);
      }
      prevClose := bar.close;
      prevWap := bar.wap;
      return Pass;
    }

    /** `reduce_position(quantity)`: what `ReductionFor` decides, from the open-position
        check and the first watched symbol's position; a reduction is placed with the
        broker. */
    method ReducePosition(quantity: int) returns (r: Outcome)
      requires Valid()
      modifies fake.worker
      ensures Valid()
      ensures var plan := ReductionFor(old(HasOpenPosition()), quantity, old(FirstPosition()), symbol);
        && (plan.NoReduction? ==> r == Pass && fake.worker.queue == old(fake.worker.queue))
        && (plan.ReductionFails? ==> r == Fail(plan.error) && fake.worker.queue == old(fake.worker.queue))
        && (plan.ReduceBy? ==>
              && (r.Pass? <==> symbol in fake.watchlist.lastPrice)
              && (r.Pass? ==> fake.worker.queue == old(fake.worker.queue) + [plan.order])
              && (r.Fail? ==> r == Fail(KeyError) && fake.worker.queue == old(fake.worker.queue)))
      ensures fake.worker.emitted == old(fake.worker.emitted)
    {
      var plan := Plan(quantity);
      r := Apply(plan);
    }

    /** Carry out a decision: report it, or place the reduction with the broker. */
    method Apply(plan: Reduction) returns (r: Outcome)
      requires Valid()
      requires plan.ReduceBy? ==> broker == fake && plan.order.symbol == symbol
      modifies fake.worker
      ensures Valid()
      ensures
        && (plan.NoReduction? ==> r == Pass && fake.worker.queue == old(fake.worker.queue))
        && (plan.ReductionFails? ==> r == Fail(plan.error) && fake.worker.queue == old(fake.worker.queue))
        && (plan.ReduceBy? ==>
              && (r.Pass? <==> symbol in fake.watchlist.lastPrice)
              && (r.Pass? ==> fake.worker.queue == old(fake.worker.queue) + [plan.order])
              && (r.Fail? ==> r == Fail(KeyError) && fake.worker.queue == old(fake.worker.queue)))
      ensures fake.worker.emitted == old(fake.worker.emitted)
    {
      if plan.NoReduction? {
        return Pass;
      } else if plan.ReductionFails? {
        return Fail(plan.error);
      }
      r := fake.PlaceOrder(plan.order);
    }

    /** The decision `reduce_position(quantity)` takes in the current state. */
    method Plan(quantity: int) returns (plan: Reduction)
      requires Valid()
      ensures plan == ReductionFor(HasOpenPosition(), quantity, FirstPosition(), symbol)
      ensures plan.ReduceBy? ==> broker == fake && plan.order.symbol == symbol
    {
      plan := ReductionFor(HasOpenPosition(), quantity, FirstPosition(), symbol);
    }

    /** `broker.current_positions()[0]`: the first watched symbol's position, if any. */
    function FirstPosition(): (r: Option<Summed>)
      requires Valid()
      reads this, fake, fake.worker, fake.book, fake.watchlist
      ensures r.Some? <==> fake.watchlist.symbols != []
      ensures r.Some? ==> r.value == CurrentPosition(fake.book.orders, fake.watchlist.symbols[0])
    {
      if fake.watchlist.symbols == [] then None
      else Some(CurrentPosition(fake.book.orders, fake.watchlist.symbols[0]))
    }

    /** `shutdown(force)`: while a position is open and `force` is not given, nothing
        happens; otherwise the broker is shut down and dropped, so the trader is no longer
        active. AttributeError when there is no broker to shut down. */
    method Shutdown(force: bool) returns (r: Outcome)
      requires Valid()
      modifies this, fake.worker
      ensures Valid()
      ensures old(HasOpenPosition()).Err? ==> r == Fail(old(HasOpenPosition()).error) && broker == old(broker)
      ensures old(HasOpenPosition()) == Ok(true) && !force ==> r == Pass && broker == old(broker) && IsActive() == old(IsActive())
      ensures old(HasOpenPosition()).Ok? && (force || !old(HasOpenPosition()).value) ==>
        && !IsActive()
        && (r.Pass? <==> old(broker) != null)
        && (r.Fail? ==> r.error == AttributeError)
        && (r.Pass? ==> fake.worker.shutdownRequest)
      ensures isOpen == old(isOpen) && isClosed == old(isClosed)
      ensures fake.worker.queue == old(fake.worker.queue) && fake.worker.emitted == old(fake.worker.emitted)
    {
      var open := HasOpenPosition();
      if open.Err? {
        return Fail(open.error);
      }
      if open.value && !force {
        return Pass;
      }
      if broker == null {
        return Fail(AttributeError);
      }
      broker.Shutdown();
      broker := null;
      return Pass;
    }
  }

  /** The written check can only raise where the corrected one answers: once open, with
      a broker whose every watched symbol has fills, both agree. */
  lemma HasOpenPositionAgrees(t: Trader)
    requires t.Valid()
    ensures t.HasOpenPositionAsWritten().Ok? ==> t.HasOpenPositionAsWritten() == t.HasOpenPosition()
  {
    if t.isOpen && !t.isClosed && t.broker != null {
      AnyQuantityAgrees(t.broker.CurrentPositions());
    }
  }
}
