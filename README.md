# quant — order bookkeeping, fake broker, channels and event bus, in Dafny

This project models the bookkeeping core of the `quant` trading toolkit:

- **Positions and orders** (quant/broker.py):
  - signed position arithmetic, including the quirks of `sum()` over positions;
  - immutable order snapshots and their profit or loss;
  - the `OrderBook`: a list plus an `order_id → (order, index)` dictionary, with its filtered views and folds.
- **The fake broker's worker** (quant/fakebroker.py):
  - a queue of positions, and one step of its run loop;
  - the one-step status advance UNPOSTED → PENDING → SUBMITTED → FILLED;
  - the cancel pass.
  Each transition emits an `OrderEvent`, modelled as a log.
- **The correlation channel registry** (quant/util/channel.py): keys handed out from a counter; per-channel result, buffer and callbacks; `close`; and `call` with an abstract "closed or timed out" wait.
- **The two event buses** (quant/util/events.py with weak references, src/util/events.py without them). Handlers are identifiers. A handler's outcome (falsy, truthy, raises) and a weak reference's liveness are parameters.
- **The Interactive Brokers glue** (quant/ibkr.py):
  - status strings, bar sizes, contract selection and duration choice;
  - the order-id counter, the listener and subscription dictionaries, and the book update on an order status;
  - a log of the requests sent to the server.
- **Market data containers** (quant/markets.py, src/markets.py, src/symbols.py): upper-cased symbols, column stores with `append_bar` and `condense`, the watch list, and the crypto/forex classifiers.
- **`Trader`'s position guards** (quant/trader.py), the `Waiter` and the trading-day counter (both timeutil files), and `Bidict` (three identical copies).

Some files hold copies of the same code, and one member models every copy. The table cites each member once:
- the crypto/forex classifiers of quant/markets.py:47-55, src/markets.py:40-45 and src/symbols.py:5-10 are Markets.IsCrypto and Markets.IsForex;
- the column stores of quant/markets.py:78-116 and src/markets.py:64-91 are Markets.SymbolData (src/symbols.py, whose columns differ, has its own SrcSymbols.SymbolData);
- the `Bidict` classes of quant/util/misc.py:6-21, src/util/misc.py:4-19 and src/util/bidict.py:1-15 are Misc.Bidict.

Prices are `real` (exact). Timestamps are `int` seconds, and a calendar day is `t / 86400`. `str.upper()` is modelled on ASCII letters.

Objects whose fields the source updates in place are classes with `modifies` frames. Each state-changing method is specified by a pure function of the old state, for example `Book.Appended`, `UpdateFrom`, `CancelFrom`, `Filter` and `Deliver`, and lemmas state the properties of those functions.

Where a reader would expect otherwise, the model follows the code:
- Summing positions is not a signed sum. `sum()` starts from the int 0, so the first position passes through `__radd__(0)` and becomes LONG with its raw quantity. An empty sum is the int 0, not a position (Broker.SumOfOneShort, Broker.SumOfSameSymbol).
- Closing a channel key twice raises KeyError. It is not a no-op (Channel.CallChannels.Close).
- `add_symbol` leaves an existing entry alone whatever its price (Markets.WatchList.AddSymbol).
- The interactive-broker code in quant/ibkr.py uses the registry defined in that same file (lines 353-407). Its `close` calls `done()` on a waiter that a zero-wait subscription never creates. The model records that as a finding below. For its subscription bookkeeping it then uses the channel classes of quant/util/channel.py. The older copy differs from them in these ways:
  - `channel_for` and `next_channel` take no metadata or result (quant/ibkr.py:359-366). The model passes none.
  - The channel has no `result`, buffer or `flush`, and its `on_data` only calls the callbacks (quant/ibkr.py:378-401).
  - Its `call` returns nothing rather than `self.result` (quant/ibkr.py:387-397). `subscribe_realtime` ignores the return value.
  - Its `close` calls `done()` with no check for a waiter (quant/ibkr.py:406). It unregisters the key from the module-level `channels` registry, which is the same registry `IBApi` hands channels out from (quant/ibkr.py:373, 407).
  - The timeout warning's wording differs.

## Model

| member | source | states |
|---|---|---|
| Base.Upper | quant/markets.py:83 | the upper-cased symbol has the same length and maps lower-case ASCII letters to upper case, one character at a time |
| Base.UpperIdempotent | quant/markets.py:187 | upper-casing twice is upper-casing once, so a stored upper-cased symbol is its own key |
| Broker.Reverse | quant/broker.py:30-32 | same symbol and quantity, the other direction, the negated signed quantity |
| Broker.ReverseInvolutive | quant/broker.py:30-32 | reversing twice gives the original position |
| Broker.FromSigned | quant/broker.py:44-49 | a signed value becomes a non-negative quantity, SHORT exactly when the value is negative |
| Broker.Add | quant/broker.py:37-49 | ValueError exactly for a position of another symbol; an int is added to the raw quantity, ignoring direction; two positions give the signed sum |
| Broker.RAdd | quant/broker.py:51-52 | `__radd__` is `__add__` |
| Broker.AddCommutes | quant/broker.py:42-43 | adding two same-symbol positions commutes |
| Broker.AddExample | quant/broker.py:42-49 | AAPL LONG 100 + AAPL SHORT 40 = AAPL LONG 60 |
| Broker.RAddZeroNormalises | quant/broker.py:38-52 | `0 + p` keeps the quantity and turns the direction to LONG |
| Broker.SumStep | quant/broker.py:124 | one step of `sum()`: from the int 0 the position is renormalised to LONG with its raw quantity |
| Broker.SumFromSameSymbol | quant/broker.py:124 | folding same-symbol positions onto a position never fails and adds their signed quantities |
| Broker.SumOfSameSymbol | quant/broker.py:124 | `sum()` of same-symbol positions is the int 0 exactly when there are none; otherwise the first raw quantity plus the signed rest |
| Broker.SumIsSignedSumWhenFirstLong | quant/broker.py:124 | when the first position is LONG the sum is the true signed sum |
| Broker.SumOfOneShort | quant/broker.py:51-52 | the sum of one SHORT position is that position turned LONG |
| Broker.NewOrder | quant/broker.py:56-62 | a new order is UNPOSTED with id -1 and nothing filled |
| Broker.UpdateStatus | quant/broker.py:67-70 | same position and id, the new status; a falsy fill price or quantity keeps the old one |
| Broker.UpdateStatusOnly | quant/broker.py:67-70 | without fill data only the status changes, and repeating the update changes nothing |
| Broker.POrLReverse | quant/broker.py:72-75 | reversing the direction negates the profit or loss |
| Broker.POrLSign | quant/broker.py:72-75 | a posted long order gains exactly when the price is above the fill price, and a short one exactly when it is below |
| Broker.CombinedPOrLAppend | quant/broker.py:83-85 | the combined profit or loss of two lists is the sum of both |
| Broker.CombinedIgnoresUnposted | quant/broker.py:73-85 | UNPOSTED orders contribute nothing to the combined profit or loss |
| Broker.Select | quant/broker.py:110-124 | a filtered view keeps exactly the kept orders, each as many times as in the book |
| Broker.SelectAppend | quant/broker.py:110-124 | filtering distributes over concatenation, so the book order is kept |
| Broker.OpenOrders | quant/broker.py:108-110 | exactly the PENDING and SUBMITTED orders, with multiplicity |
| Broker.FilledOrders | quant/broker.py:112-114 | exactly the FILLED orders, with multiplicity |
| Broker.OrdersFor | quant/broker.py:116-117 | exactly the orders of that symbol, with multiplicity |
| Broker.FilledFor | quant/broker.py:120-124 | exactly the FILLED orders of that symbol |
| Broker.PositionsOf | quant/broker.py:124 | the positions of the orders, slot by slot |
| Broker.CurrentPosition | quant/broker.py:123-124 | the int 0 exactly when the symbol has no filled order; otherwise a position of that symbol with a non-negative quantity |
| Broker.FilledForAppend | quant/broker.py:120-124 | the filled orders of a symbol distribute over concatenation |
| Broker.CurrentPositionIgnores | quant/broker.py:119-124 | an order of another symbol, or one that is not filled, changes neither the current position nor the profit or loss |
| Broker.BookPOrLFill | quant/broker.py:119-121 | a filled order adds its own profit or loss to its symbol's |
| Broker.CurrentPositions | quant/broker.py:142-143 | one current position per watched symbol, in watch-list order |
| Broker.BrokerPOrL | quant/broker.py:153-157 | KeyError exactly for a named symbol that is not watched; a named symbol is priced at its last close; no or empty symbol sums over the watch list |
| Broker.WatchedPOrLAppend | quant/broker.py:157 | the watch-list total over two runs of watched symbols is the sum of their totals |
| Broker.Book.Appended | quant/broker.py:104-106 | the old orders, then the new one |
| Broker.Book.SetAt | quant/broker.py:97-99 | slot i replaced, the other slots unchanged |
| Broker.Book.ByOrderId | quant/broker.py:126-127 | the indexed (order, slot), KeyError for an unknown id |
| Broker.EmptyBookConsistent | quant/broker.py:90-92 | the empty book's index agrees with its list |
| Broker.AppendedConsistent | quant/broker.py:104-106 | appending keeps the index consistent and maps the id to (order, old length) |
| Broker.SetAtConsistent | quant/broker.py:97-99 | replacing a slot with the same id keeps the index consistent, refreshes that id, and leaves every other id's entry alone |
| Broker.UpdatesBounded | quant/broker.py:97-106 | both kinds of update keep every indexed slot inside the list |
| Broker.OrderBook.constructor | quant/broker.py:90-92 | an empty list and an empty index |
| Broker.OrderBook.Get | quant/broker.py:94-95 | the order in slot i, IndexError outside the list |
| Broker.OrderBook.Append | quant/broker.py:104-106 | the order goes last and its id maps to (order, len - 1) |
| Broker.OrderBook.Set | quant/broker.py:97-99 | slot i replaced and its id re-indexed; IndexError and no change outside the list |
| Broker.OrderBook.ByOrderId | quant/broker.py:126-127 | the index entry of the id, KeyError when unknown |
| FakeBroker.Advance | quant/fakebroker.py:67-85 | one step UNPOSTED → PENDING → SUBMITTED → FILLED with one event for each; a fill takes the position quantity and the symbol's last close; KeyError for a fill of an unwatched symbol; other statuses unchanged, with no event |
| FakeBroker.AdvanceFills | quant/fakebroker.py:73-77 | a SUBMITTED order of a watched symbol becomes FILLED at the last close for its whole quantity |
| FakeBroker.ThreePassesFill | quant/fakebroker.py:67-78 | three passes take an UNPOSTED order to FILLED, one event per pass |
| FakeBroker.UpdateFromStep | quant/fakebroker.py:68-78 | the update pass is the step on slot i followed by the pass from i + 1 |
| FakeBroker.UpdateFromShape | quant/fakebroker.py:68-78 | the pass keeps the book length and the slots before i, and fails with KeyError exactly when some slot's step fails |
| FakeBroker.UpdateFromAdvances | quant/fakebroker.py:68-78 | every slot before the first failing one is advanced by exactly one step, and every later slot is untouched |
| FakeBroker.FirstFailure | quant/fakebroker.py:68-78 | the first slot from i on whose order the pass cannot advance (a fill of an unwatched symbol), or the book length; every slot before it advances |
| FakeBroker.UpdateFromConsistent | quant/fakebroker.py:78 | the pass keeps the book index consistent and in bounds |
| FakeBroker.UpdateKeepsIdentity | quant/fakebroker.py:67-78 | the pass keeps every order's position and id |
| FakeBroker.CancelFromEffect | quant/fakebroker.py:51-54 | every UNPOSTED or PENDING order becomes CANCELLED with one event each, every other order is unchanged, and the length and index are kept |
| FakeBroker.CancelLeavesNoneCancellable | quant/fakebroker.py:51-54 | after the cancel pass no order is cancellable |
| FakeBroker.Booked | quant/fakebroker.py:63 | a dequeued position is booked as a PENDING order whose id is its slot |
| FakeBroker.Worker.constructor | quant/fakebroker.py:38-42 | an empty queue, no shutdown request, no events |
| FakeBroker.Worker.Shutdown | quant/fakebroker.py:48-49 | the shutdown flag is set |
| FakeBroker.Worker.UpdateOrderStatus | quant/fakebroker.py:81-85 | the status-only update, emitted once as an event |
| FakeBroker.Worker.UpdateSlot | quant/fakebroker.py:68-78 | one iteration of the update loop: slot i becomes its one-step advance and its events are emitted; KeyError with book and events unchanged for a fill of an unwatched symbol |
| FakeBroker.Worker.CancelPendingOrders | quant/fakebroker.py:51-54 | the book becomes the cancel pass of the old book, events appended in book order |
| FakeBroker.Worker.UpdateOrders | quant/fakebroker.py:67-78 | the book becomes the update pass of the old book, events appended in order; KeyError when a fill meets an unwatched symbol |
| FakeBroker.Worker.TakeQueued | quant/fakebroker.py:58-63 | with a queued position: dequeue it and append a PENDING order whose id is the old book length; otherwise no change |
| FakeBroker.Worker.RunStep | quant/fakebroker.py:56-65 | one run-loop iteration: after shutdown the book, queue and emitted events are unchanged; otherwise take at most one position, then one update pass |
| FakeBroker.FakeBroker.constructor | quant/fakebroker.py:13-16 | a fresh empty book and worker over the watch list |
| FakeBroker.FakeBroker.PlaceOrder | quant/fakebroker.py:30-33 | KeyError for an unwatched symbol; otherwise the position is queued and the book is untouched |
| FakeBroker.FakeBroker.Shutdown | quant/fakebroker.py:21-22 | the worker is asked to stop |
| FakeBroker.FakeBroker.CancelPendingOrders | quant/fakebroker.py:24-25 | the worker's cancel pass |
| FakeBroker.FakeBroker.CurrentPositions | quant/broker.py:142-143 | one book position per watched symbol |
| FakeBroker.FakeBroker.OpenOrders | quant/broker.py:145-147 | the book's PENDING and SUBMITTED orders |
| FakeBroker.FakeBroker.FilledOrders | quant/broker.py:149-151 | the book's FILLED orders |
| FakeBroker.FakeBroker.POrL | quant/broker.py:153-157 | the broker-wide profit or loss over the book and the watch list |
| Channel.Deliver | quant/util/channel.py:57-59 | every callback in registration order, each with the data |
| Channel.DeliverAppend | quant/util/channel.py:57-59 | delivering to more callbacks extends the earlier deliveries |
| Channel.CallEach | quant/util/channel.py:57-59 | the loop calls each callback once, in registration order, after the earlier calls |
| Channel.CallChannels.constructor | quant/util/channel.py:11-13 | no channels, the counter at the base |
| Channel.CallChannels.ChannelFor | quant/util/channel.py:15-18 | the registered channel, ignoring the new metadata and result, or a fresh one registered under the key |
| Channel.CallChannels.NextChannel | quant/util/channel.py:20-23 | the channel keyed by the counter, which then moves up by one; the id exceeds every id handed out before |
| Channel.CallChannels.Close | quant/util/channel.py:25-26 | unregisters and returns the channel; KeyError when it is not registered, so a second close fails |
| Channel.CallChannel.constructor | quant/util/channel.py:31-39 | the given key, metadata and result; no waiter, callbacks or buffer |
| Channel.CallChannel.AddCallback | quant/util/channel.py:41-42 | the callback goes last |
| Channel.CallChannel.OnData | quant/util/channel.py:57-61 | every callback gets the data in order; the result is set only if it was None |
| Channel.CallChannel.Buffer | quant/util/channel.py:63-64 | the data is appended to the buffer |
| Channel.CallChannel.Flush | quant/util/channel.py:66-69 | the buffer is delivered as one batch and emptied |
| Channel.CallChannel.Close | quant/util/channel.py:71-76 | the final data is delivered first, a waiter if any is released, and the key is unregistered (KeyError if it was not registered) |
| Channel.DeliverEach | quant/util/channel.py:57-59 | no data, no calls; n data items to k callbacks make k·n calls |
| Channel.DeliverEachSnoc | quant/util/channel.py:57-59 | one more `on_data` adds its own calls after the earlier ones |
| Channel.SettledIsFirst | quant/util/channel.py:60-61 | after a run of `on_data` calls the result is the one already held, otherwise the first data received, otherwise None |
| Channel.SettledSnoc | quant/util/channel.py:60-61 | one more `on_data` sets the result only if none is held yet |
| Channel.WaitOutcome.Received | quant/util/channel.py:44-55 | what arrived during the wait, in order, with a close's final data last |
| Channel.CallChannel.Receive | quant/util/channel.py:57-61 | the data arriving during a wait is delivered item by item, in order, and the result is settled on the first one |
| Channel.CallChannel.Await | quant/util/channel.py:48-52 | data arrives while the caller polls; a close delivers its final data, releases the waiter and unregisters the key; a timeout keeps the waiter waiting and the key registered |
| Channel.CallChannel.Call | quant/util/channel.py:44-55 | max_wait 0 creates no waiter and returns the result as it was; otherwise a fresh waiter, every datum arrived during the wait delivered in order to the callbacks, the return being the first result (the earlier one, else the first arrival), a warning exactly on timeout with what arrived so far, and the key unregistered exactly on close |
| TimeUtil.Waiter.constructor | quant/util/timeutil.py:9-12 | a new waiter is waiting, with its deadline and start time |
| TimeUtil.Waiter.Done | quant/util/timeutil.py:20-21 | no longer waiting |
| TimeUtil.Waiter.Call | quant/util/timeutil.py:14-15 | calling the waiter is `done()` |
| TimeUtil.WaiterStates | quant/util/timeutil.py:17-24 | a waiting waiter is still waiting or expired, both exactly at the deadline; after `done()` neither |
| TimeUtil.WaiterDeadline | quant/util/timeutil.py:17-24 | while waiting, still waiting iff elapsed ≤ max_wait and expired iff elapsed ≥ max_wait |
| TimeUtil.OnDay | quant/util/timeutil.py:86-87 | an instant lies on day d exactly when it falls in that day's 86400 seconds |
| TimeUtil.SpansDaysFacts | quant/util/timeutil.py:86-87 | two instants span days exactly when they fall on different calendar days; the relation is symmetric; an instant and the one a day later always span days |
| TimeUtil.DayStepsIsCeiling | quant/util/timeutil.py:90-99 | the number of one-day steps from start strictly before end is the ceiling of the span in days, 0 when start ≥ end |
| TimeUtil.TradingStepsBound | quant/util/timeutil.py:90-99 | trading days never exceed total days |
| TimeUtil.CountTradingDays | quant/util/timeutil.py:90-99 | the loop's counts are the day steps and the trading steps; trading ≤ total; (0, 0) when start ≥ end |
| SrcTimeUtil.Waiter.constructor | src/util/timeutil.py:7-10 | a new waiter is waiting |
| SrcTimeUtil.Waiter.Call | src/util/timeutil.py:12-13 | calling clears `waiting`, and calling again leaves it cleared |
| SrcTimeUtil.StillWaitingCases | src/util/timeutil.py:15-16 | still waiting whenever waiting; once called, still waiting iff past the deadline |
| Events.Filter | quant/util/events.py:49 | the kept entries, all of them and only them |
| Events.FilterFilter | quant/util/events.py:49 | two removals in a row are one combined removal |
| Events.Without | quant/util/events.py:47-49 | the entry is gone and every other entry keeps its multiplicity |
| Events.WithoutIsFilter | quant/util/events.py:47-49 | `stop_observing` keeps the order of the rest |
| Events.WithoutIdempotent | quant/util/events.py:47-49 | stopping twice is stopping once |
| Events.EmittedFilters | quant/util/events.py:25-41 | removals during a walk over the list taken at the start act as one filter over that list |
| Events.EmitKeepsUncondemned | quant/util/events.py:25-41 | after the walk, exactly the entries that were not condemned remain, in order |
| Events.Delivered | quant/util/events.py:25-39 | at most one call per entry |
| Events.DeliveredMembers | quant/util/events.py:25-39 | exactly the live entries are called: strong ones and weak ones whose referent is alive |
| Events.StrongAlwaysDelivered | quant/util/events.py:34-39 | a strongly registered handler is always called |
| Events.Calls | quant/util/events.py:38-39 | the calls in list order, each with the event |
| Events.CallsAppend | quant/util/events.py:38-39 | calls of a longer list extend those of a shorter one |
| Events.DeliveredAppend | quant/util/events.py:25-39 | delivery distributes over concatenation |
| Events.Observers.Get | quant/util/events.py:15 | the defaultdict gives an empty list for an unseen type |
| Events.Observers.constructor | quant/util/events.py:15 | the module-level `defaultdict(list)`: no registrations and no calls |
| Events.Observers.Observe | quant/util/events.py:18-20 | (weak, observer) goes last in that type's list; other types untouched |
| Events.Observers.StopObserving | quant/util/events.py:47-49 | every equal entry leaves that type's list only |
| Events.Observers.Visit | quant/util/events.py:26-41 | one entry of the walk: a dead weak reference is removed without a call; every other observer is called once with the event, and removed exactly when it returns something truthy; one that raises stays |
| Events.Observers.Emit | quant/util/events.py:23-44 | the live observers of exactly the event's type are called in order; dead weak ones and those returning truthy are removed; one that raises stays and the rest are still called |
| SrcEvents.Observers.Get | src/util/events.py:14 | the defaultdict gives an empty list for an unseen type |
| SrcEvents.Observers.constructor | src/util/events.py:14 | the module-level `defaultdict(list)`: no registrations and no calls |
| SrcEvents.Observers.Observe | src/util/events.py:17-19 | the observer goes last in its type's list |
| SrcEvents.Observers.StopObserving | src/util/events.py:34-36 | every equal entry leaves that type's list only, the rest in order |
| SrcEvents.Observers.Emit | src/util/events.py:22-31 | every observer of the type is called in order; the truthy ones are removed; one that raises stays |
| SrcEvents.TwiceRegisteredCalledTwice | src/util/events.py:24-28 | an observer registered twice is called twice by one emit even when it unsubscribes |
| Markets.ClassifiersIgnoreCase | quant/markets.py:47-55 | both classifiers give the same answer on the upper-cased symbol |
| Markets.ClassifierTable | quant/markets.py:47-55 | for every symbol, by its upper-cased form: BTC is crypto and forex, ETH only crypto, EUR only forex, and every other symbol neither |
| Markets.ClassifierExamples | quant/markets.py:47-55 | btc is crypto and forex, ETH only crypto, eur only forex, AAPL neither |
| Markets.MinOf | quant/markets.py:143 | the chunk minimum is an element of the chunk and below every element |
| Markets.MaxOf | quant/markets.py:144 | the chunk maximum is an element of the chunk and above every element |
| Markets.ChunksIsCeiling | quant/markets.py:129-137 | condensing n bars by f yields ceil(n / f) chunks |
| Markets.ChunkBounds | quant/markets.py:133-136 | chunk k exists exactly when it starts before the end |
| Markets.ChunkedLength | quant/markets.py:129-137 | one aggregate per chunk |
| Markets.ChunkedAt | quant/markets.py:137-146 | aggregate k is taken over bars k·f up to min(k·f + f, n) |
| Markets.Columns.Push | src/markets.py:77-84 | every column grows by one, so equal lengths stay equal |
| Markets.PushStoresBar | quant/markets.py:91-98 | the bar's fields land at the new index under their own labels (wap under Ref Price), earlier rows kept |
| Markets.CondensedUniform | quant/markets.py:129-151 | the condensed dates and columns all hold ceil(n / f) values |
| Markets.CondenseTestCase | quant/markets.py:140-146 | bars (100/110/90/100/100/4) and (100/120/80/115/90/13) condensed by 2 give open 100, high 120, low 80, close 115, Ref Price 95, volume 17 |
| Markets.ShortChunkRefPrice | quant/markets.py:145 | a short last chunk's Ref Price is still divided by the full factor |
| Markets.SymbolData.constructor | quant/markets.py:82-89 | the symbol upper-cased, no dates, empty columns |
| Markets.SymbolData.Length | quant/markets.py:115-116 | the number of dates, which every column holds |
| Markets.SymbolData.AppendBar | src/markets.py:77-91 | one more date and one more value per column, length up by one |
| Markets.SymbolData.TickBarAt | quant/markets.py:100-107 | bar i rebuilt from the columns (negative i from the end), IndexError outside |
| Markets.SymbolData.Condense | quant/markets.py:128-151 | ZeroDivisionError for factor 0; no bars for a negative factor; otherwise the chunked dates and columns, ceil(n / f) of them |
| Markets.CondenseColumns | quant/markets.py:129-147 | the loop builds exactly the chunked dates (last date of each chunk) and aggregated columns |
| Markets.ItemsOf | quant/markets.py:175-176 | the (symbol, bar) pairs in key order |
| Markets.WatchList.Get | quant/markets.py:166-167 | the stored bar, KeyError for an unknown symbol |
| Markets.WatchList.constructor | quant/markets.py:159-161 | an empty `last_price` dictionary and no symbols |
| Markets.WatchList.Items | quant/markets.py:175-176 | one pair per symbol in insertion order |
| Markets.WatchList.LastClose | quant/markets.py:178-179 | the stored bar's close exactly when the symbol is watched, and otherwise an error of kind KeyError |
| Markets.WatchList.Set | quant/markets.py:163-164 | the bar is overwritten, `last_close` returns its close, other symbols untouched, a new symbol last in key order |
| Markets.WatchList.OnTick | quant/markets.py:161 | a tick stores its bar under its own symbol |
| Markets.WatchList.AddSymbol | quant/markets.py:184-189 | an absent upper-cased symbol gets a volume-0 bar priced at `price`; an existing entry is unchanged |
| SrcSymbols.FiveColumns.Push | src/symbols.py:25-30 | every one of the five columns grows by one |
| SrcSymbols.PushStoresRow | src/symbols.py:25-30 | the given values land at the new index, earlier rows kept |
| SrcSymbols.SymbolData.constructor | src/symbols.py:14-21 | the symbol upper-cased, no dates, five empty columns |
| SrcSymbols.SymbolData.AppendBar | src/symbols.py:23-30 | one more date and one more value in each column, as given |
| Misc.Pairs.Assign | quant/util/misc.py:13-15 | both dictionaries gain the entry, nothing else changes |
| Misc.Pairs.Lookup | quant/util/misc.py:17-18 | the forward value `forward[k]` when the key is present, KeyError when absent |
| Misc.AssignThenLookup | quant/util/misc.py:13-21 | after `b[k] = v`: `b[k] == v`, `k in b`, and `reverse[v] == k` |
| Misc.AssignKeepsOthers | quant/util/misc.py:13-21 | an assignment leaves other keys' lookups and membership alone |
| Misc.OverwriteLeavesStaleReverse | quant/util/misc.py:13-15 | overwriting k keeps its old value's reverse entry |
| Misc.HasIgnoresReverse | quant/util/misc.py:20-21 | membership and lookup ignore the reverse dictionary |
| Misc.Bidict.Set | quant/util/misc.py:13-15 | the new state is the assignment of the old one |
| Misc.Bidict.constructor | quant/util/misc.py:9-11 | empty forward and reverse dictionaries |
| Misc.Bidict.Get | src/util/misc.py:15-16 | the forward value, KeyError when absent |
| Misc.Bidict.Contains | src/util/bidict.py:14-15 | the forward keys only |
| Ibkr.ToOrderStatus | quant/ibkr.py:339-350 | the server never maps to UNPOSTED or PARTIALLY_FILLED |
| Ibkr.ToOrderStatusTable | quant/ibkr.py:339-350 | the nine known strings map as tabled and exactly the other strings give UNKNOWN |
| Ibkr.BarSize | quant/ibkr.py:285-294 | a bar size for every resolution but TICK, which raises KeyError |
| Ibkr.BarSizeInjective | quant/ibkr.py:287-293 | distinct resolutions have distinct bar sizes |
| Markets.ResolutionSeconds | quant/markets.py:14-20 | the resolutions' lengths in seconds are pairwise distinct, so no enumeration member is an alias, and only TICK has length 0 |
| Ibkr.BarSizeForLength | quant/ibkr.py:285-294 | `bar_size` has an entry exactly for the resolutions of positive length |
| Ibkr.StockContract | quant/ibkr.py:303-309 | the symbol in USD |
| Ibkr.CryptoContract | quant/ibkr.py:312-318 | the symbol in USD |
| Ibkr.ForexContract | quant/ibkr.py:321-327 | the symbol in USD |
| Ibkr.ContractFor | quant/ibkr.py:297-300 | crypto first (CRYPTO/PAXOS), then forex (CASH/IDEALPRO), else STK/SMART, always USD |
| Ibkr.ContractExamples | quant/ibkr.py:297-327 | btc is CRYPTO, EUR is CASH, AAPL is STK/SMART/USD |
| Ibkr.WhatToShow | quant/ibkr.py:154 | MIDPOINT exactly for forex symbols |
| Ibkr.TimeSpanBounds | quant/ibkr.py:330-333 | a span across days asks for between 1 and ceil(span / day) days |
| Ibkr.ToTimeString | quant/ibkr.py:330-336 | the duration chosen: trading days when there are any, else total days, when the span crosses days; seconds otherwise |
| Ibkr.IbOrderFor | quant/ibkr.py:124-131 | a market order, BUY for LONG and SELL otherwise, cash quantity for crypto and total quantity otherwise |
| Ibkr.IbOrderForReverse | quant/ibkr.py:126-131 | reversing the position flips the action and keeps the quantities |
| Ibkr.CancelRequestsAppend | quant/ibkr.py:52-56 | the cancels of two lists are the cancels of each |
| Ibkr.CancelRequests | quant/ibkr.py:52-56 | at most one cancel per order of the book |
| Ibkr.CancelsFor | quant/ibkr.py:52-56 | one cancel per order, in order, carrying its id |
| Ibkr.CancelRequestsSelect | quant/ibkr.py:52-56 | the cancels sent are those of the cancellable orders, one each, in book order |
| Ibkr.CancelRequestsExact | quant/ibkr.py:53-56 | a cancel is sent for an id exactly when some cancellable order carries it |
| Ibkr.LegacyCloseOutcome | quant/ibkr.py:403-407 | the older channel close succeeds only with a waiter and a registered key; without a waiter it raises AttributeError |
| Ibkr.LegacyUnsubscribeFails | quant/ibkr.py:156-164 | every subscription channel has no waiter, so the older close always raises |
| Ibkr.IBApi.constructor | quant/ibkr.py:87-94 | counter 0, no thread, no listeners or subscriptions, a registry at base 1000 |
| Ibkr.IBApi.NextOrderId | quant/ibkr.py:199-201 | the counter moves up by one and the new value is returned |
| Ibkr.IBApi.NextValidId | quant/ibkr.py:249-253 | the counter is reset to n, so the next id issued is n + 1, and the thread counts as running |
| Ibkr.IBApi.PlaceOrder | quant/ibkr.py:123-137 | a PENDING order with the fresh id, its listener registered under that id, the request sent with the contract and order for the position |
| Ibkr.IBApi.OpenSubscription | quant/ibkr.py:146-149 | the next channel, with the tick-bar callback last and the symbol as metadata, becomes the symbol's subscription; nothing else changes |
| Ibkr.IBApi.SubscribeRealtime | quant/ibkr.py:139-156 | ValueError when already subscribed; otherwise a fresh channel with the symbol as metadata and the tick callback, and a 5-second bar request for it |
| Ibkr.IBApi.UnsubscribeRealtime | quant/ibkr.py:158-164 | ValueError when not subscribed; otherwise the cancel request and the channel close; the subscription stays |
| Ibkr.InteractiveBroker.constructor | quant/ibkr.py:42-44 | an empty book over the watch list and the API |
| Ibkr.InteractiveBroker.PlaceOrder | quant/ibkr.py:58-61 | the API's fresh PENDING order is appended to the book |
| Ibkr.InteractiveBroker.OnOrderStatus | quant/ibkr.py:63-74 | for a known id only that slot is replaced by the updated snapshot and one event is emitted; for an unknown id nothing changes |
| Ibkr.InteractiveBroker.CancelPendingOrders | quant/ibkr.py:52-56 | one cancel request per cancellable order; the book is untouched |
| Trader.AnyQuantityAsWritten | quant/trader.py:113 | the written scan raises AttributeError on the int 0 and answers true only for a non-zero position |
| Trader.AnyNonZero | quant/trader.py:113 | true exactly when some position has a non-zero quantity, the int 0 counting as 0 |
| Trader.AnyQuantityAgrees | quant/trader.py:113 | wherever the written scan answers, it agrees with the corrected one |
| Trader.AnyQuantityBeforeFill | quant/trader.py:113 | right after opening, before the fill, the written check raises where no position is open |
| Trader.ReductionFor | quant/trader.py:66-77 | nothing without an open position or for quantity < 1; ValueError when the position is smaller; otherwise the reverse direction, same symbol, requested quantity |
| Trader.Trader.constructor | quant/trader.py:18-25 | the broker, zero previous prices, not open, not closed |
| Trader.Trader.HasOpenPositionAsWritten | quant/trader.py:110-113 | false unless open and not closed |
| Trader.Trader.HasOpenPosition | quant/trader.py:110-113 | false unless open and not closed; then whether some watched symbol's current position is non-zero |
| Trader.Trader.OpenPosition | quant/trader.py:30-37 | places the initial position once and sets `is_open`; a later call places nothing |
| Trader.Trader.OnBar | quant/trader.py:39-45 | records the bar's close and wap |
| Trader.Trader.FirstPosition | quant/trader.py:72 | `current_positions()[0]`: present exactly when a symbol is watched, and then the current position of the first watched symbol |
| Trader.OpenHasFirst | quant/trader.py:72 | under the corrected check an open position implies a watched symbol, so `current_positions()[0]` cannot raise IndexError |
| Trader.Trader.Plan | quant/trader.py:66-75 | the decision of `reduce_position` is the reduction decision on the open-position check, the requested quantity and the first position; a reduction is for the trader's symbol |
| Trader.Trader.Apply | quant/trader.py:66-77 | no reduction and a refused one queue nothing; a reduction is queued with the broker exactly when its symbol is watched, KeyError otherwise; no event is emitted |
| Trader.Trader.ReducePosition | quant/trader.py:66-77 | does what the reduction decision says: nothing, raise, or queue the reduce order; it uses the corrected open-position check of the quant/trader.py:113 finding, whereas the code as written raises AttributeError before the first fill |
| Trader.Trader.Shutdown | quant/trader.py:103-108 | without force and with an open position nothing happens; otherwise the broker is shut down and dropped; the open-position check is the corrected one of the quant/trader.py:113 finding, whereas the code as written raises AttributeError before the first fill |
| Trader.HasOpenPositionAgrees | quant/trader.py:110-113 | the written check, where it answers, agrees with the corrected one |

Some specification functions carry no contract of their own; the lemmas in the table state their properties:
- Broker.IsCancellable: FakeBroker.CancelLeavesNoneCancellable and Ibkr.CancelRequestsExact.
- Broker.POrL: Broker.POrLSign and Broker.POrLReverse.
- Broker.CombinedPOrL: Broker.CombinedPOrLAppend and Broker.CombinedIgnoresUnposted.
- Broker.BookPOrL: Broker.BookPOrLFill and Broker.CurrentPositionIgnores.
- Broker.SumPositions: Broker.SumOfSameSymbol and Broker.SumOfOneShort.
- Broker.WatchedPOrL: Broker.BrokerPOrL and Broker.WatchedPOrLAppend.
- Broker.OrderBook.Length: it is `len(book)`, the length of the list, and Broker.UpdatesBounded states that the index stays within it.
- FakeBroker.NextStatus: FakeBroker.Advance and FakeBroker.ThreePassesFill.
- FakeBroker.UpdateFrom: FakeBroker.UpdateFromStep, FakeBroker.UpdateFromShape and FakeBroker.UpdateFromAdvances.
- FakeBroker.CancelFrom: FakeBroker.CancelFromEffect and FakeBroker.CancelLeavesNoneCancellable.
- TimeUtil.SpansDays: TimeUtil.SpansDaysFacts.
- TimeUtil.Waiter.StillWaiting and TimeUtil.Waiter.Expired: TimeUtil.WaiterStates and TimeUtil.WaiterDeadline.
- SrcTimeUtil.Waiter.StillWaiting: SrcTimeUtil.StillWaitingCases.
- Trader.Trader.IsActive: Trader.Trader.Shutdown.
- Ibkr.TimeSpan: Ibkr.TimeSpanBounds and Ibkr.ToTimeString.
- Channel.Settled: Channel.SettledIsFirst and Channel.SettledSnoc.
- Markets.Chunked: Markets.ChunkedLength and Markets.ChunkedAt.
- Markets.CondensedColumns and Markets.CondensedDates: Markets.CondensedUniform and Markets.CondenseColumns.
- Markets.ChunkBar: Markets.CondenseColumns, whose loop appends each chunk's bar and is proved to build the chunked columns; Markets.CondenseTestCase and Markets.ShortChunkRefPrice check its values.
- Events.Live and Events.IsCondemned: Events.DeliveredMembers and Events.EmitKeepsUncondemned.
- Markets.Resolution.Seconds: Markets.ResolutionSeconds and Ibkr.BarSizeForLength.

## Left out

- The transport is left out. The Interactive Brokers client and its callbacks, connection and threads are foreign code; each request the model sends to the server is an entry in the `requests` log.
- Threads, queues with timeouts and the busy-wait of `call` are left out. `Worker.run` is one loop iteration. A blocking `call` is given the data that arrives while it polls and how the wait ended (closed with optional final data, or timed out). Interleavings with other threads beyond that arrival order are not modelled, nor is data arriving during a `call` with max_wait 0.
- Garbage collection is left out. Whether a weak reference's referent is still alive is a parameter of `emit`.
- Handler side effects are left out. An observer's call is a log entry and its return is a parameter. An observer registered while an emit is running is not modelled.
- Events.Observers.Emit and SrcEvents.Observers.Emit build the shrunken list during the walk and store it when the walk ends. The source stores it at each removal. The two agree because no observer reads or changes the table during the walk here.
- pandas, `data_frame`, `tick_bars` and loading `SymbolData` from a frame are left out.
- Floating point is left out: prices are exact, with no '%.2f' rounding in `decimal()`.
- Timezones and `strftime` are left out: the calendar date is `t / 86400`.
- Negative indices in `OrderBook.__getitem__` and `OrderBook.__setitem__` are left out. Broker.OrderBook.Get and Broker.OrderBook.Set take a `nat` slot and raise IndexError outside the list.
- `Trader.status`, `close_position` and `await_open_orders` are left out. They are console output and a polling wait.
- Trader's observer registrations in `__init__` are left out, as is all console output.
- `IBApi.req_historical_data`, `get_scanner_tags`, `historicalData`, `realtimeBar`, `orderStatus`, `to_tick_bar` and `DataRequest` are left out. They are transport callbacks and date parsing.
- The `Timer` classes, `parse_date` and the trading-day file are left out; `is_trading_day` is a predicate parameter.
- Fractional fills and their warning in `on_order_status` are left out; the fill quantity is an int.
- Trader.Trader.ReducePosition: the broker is the fake broker, because one model of the abstract `Broker` base class would need a trait.
- Trader.Trader.ReducePosition and Trader.Trader.Shutdown use the corrected open-position check (Trader.AnyNonZero) of the quant/trader.py:113 finding. As written, both raise AttributeError when a watched symbol has no fill yet. Trader.Trader.HasOpenPositionAsWritten and Trader.AnyQuantityBeforeFill model that behaviour.
- FakeBroker.Worker.UpdateOrders: a KeyError partway through the pass is returned as an outcome after the earlier slots are updated. In the source it ends the worker's thread.
- Ibkr.IBApi.SubscribeRealtime: the older registry copy in quant/ibkr.py is modelled only for its close. Subscription bookkeeping uses the channel classes of quant/util/channel.py.
- Channel.CallChannel.Call: the action passed to `call` (a server request) is the caller's, and the wait's end is a parameter.
- Main-program and command-line handling is not part of this model.

## Findings

| source | as written | input that shows it | evidently intended | confidence | as-written member | corrected member |
|---|---|---|---|---|---|---|
| quant/ibkr.py:406 | the older `CallChannel.close` calls `self._waiter.done()` without checking for a waiter | `subscribe_realtime('AAPL')` then `unsubscribe_realtime('AAPL')`: the subscription called `call(subscribe, 0)`, so `_waiter` is None and the close raises AttributeError | release a waiter only when there is one, as quant/util/channel.py:74-75 does | not executed | Ibkr.LegacyUnsubscribeFails | Ibkr.IBApi.UnsubscribeRealtime |
| quant/trader.py:113 | `any(position.quantity for position in current_positions())` reads `.quantity` on each entry | open AAPL LONG 100, then ask before the fill: the watched symbol's position is the int 0 from `sum()`, so `has_open_position()` raises AttributeError (and so do `shutdown(force=True)` and `reduce_position`) | treat a symbol without fills as quantity 0, so the answer is False | not executed | Trader.AnyQuantityBeforeFill | Trader.AnyNonZero |
