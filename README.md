# Market message reconciler

A Dafny model of the message-reconciliation core of `Market` in the Digitex
bot framework (`digitex_bot_framework/market.py`). A market takes one decoded
exchange message at a time. The handler for the message's kind overwrites the
market's account figures (trader, position, order margins, last trade,
currency-pair prices), reconciles order reports against the live-order
registry, or merges order-book entries into the book. Every change asks for
an observer hook with `schedule_event`. When the handler returns, the pending
hooks are called once each, in the order they were first requested, and the
pending list is cleared.

The model has these modules:

- `Entities`: the records (orders, trader, position, margins, trades, book
  levels, currency pairs), the hooks a handler can schedule, and the decoded
  message kinds.
- `Events`: the pending hook list (`Scheduled`, `ScheduledAll`), and what
  calling a hook does (`EmitEvent`, and `EmitAll` for the flush loop). An
  observer hook is a function from hook to `NoValue | Coroutine | OtherValue`.
- `Books`: `populate_orderbook` as the method `PopulateOrderbook`, proved
  against the specification function `Merged`, with lemmas about merging.
- `Registry`: `handle_order` as the function `Reconcile`, and the loops over
  a message's order reports as `ReconcileAll`, with lemmas about status
  choice and registry membership.
- `Steps`: what one message does, as values. For each message kind a
  function gives the state and the pending hook list its handler leaves,
  and `Step` picks the one for the message's kind, as the dispatch in
  `handle_message` does.
- `Reconciler`: the class `Market`. Its fields are the state the handlers
  overwrite, and each handler is a method with a field frame. Each
  message handler's postcondition says that the new state and pending list
  are those its function in `Steps` gives; the smaller handlers state their
  new fields directly. The class invariant `Valid()` says:
  - the registry holds exactly the live orders, each under its own id;
  - both book sides are present or both absent, and every level is filed
    under its own price;
  - the market's own pair is known;
  - the pending hook list has no repetitions.

  Every handler keeps `Valid()`, and the pending list only grows at its
  end until the flush.

Aliasing is modelled by keys:

- Every currency-pair object the market can reach is kept in one map
  `pairs`, keyed by pair id.
- The market's own pair is `pairs[pairId]`.
- The bot's table of tracked pairs is the key set `tracked`.
- An exchange-rate message for the market's own pair therefore updates the
  same record that `handle_mark_price` updates.
- The hooks of the trader, the position, the registry's margins, the last
  trade and the book are taken to be five distinct callables, each a method
  of its own object (`TraderUpdated`, `PositionUpdated`, `MarginsUpdated`,
  `LastTradeUpdated`, `BookUpdated`). The code coalesces by callable
  equality, so one callback installed in two of these slots is called once
  per flush by the code but once per slot by the model.
- Each order object is told apart by a creation serial (`Order.serial`). Its
  hook is `OrderUpdated(serial)`. Two objects created for the same id are
  two different hooks, as two bound methods of different objects are in the
  code.

Three behaviours of the code are worth spelling out:

- **Zero quantity at an absent price.** A zero-quantity entry deletes the
  level at its price, so one might expect it to do nothing at a price with no
  level. `populate_orderbook` stores the zero entry at that price instead
  (`Books.ZeroAtAbsentPriceInserts`).
- **Order-filled messages.** They are dispatched to the order-status handler,
  so they have exactly the effect of an order-status message
  (`Steps.FilledReportIsStatusReport`). The separate order-filled handler is
  modelled, but nothing dispatches to it.
- **Two last-trade calls.** The incremental book handler calls the last-trade
  handler twice. The second call changes nothing and schedules nothing
  (`Events.ScheduleIdempotent`).

## Model

| member | source | states |
|---|---|---|
| Events.ScheduleKeepsNoDup | digitex_bot_framework/market.py:47-49 | scheduling keeps the pending list free of repetitions, only appends at its end, and afterwards holds exactly the old hooks and the new one |
| Events.ScheduleIdempotent | digitex_bot_framework/market.py:47-49 | scheduling a hook a second time leaves the list as after the first time |
| Events.ScheduledAllCoalesces | digitex_bot_framework/market.py:47-49 | after any sequence of requests, repeated or not, the list has no repetitions, extends the old list, and holds exactly the old hooks and the requested ones |
| Events.ScheduledAllSnoc | digitex_bot_framework/market.py:47-49 | one more request after a sequence of requests is scheduling it on the list those requests left |
| Events.ScheduledAllKeepsPending | digitex_bot_framework/market.py:47-49 | requesting only hooks that are already pending leaves the list unchanged |
| Events.SpawningExactlyCoroutines | digitex_bot_framework/market.py:51-58 | a task is spawned for a hook exactly when it was called and returned a coroutine, and at most one task per call |
| Events.EmitEvent | digitex_bot_framework/market.py:51-58 | no result means nothing more is done; a coroutine means a task is spawned; any other result is a type error; these three are exclusive |
| Events.EmitAll | digitex_bot_framework/market.py:84-85 | hooks are called in list order, each once. The flush completes, having called the whole list, exactly when no hook returns an unsupported value. Otherwise it stops at the first such hook, which is the last one called. The spawned tasks are exactly the called hooks that returned a coroutine |
| Books.PopulateOrderbook | digitex_bot_framework/market.py:224-230 | the loop leaves the side equal to `Merged(target, source)`: entries are applied from first to last |
| Books.MergedAppend | digitex_bot_framework/market.py:224-230 | merging a concatenation is merging the first part, then the second |
| Books.MergedLeavesOtherPrices | digitex_bot_framework/market.py:224-230 | a price no entry names keeps its level, or stays absent |
| Books.MergedKeepsPricesKeyed | digitex_bot_framework/market.py:224-230 | merging keeps every level filed under its own price |
| Books.MergedLastEntryDecides | digitex_bot_framework/market.py:224-230 | the last entry naming a price decides it. A zero quantity removes a level present just before it. Any other last entry leaves exactly that entry at the price |
| Books.FillThenEmptyRemoves | digitex_bot_framework/market.py:224-230 | a nonzero entry followed by a zero entry at the same price leaves that price absent |
| Books.ZeroAtAbsentPriceInserts | digitex_bot_framework/market.py:227-230 | a zero entry at an absent price is not a no-op: it stores the zero level |
| Books.SnapshotHoldsOnlyNamedPrices | digitex_bot_framework/market.py:232-240 | after merging into an empty side, every price present is named by some entry |
| Registry.ReconcileStatusPriority | digitex_bot_framework/market.py:113-121 | status priority: the report's own status first, then the forced status. A new order then gets PARTIAL when its original quantity differs from its quantity and ACCEPTED otherwise. A known order keeps its status |
| Registry.ReconcileOrderFields | digitex_bot_framework/market.py:103-124 | the returned flag is prior presence of the resolved id. A known order keeps its id, price, quantity and serial. A new one takes them from the report and the creation counter. A nonzero outer error code is attached, and otherwise the error code is left as it was |
| Registry.ReconcileMembership | digitex_bot_framework/market.py:108-132 | a known order that is no longer live is removed; a new live one is added; a new terminal one is never added; no other id is touched. Afterwards the id is registered exactly when the order is live, and then under that very order |
| Registry.ReconcileKeepsLiveRegistry | digitex_bot_framework/market.py:126-130 | reconciling keeps "the registry holds exactly live orders, each under its own id" |
| Registry.ReconcileTwiceIsOnce | digitex_bot_framework/market.py:103-132 | reconciling the same report twice leaves the registry, and the order's status, as after the first time |
| Registry.CancelRemovesKnownOrder | digitex_bot_framework/market.py:164-171 | a cancel report without its own status for a known order removes it, marks it CANCELED and keeps its price and quantity |
| Registry.FilledWriteBackKeepsLiveRegistry | digitex_bot_framework/market.py:148-152 | overwriting the quantity of a reconciled order that stayed registered keeps the registry invariant, and the order carries the id it is registered under |
| Registry.ReconcileAllKeepsInvariants | digitex_bot_framework/market.py:166-172 | over any list of order reports, the registry keeps holding exactly live orders. The pending list stays free of repetitions and only grows at its end. The creation counter never decreases |
| Reconciler.Market.constructor | digitex_bot_framework/market.py:20-38 | a new market has no orders, no last trade, no book sides and no pending hooks |
| Reconciler.Market.ScheduleEvent | digitex_bot_framework/market.py:47-49 | the pending list becomes `Scheduled(old, e)` and stays free of repetitions |
| Reconciler.Market.HandleMessage | digitex_bot_framework/market.py:60-86 | the state, and the list the flush runs over, are those `Step` gives for the message's kind. Every hook pending after dispatch is called once, in list order. A complete flush leaves the list empty. A hook returning an unsupported value ends the flush and leaves the list as it was. An unrecognised kind changes no state. Tasks are spawned exactly for coroutine results. The invariant is kept |
| Reconciler.Market.Dispatch | digitex_bot_framework/market.py:60-80 | the new state and pending list are those `Step` gives: each kind has its handler's effect, order-filled reports that of the order-status handler, and an unrecognised kind changes nothing. The invariant is kept and the pending list only grows |
| Steps.FilledReportIsStatusReport | digitex_bot_framework/market.py:72-75 | an order-filled message has exactly the effect of an order-status message with the same fields |
| Steps.TraderBalanceHooks | digitex_bot_framework/market.py:283-287 | a trader-balance message's hooks are the coalesced requests for trader, last trade, margins and position; when all four are pending it adds none |
| Reconciler.Market.HandleMarkPrice | digitex_bot_framework/market.py:88-90 | only the market's own pair's mark price changes; its hook is scheduled |
| Reconciler.Market.CreateOrderFromMessage | digitex_bot_framework/market.py:92-101 | a new order with the report's fields, status and error code unset, and the next serial |
| Reconciler.Market.HandleOrder | digitex_bot_framework/market.py:103-132 | the returned order and flag, the new registry and the creation counter are those of `Reconcile`, and the registry invariant is kept |
| Reconciler.Market.HandleOrders | digitex_bot_framework/market.py:166-172 | the loop over reports leaves registry, counter and pending list equal to `ReconcileAll` |
| Reconciler.Market.HandleOrderStatusMsg | digitex_bot_framework/market.py:135-142 | state and pending list become `OrderStatusStep`: the account figures are taken only when the outer error code is 0. The order is then reconciled without a forced status, and its hook is scheduled last |
| Reconciler.Market.HandleOrderFilledMessage | digitex_bot_framework/market.py:144-154 | position, balance and margins are taken. The reconciled order's quantity, registered object included, becomes original quantity minus quantity minus dropped quantity. Hooks are scheduled in that order |
| Reconciler.Market.HandleFilledOrder | digitex_bot_framework/market.py:148-154 | the registry after reconciling, with the registered order's quantity overwritten, and that order's hook scheduled |
| Reconciler.Market.HandleOrderCanceledMsg | digitex_bot_framework/market.py:156-172 | state and pending list become `OrderCanceledStep`: margins, mark price, balance and the position margin are taken. Each listed order is then reconciled with the message's status forced |
| Reconciler.Market.HandleOrderCanceledFigures | digitex_bot_framework/market.py:157-162 | margins, mark price, balance and position margin are overwritten, with their hooks in that order; nothing else changes |
| Reconciler.Market.HandleLeverageMsg | digitex_bot_framework/market.py:174-180 | state and pending list become `LeverageStep`: the leverage is applied (0 ignored), then balance, position, margins and last trade only when the outer error code is 0 |
| Reconciler.Market.HandleLastTrade | digitex_bot_framework/market.py:182-189 | the last trade becomes the report's price, quantity and time, whether or not there was one; its hook is scheduled |
| Reconciler.Market.HandlePosition | digitex_bot_framework/market.py:191-199 | all six position figures are overwritten; the position hook is scheduled |
| Reconciler.Market.HandleOrderMargin | digitex_bot_framework/market.py:201-207 | the three registry margin figures are overwritten; the margins hook is scheduled |
| Reconciler.Market.HandleLeverage | digitex_bot_framework/market.py:209-215 | a leverage of 0 changes nothing and schedules nothing; any other value sets the trader's leverage and schedules the trader hook |
| Reconciler.Market.HandleBalance | digitex_bot_framework/market.py:217-222 | balance, unrealised and realised P&L are overwritten, the leverage is kept; the trader hook is scheduled |
| Reconciler.Market.HandleOrderBookMsg | digitex_bot_framework/market.py:232-244 | state and pending list become `BookSnapshotStep`: both sides become the merge of the message's entries into empty sides, whether or not a book existed. Then last trade, mark price and the book hook follow |
| Reconciler.Market.ReplaceBook | digitex_bot_framework/market.py:233-240 | both sides become the merge of the given entries into empty sides, whether or not a book existed, and the invariant is kept |
| Reconciler.Market.HandleOrderBookUpdatedMsg | digitex_bot_framework/market.py:246-255 | state and pending list become `BookUpdateStep`: with a book present, both sides are merged with the updates and the book hook is scheduled. Without one, the sides stay absent, no book hook is scheduled and exactly one snapshot is requested. The last trade is set either way |
| Reconciler.Market.HandleExchangeRateMsg | digitex_bot_framework/market.py:257-269 | state and pending list become `ExchangeRateStep`: an untracked pair id changes nothing. Otherwise that pair's mark, sell and buy prices and its reliability flag are overwritten, and its hook is scheduled |
| Reconciler.Market.HandleTraderStatusMsg | digitex_bot_framework/market.py:271-281 | state and pending list become `TraderStatusStep`: the account figures, then every listed order reconciled without an outer message or forced status, in list order |
| Reconciler.Market.HandleTraderStatusFigures | digitex_bot_framework/market.py:272-277 | balance, mark price, last trade, margins, position and leverage (0 ignored), with their hooks in that order |
| Reconciler.Market.HandleTraderBalanceMsg | digitex_bot_framework/market.py:283-287 | state and pending list become `TraderBalanceStep`: balance, last trade, margins and position, with their hooks in that order |

## Left out

- Reconciler.Market.HandleMessage: an observer hook is a pure function of the hook. A hook that changes the market, or schedules further hooks while the list is being flushed, is not modelled. The Python exception a hook's unsupported result raises is modelled as the outcome `UnsupportedReturnType`.
- `asyncio.create_task` and the order-book request to the exchange client are concurrency and network I/O. They are recorded in the logs `tasks` and `snapshotRequests`.
- `decimal_from_proto`, `datetime_from_proto`, the `from_proto` converters and `uuid.UUID(bytes=...)` are treated as already applied. A message carries decoded values, ids are opaque byte strings, and decimals are exact reals.
- An id that does not decode is not modelled. When an order report has an empty `orig_client_id` and the outer message's `client_id` is not 16 bytes, `uuid.UUID(bytes=...)` raises in the code. The model files the order under the raw bytes instead.
- The market id is left out. The code uses it only in the order-book request to the exchange client, which the model records as a count.
- The order status, side, type, duration and position-type enumerations come from a module that is not part of this model. Side, type, duration and position type are integers. The statuses are five named values, of which ACCEPTED and PARTIAL are the live ones.
- The internals of `Trader`, `Orders`, `Order`, `Trade`, `OrderBook` and `OrderBookEntry` are not part of this model. The order registry is a map from id to order, and the other records hold only the fields the handlers write.
- `rounded_spot_price` depends on `round_price`, which is not part of this model.
- The market table and the `by_id`, `by_name` and `by_code` dictionaries are static data built at import time, and so are the currency-pair constants.
- A currency pair is a record. Its `on_update` does nothing, so its hook is an opaque `PairUpdated(id)`.
- Pair-object identity is modelled by pair id. Two things are assumed: the market's own pair object and the bot's table entry with the same id are one object, and the market's own pair id is known.
- Reconciler.Market.HandleTraderStatusMsg: requires every order report to carry `orig_client_id`. Without an outer message the code has no other id to use and would fail.
