/**
 * `Market`: one market's view of the account, updated in place by one
 * decoded inbound message at a time. Each handler overwrites fields and asks
 * for observer hooks; `HandleMessage` dispatches on the message kind and
 * then fires the pending hooks.
 */
module Reconciler {
  import opened Wrappers
  import opened Entities
  import opened Events
  import opened Books
  import opened Registry
  import opened Steps

  class Market {
    /** The id of this market's currency pair. */
    const pairId: PairId
    /** The ids of the pairs the bot tracks (the keys of its pair table). */
    const tracked: set<PairId>

    var trader: Trader
    var position: Position
    /** The live-order registry. */
    var orders: Orders
    /** The registry's margin figures. */
    var margins: Margins
    /** How many order objects have been created (their serials). */
    var ordersCreated: nat
    var lastTrade: Option<Trade>
    /** The book sides; `None` until the first snapshot. */
    var bids: Option<Side>
    var asks: Option<Side>
    /** Every currency-pair object this market can reach, by id. */
    var pairs: map<PairId, CurrencyPair>
    var scheduledEvents: seq<Event>
    /** The hooks called so far, in order. */
    var calls: seq<Event>
    /** The hooks whose coroutine was handed to the task scheduler. */
    var tasks: seq<Event>
    /** How many fresh snapshots were requested. */
    var snapshotRequests: nat

    ghost predicate Valid()
      reads this
    {
      && LiveRegistry(orders)
      && (bids.Some? <==> asks.Some?)
      && (bids.Some? ==> PricesKeyed(bids.value))
      && (asks.Some? ==> PricesKeyed(asks.value))
      && pairId in pairs
      && tracked <= pairs.Keys
      && NoDup(scheduledEvents)
    }

    ghost function State(): View
      reads this
    {
      View(trader, position, orders, margins, ordersCreated, lastTrade, bids, asks, pairs, snapshotRequests)
    }

    constructor (pairs: map<PairId, CurrencyPair>, pairId: PairId, tracked: set<PairId>,
                 trader: Trader, position: Position, margins: Margins)
      requires pairId in pairs && tracked <= pairs.Keys
      ensures Valid()
      ensures this.pairs == pairs && this.pairId == pairId && this.tracked == tracked
      ensures this.trader == trader && this.position == position && this.margins == margins
      ensures orders == map[] && ordersCreated == 0 && lastTrade.None? && bids.None? && asks.None?
      ensures scheduledEvents == [] && calls == [] && tasks == [] && snapshotRequests == 0
    {
      this.pairId := pairId;
      this.tracked := tracked;
      this.trader := trader;
      this.position := position;
      this.margins := margins;
      this.pairs := pairs;
      orders := map[];
      ordersCreated := 0;
      lastTrade := None;
      bids := None;
      asks := None;
      scheduledEvents := [];
      calls := [];
      tasks := [];
      snapshotRequests := 0;
    }

    /** `schedule_event`: append the hook unless it is already pending. */
    method ScheduleEvent(e: Event)
      requires Valid()
      modifies this`scheduledEvents
      ensures Valid() && old(scheduledEvents) <= scheduledEvents
      ensures scheduledEvents == Scheduled(old(scheduledEvents), e)
    {
      ScheduleKeepsNoDup(scheduledEvents, e);
      if e !in scheduledEvents {
        scheduledEvents := scheduledEvents + [e];
      }
    }

    /**
     * `handle_message`: run the handler for the message's kind (an
     * unrecognised kind changes nothing), then call every pending hook once
     * in the order it was first requested. The list is cleared after a
     * complete flush; a hook returning an unsupported value raises, which
     * ends the flush there and leaves the list as it was.
     */
    method HandleMessage(msg: Envelope, observe: Event -> CallbackResult)
      returns (outcome: Outcome, ghost flushed: seq<Event>)
      requires Valid()
      requires OrderIdsResolvable(msg)
      modifies this
      ensures Valid()
      ensures NoDup(flushed) && old(scheduledEvents) <= flushed
      ensures (State(), flushed) == Step(pairId, tracked, old(State()), old(scheduledEvents), msg)
      ensures msg.content.Unrecognised? ==> State() == old(State()) && flushed == old(scheduledEvents)
      ensures old(calls) <= calls
      ensures var emitted := calls[|old(calls)|..];
              && emitted <= flushed
              && tasks == old(tasks) + Spawning(emitted, observe)
              && (forall i :: 0 <= i < |emitted| - 1 ==> observe(emitted[i]) != OtherValue)
      ensures outcome == Handled <==> forall i :: 0 <= i < |flushed| ==> observe(flushed[i]) != OtherValue
      ensures outcome == Handled ==> calls == old(calls) + flushed && scheduledEvents == []
      ensures outcome.UnsupportedReturnType? ==>
                && scheduledEvents == flushed
                && |calls| > |old(calls)|
                && calls[|calls| - 1] == outcome.event
                && observe(outcome.event) == OtherValue
    {
      Dispatch(msg);
      flushed := scheduledEvents;
      var called, spawned;
      called, spawned, outcome := EmitAll(scheduledEvents, observe);
      calls := calls + called;
      tasks := tasks + spawned;
      assert calls[|old(calls)|..] == called;
      if outcome == Handled {
        scheduledEvents := [];
      }
    }

    /** The dispatch on the message kind that starts `handle_message`; an
        unrecognised kind changes nothing. */
    method Dispatch(msg: Envelope)
      requires Valid()
      requires OrderIdsResolvable(msg)
      modifies this`trader, this`position, this`orders, this`margins, this`ordersCreated, this`lastTrade,
               this`bids, this`asks, this`pairs, this`scheduledEvents, this`snapshotRequests
      ensures Valid()
      ensures old(scheduledEvents) <= scheduledEvents
      ensures (State(), scheduledEvents) == Step(pairId, tracked, old(State()), old(scheduledEvents), msg)
    {
      match msg.content {
      case TraderStatus(m) => HandleTraderStatusMsg(m);
      case TraderBalance(m) => HandleTraderBalanceMsg(m);
      case ExchangeRate(m) => HandleExchangeRateMsg(m);
      case BookSnapshot(m) => HandleOrderBookMsg(m);
      case BookUpdate(m) => HandleOrderBookUpdatedMsg(m);
      case OrderStatusReport(m) => HandleOrderStatusMsg(m, msg);
      // Order-filled reports go to the status handler, not to HandleOrderFilledMessage.
      case OrderFilledReport(m) => HandleOrderStatusMsg(m, msg);
      case OrderCanceledReport(m) => HandleOrderCanceledMsg(m, msg);
      case LeverageReport(m) => HandleLeverageMsg(m, msg);
      case Unrecognised(_) =>
      }
    }

    /** `handle_mark_price`: overwrite this market's pair's mark price. */
    method HandleMarkPrice(markPrice: Decimal)
      requires Valid()
      modifies this`pairs, this`scheduledEvents
      ensures Valid()
      ensures old(scheduledEvents) <= scheduledEvents
      ensures pairs == WithMarkPrice(old(pairs), pairId, markPrice)
      ensures scheduledEvents == Scheduled(old(scheduledEvents), PairUpdated(pairId))
    {
      pairs := pairs[pairId := pairs[pairId].(markPrice := Some(markPrice))];
      ScheduleEvent(PairUpdated(pairId));
    }

    /** `create_order_from_message`: a new order object for `id`. */
    method CreateOrderFromMessage(report: OrderReport, id: Id) returns (order: Order)
      modifies this`ordersCreated
      ensures order == NewOrder(report, id, old(ordersCreated))
      ensures ordersCreated == old(ordersCreated) + 1
    {
      order := Order(ordersCreated, id, report.price, report.quantity, report.side,
                     report.orderType, report.duration, None, None);
      ordersCreated := ordersCreated + 1;
    }

    /**
     * `handle_order`: resolve the id, find or create the order, choose its
     * status, attach a nonzero outer error code and keep the registry
     * holding exactly the live orders.
     */
    method HandleOrder(report: OrderReport, outer: Option<Envelope>, forced: Option<OrderStatus>)
      returns (order: Order, seen: bool)
      requires Valid()
      requires IdResolvable(report, outer)
      modifies this`orders, this`ordersCreated
      ensures Valid()
      ensures var r := Reconcile(old(orders), report, outer, forced, old(ordersCreated));
              order == r.order && seen == r.seen && orders == r.registry && ordersCreated == r.created
    {
      ReconcileKeepsLiveRegistry(orders, report, outer, forced, ordersCreated);
      var id: Id;
      if |report.origClientId| > 0 {
        id := report.origClientId;
      } else {
        id := outer.value.clientId;
      }
      seen := id in orders;
      if seen {
        order := orders[id];
      } else {
        order := CreateOrderFromMessage(report, id);
      }

      if report.status.Some? {
        order := order.(status := report.status);
      } else if forced.Some? {
        order := order.(status := forced);
      } else if !seen {
        if report.origQuantity != order.quantity {
          order := order.(status := Some(Partial));
        } else {
          order := order.(status := Some(Accepted));
        }
      }

      if outer.Some? && outer.value.errorCode != 0 {
        order := order.(errorCode := Some(outer.value.errorCode));
      }

      if seen && !IsLive(order.status) {
        orders := orders - {id};
      } else if !seen && IsLive(order.status) {
        orders := orders[id := order];
      } else if seen {
        // The code updated the registered object in place.
        orders := orders[id := order];
      }
    }

    /** Reconcile each report in turn and schedule its order's hook. */
    method HandleOrders(reports: seq<OrderReport>, outer: Option<Envelope>, forced: Option<OrderStatus>)
      requires Valid()
      requires forall i :: 0 <= i < |reports| ==> IdResolvable(reports[i], outer)
      modifies this`orders, this`ordersCreated, this`scheduledEvents
      ensures Valid()
      ensures old(scheduledEvents) <= scheduledEvents
      ensures Batch(orders, ordersCreated, scheduledEvents)
              == ReconcileAll(old(Batch(orders, ordersCreated, scheduledEvents)), reports, outer, forced)
    {
      ghost var start := Batch(orders, ordersCreated, scheduledEvents);
      for i := 0 to |reports|
        invariant Valid()
        invariant start.pending <= scheduledEvents
        invariant Batch(orders, ordersCreated, scheduledEvents) == ReconcileAll(start, reports[..i], outer, forced)
      {
        assert reports[..i + 1][..i] == reports[..i];
        var order, seen := HandleOrder(reports[i], outer, forced);
        ScheduleEvent(OrderUpdated(order.serial));
      }
      assert reports[..|reports|] == reports;
    }

    /** `handle_order_status_msg` (also reached by order-filled reports). */
    method HandleOrderStatusMsg(msg: OrderStatusMsg, outer: Envelope)
      requires Valid()
      modifies this`trader, this`position, this`margins, this`orders, this`ordersCreated, this`scheduledEvents
      ensures Valid()
      ensures old(scheduledEvents) <= scheduledEvents
      ensures (State(), scheduledEvents) == OrderStatusStep(old(State()), old(scheduledEvents), msg, outer)
    {
      if outer.errorCode == 0 {
        HandleBalance(msg.balance);
        HandlePosition(msg.position);
        HandleOrderMargin(msg.margins);
      }
      var order, seen := HandleOrder(msg.order, Some(outer), None);
      ScheduleEvent(OrderUpdated(order.serial));
    }

    /**
     * `handle_order_filled_message`. No message kind is dispatched here: it
     * models code the dispatcher never reaches. After the account figures,
     * the order's quantity is set to the report's original quantity minus
     * its quantity minus its dropped quantity.
     */
    method HandleOrderFilledMessage(msg: OrderStatusMsg, outer: Envelope)
      requires Valid()
      modifies this`trader, this`position, this`margins, this`orders, this`ordersCreated, this`scheduledEvents
      ensures Valid()
      ensures old(scheduledEvents) <= scheduledEvents
      ensures trader == WithBalance(old(trader), msg.balance) && position == PositionOf(msg.position)
              && margins == MarginsOf(msg.margins)
      ensures var r := Reconcile(old(orders), msg.order, Some(outer), None, old(ordersCreated));
              var filled := msg.order.origQuantity - msg.order.quantity - msg.order.droppedQuantity;
              var id := OrderId(msg.order, Some(outer));
              && orders == (if id in r.registry then r.registry[id := r.order.(quantity := filled)] else r.registry)
              && ordersCreated == r.created
              && scheduledEvents == Scheduled(Scheduled(Scheduled(Scheduled(old(scheduledEvents),
                   PositionUpdated), TraderUpdated), MarginsUpdated), OrderUpdated(r.order.serial))
    {
      HandlePosition(msg.position);
      HandleBalance(msg.balance);
      HandleOrderMargin(msg.margins);
      HandleFilledOrder(msg.order, outer);
    }

    /** The order part of `handle_order_filled_message`: reconcile the
        order, overwrite its quantity (the registered object too) and
        schedule its hook. */
    method HandleFilledOrder(report: OrderReport, outer: Envelope)
      requires Valid()
      modifies this`orders, this`ordersCreated, this`scheduledEvents
      ensures Valid()
      ensures old(scheduledEvents) <= scheduledEvents
      ensures var r := Reconcile(old(orders), report, Some(outer), None, old(ordersCreated));
              var filled := report.origQuantity - report.quantity - report.droppedQuantity;
              var id := OrderId(report, Some(outer));
              && orders == (if id in r.registry then r.registry[id := r.order.(quantity := filled)] else r.registry)
              && ordersCreated == r.created
              && scheduledEvents == Scheduled(old(scheduledEvents), OrderUpdated(r.order.serial))
    {
      FilledWriteBackKeepsLiveRegistry(orders, report, outer, ordersCreated,
                                       report.origQuantity - report.quantity - report.droppedQuantity);
      var order, seen := HandleOrder(report, Some(outer), None);
      order := order.(quantity := report.origQuantity);
      order := order.(quantity := order.quantity - report.quantity);
      order := order.(quantity := order.quantity - report.droppedQuantity);
      if order.id in orders {
        // The registered object is the one whose quantity was just set.
        orders := orders[order.id := order];
      }
      ScheduleEvent(OrderUpdated(order.serial));
    }

    /** `handle_order_canceled_msg`: every listed order is reconciled with
        the message's status forced on it. */
    method HandleOrderCanceledMsg(msg: OrderCanceledMsg, outer: Envelope)
      requires Valid()
      modifies this`trader, this`position, this`margins, this`pairs, this`orders, this`ordersCreated,
               this`scheduledEvents
      ensures Valid()
      ensures old(scheduledEvents) <= scheduledEvents
      ensures (State(), scheduledEvents) == OrderCanceledStep(pairId, old(State()), old(scheduledEvents), msg, outer)
    {
      HandleOrderCanceledFigures(msg);
      var status := msg.status;
      HandleOrders(msg.orders, Some(outer), Some(status));
    }

    /** The account part of `handle_order_canceled_msg`, before its loop
        over the orders. */
    method HandleOrderCanceledFigures(msg: OrderCanceledMsg)
      requires Valid()
      modifies this`trader, this`position, this`margins, this`pairs, this`scheduledEvents
      ensures Valid()
      ensures old(scheduledEvents) <= scheduledEvents
      ensures margins == MarginsOf(msg.margins)
      ensures pairs == WithMarkPrice(old(pairs), pairId, msg.markPrice)
      ensures trader == WithBalance(old(trader), msg.balance)
      ensures position == old(position).(margin := msg.positionMargin)
      ensures scheduledEvents == Scheduled(Scheduled(Scheduled(Scheduled(old(scheduledEvents),
                MarginsUpdated), PairUpdated(pairId)), TraderUpdated), PositionUpdated)
    {
      HandleOrderMargin(msg.margins);
      HandleMarkPrice(msg.markPrice);
      HandleBalance(msg.balance);
      position := position.(margin := msg.positionMargin);
      ScheduleEvent(PositionUpdated);
    }

    /** `handle_leverage_msg`: the leverage, then the account figures when
        the outer message reports no error. */
    method HandleLeverageMsg(msg: LeverageMsg, outer: Envelope)
      requires Valid()
      modifies this`trader, this`position, this`margins, this`lastTrade, this`scheduledEvents
      ensures Valid()
      ensures old(scheduledEvents) <= scheduledEvents
      ensures (State(), scheduledEvents) == LeverageStep(old(State()), old(scheduledEvents), msg, outer)
    {
      HandleLeverage(msg.leverage);
      if outer.errorCode == 0 {
        HandleBalance(msg.balance);
        HandlePosition(msg.position);
        HandleOrderMargin(msg.margins);
        HandleLastTrade(msg.trade);
      }
    }

    /** `handle_last_trade`: the last trade is overwritten as a whole (it is
        created first when there is none yet). */
    method HandleLastTrade(t: TradeReport)
      requires Valid()
      modifies this`lastTrade, this`scheduledEvents
      ensures Valid()
      ensures old(scheduledEvents) <= scheduledEvents
      ensures lastTrade == Some(TradeOf(t))
      ensures scheduledEvents == Scheduled(old(scheduledEvents), LastTradeUpdated)
    {
      if lastTrade.None? {
        lastTrade := Some(Trade(t.price, t.quantity, t.timestamp));
      } else {
        lastTrade := Some(lastTrade.value.(price := t.price, quantity := t.quantity, time := t.timestamp));
      }
      ScheduleEvent(LastTradeUpdated);
    }

    /** `handle_position`: all six position figures are overwritten. */
    method HandlePosition(p: PositionReport)
      requires Valid()
      modifies this`position, this`scheduledEvents
      ensures Valid()
      ensures old(scheduledEvents) <= scheduledEvents
      ensures position == PositionOf(p)
      ensures scheduledEvents == Scheduled(old(scheduledEvents), PositionUpdated)
    {
      position := position.(contracts := p.contracts, volume := p.volume,
                            liquidationVolume := p.liquidationVolume, bankruptcyVolume := p.bankruptcyVolume,
                            positionType := p.positionType, margin := p.margin);
      ScheduleEvent(PositionUpdated);
    }

    /** `handle_order_margin`: the registry's three margin figures. */
    method HandleOrderMargin(m: MarginReport)
      requires Valid()
      modifies this`margins, this`scheduledEvents
      ensures Valid()
      ensures old(scheduledEvents) <= scheduledEvents
      ensures margins == MarginsOf(m)
      ensures scheduledEvents == Scheduled(old(scheduledEvents), MarginsUpdated)
    {
      margins := margins.(margin := m.orderMargin, buyMargin := m.buyOrderMargin, sellMargin := m.sellOrderMargin);
      ScheduleEvent(MarginsUpdated);
    }

    /** `handle_leverage`: a reported leverage of 0 means "unset" and is ignored. */
    method HandleLeverage(leverage: int)
      requires Valid()
      modifies this`trader, this`scheduledEvents
      ensures Valid()
      ensures old(scheduledEvents) <= scheduledEvents
      ensures trader == if leverage == 0 then old(trader) else old(trader).(leverage := leverage)
      ensures scheduledEvents == if leverage == 0 then old(scheduledEvents)
                                 else Scheduled(old(scheduledEvents), TraderUpdated)
    {
      if leverage == 0 {
        return;
      }
      trader := trader.(leverage := leverage);
      ScheduleEvent(TraderUpdated);
    }

    /** `handle_balance`: balance, unrealised and realised P&L. */
    method HandleBalance(b: BalanceReport)
      requires Valid()
      modifies this`trader, this`scheduledEvents
      ensures Valid()
      ensures old(scheduledEvents) <= scheduledEvents
      ensures trader == WithBalance(old(trader), b)
      ensures scheduledEvents == Scheduled(old(scheduledEvents), TraderUpdated)
    {
      trader := trader.(balance := b.traderBalance, upnl := b.upnl, pnl := b.pnl);
      ScheduleEvent(TraderUpdated);
    }

    /** `handle_order_book_msg`: a snapshot replaces both sides. */
    method HandleOrderBookMsg(msg: OrderBookMsg)
      requires Valid()
      modifies this`bids, this`asks, this`lastTrade, this`pairs, this`scheduledEvents
      ensures Valid()
      ensures old(scheduledEvents) <= scheduledEvents
      ensures (State(), scheduledEvents) == BookSnapshotStep(pairId, old(State()), old(scheduledEvents), msg)
    {
      ReplaceBook(msg.bids, msg.asks);
      HandleLastTrade(msg.trade);
      HandleMarkPrice(msg.markPrice);
      ScheduleEvent(BookUpdated);
    }

    /** The first part of `handle_order_book_msg`: both sides are emptied
        (or created empty), then the snapshot's entries are merged in. */
    method ReplaceBook(newBids: seq<BookEntry>, newAsks: seq<BookEntry>)
      requires Valid()
      modifies this`bids, this`asks
      ensures Valid()
      ensures bids == Some(Merged(map[], newBids)) && asks == Some(Merged(map[], newAsks))
    {
      // Clearing the existing maps and making new empty ones give the same value.
      bids, asks := Some(map[]), Some(map[]);
      var b := PopulateOrderbook(bids.value, newBids);
      var a := PopulateOrderbook(asks.value, newAsks);
      MergedKeepsPricesKeyed(map[], newBids);
      MergedKeepsPricesKeyed(map[], newAsks);
      bids, asks := Some(b), Some(a);
    }

    /**
     * `handle_order_book_updated_msg`: with a snapshot in place the diffs
     * are merged into both sides; without one, the diffs are dropped and a
     * fresh snapshot is requested. The last trade is then handled twice.
     */
    method HandleOrderBookUpdatedMsg(msg: OrderBookUpdatedMsg)
      requires Valid()
      modifies this`bids, this`asks, this`lastTrade, this`snapshotRequests, this`scheduledEvents
      ensures Valid()
      ensures old(scheduledEvents) <= scheduledEvents
      ensures (State(), scheduledEvents) == BookUpdateStep(old(State()), old(scheduledEvents), msg)
    {
      if bids.Some? {
        var newBids := PopulateOrderbook(bids.value, msg.bidUpdates);
        var newAsks := PopulateOrderbook(asks.value, msg.askUpdates);
        MergedKeepsPricesKeyed(bids.value, msg.bidUpdates);
        MergedKeepsPricesKeyed(asks.value, msg.askUpdates);
        bids, asks := Some(newBids), Some(newAsks);
        ScheduleEvent(BookUpdated);
      } else {
        snapshotRequests := snapshotRequests + 1;
      }
      ghost var once := scheduledEvents;
      HandleLastTrade(msg.trade);
      HandleLastTrade(msg.trade);
      ScheduleIdempotent(once, LastTradeUpdated);
    }

    /** `handle_exchange_rate_msg`: a pair the bot does not track is ignored;
        otherwise that pair's prices and reliability flag are overwritten. */
    method HandleExchangeRateMsg(msg: ExchangeRateMsg)
      requires Valid()
      modifies this`pairs, this`scheduledEvents
      ensures Valid()
      ensures old(scheduledEvents) <= scheduledEvents
      ensures (State(), scheduledEvents) == ExchangeRateStep(tracked, old(State()), old(scheduledEvents), msg)
    {
      if msg.currencyPairId !in tracked {
        return;
      }
      var pair := pairs[msg.currencyPairId];
      pair := pair.(markPrice := Some(msg.markPrice));
      pair := pair.(sellPrice := Some(msg.sellPrice));
      pair := pair.(buyPrice := Some(msg.buyPrice));
      pair := pair.(unreliable := Some(msg.unreliable != 0));
      pairs := pairs[msg.currencyPairId := pair];
      ScheduleEvent(PairUpdated(msg.currencyPairId));
    }

    /** `handle_trader_status_msg`: the account figures, then every listed
        order, reconciled without an outer message. */
    method HandleTraderStatusMsg(msg: TraderStatusMsg)
      requires Valid()
      requires forall i :: 0 <= i < |msg.orders| ==> IdResolvable(msg.orders[i], None)
      modifies this`trader, this`pairs, this`lastTrade, this`margins, this`position, this`orders,
               this`ordersCreated, this`scheduledEvents
      ensures Valid()
      ensures old(scheduledEvents) <= scheduledEvents
      ensures (State(), scheduledEvents) == TraderStatusStep(pairId, old(State()), old(scheduledEvents), msg)
    {
      HandleTraderStatusFigures(msg);
      HandleOrders(msg.orders, None, None);
    }

    /** The account part of `handle_trader_status_msg`, before its loop
        over the orders. */
    method HandleTraderStatusFigures(msg: TraderStatusMsg)
      requires Valid()
      modifies this`trader, this`pairs, this`lastTrade, this`margins, this`position, this`scheduledEvents
      ensures Valid()
      ensures old(scheduledEvents) <= scheduledEvents
      ensures trader == (var t := WithBalance(old(trader), msg.balance);
                         if msg.leverage == 0 then t else t.(leverage := msg.leverage))
      ensures pairs == WithMarkPrice(old(pairs), pairId, msg.markPrice)
      ensures lastTrade == Some(TradeOf(msg.trade))
      ensures margins == MarginsOf(msg.margins) && position == PositionOf(msg.position)
      ensures var account := Scheduled(Scheduled(Scheduled(Scheduled(Scheduled(old(scheduledEvents),
                               TraderUpdated), PairUpdated(pairId)), LastTradeUpdated), MarginsUpdated),
                               PositionUpdated);
              scheduledEvents == if msg.leverage == 0 then account else Scheduled(account, TraderUpdated)
    {
      HandleBalance(msg.balance);
      HandleMarkPrice(msg.markPrice);
      HandleLastTrade(msg.trade);
      HandleOrderMargin(msg.margins);
      HandlePosition(msg.position);
      HandleLeverage(msg.leverage);
    }

    /** `handle_trader_balance_msg`: the account figures only. */
    method HandleTraderBalanceMsg(msg: TraderBalanceMsg)
      requires Valid()
      modifies this`trader, this`lastTrade, this`margins, this`position, this`scheduledEvents
      ensures Valid()
      ensures old(scheduledEvents) <= scheduledEvents
      ensures (State(), scheduledEvents) == TraderBalanceStep(old(State()), old(scheduledEvents), msg)
    {
      HandleBalance(msg.balance);
      HandleLastTrade(msg.trade);
      HandleOrderMargin(msg.margins);
      HandlePosition(msg.position);
    }
  }
}
