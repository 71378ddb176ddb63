/**
 * What one message does to a market, as values: for each message kind, the
 * state and the pending hooks its handler leaves, and `Step`, the dispatch on
 * the kind that starts `handle_message`.
 */
module Steps {
  import opened Wrappers
  import opened Entities
  import opened Events
  import opened Books
  import opened Registry

  /** The state a message can change, apart from the pending hooks and the
      logs of what was called. */
  datatype View = View(
    trader: Trader,
    position: Position,
    orders: Orders,
    margins: Margins,
    ordersCreated: nat,
    lastTrade: Option<Trade>,
    bids: Option<Side>,
    asks: Option<Side>,
    pairs: map<PairId, CurrencyPair>,
    snapshotRequests: nat)

  /** A trader-status message names each of its orders by `orig_client_id`,
      since it has no outer id to fall back on. */
  predicate OrderIdsResolvable(msg: Envelope)
  {
    msg.content.TraderStatus? ==>
      forall i :: 0 <= i < |msg.content.traderStatus.orders| ==>
        IdResolvable(msg.content.traderStatus.orders[i], None)
  }

  /** The market's own pair and every tracked pair are known, and the two
      book sides are present together. */
  predicate Coherent(pairId: PairId, tracked: set<PairId>, v: View)
  {
    pairId in v.pairs && tracked <= v.pairs.Keys && (v.bids.Some? <==> v.asks.Some?)
  }

  /** The pairs after `handle_mark_price`: only the market's own pair's mark price changes. */
  function WithMarkPrice(pairs: map<PairId, CurrencyPair>, pairId: PairId, markPrice: Decimal): map<PairId, CurrencyPair>
    requires pairId in pairs
  {
    pairs[pairId := pairs[pairId].(markPrice := Some(markPrice))]
  }

  /** `handle_trader_status_msg`. */
  ghost function TraderStatusStep(pairId: PairId, v: View, pending: seq<Event>, m: TraderStatusMsg): (View, seq<Event>)
    requires pairId in v.pairs
    requires forall i :: 0 <= i < |m.orders| ==> IdResolvable(m.orders[i], None)
  {
    var t := WithBalance(v.trader, m.balance);
    var account := Scheduled(Scheduled(Scheduled(Scheduled(Scheduled(pending,
                     TraderUpdated), PairUpdated(pairId)), LastTradeUpdated), MarginsUpdated), PositionUpdated);
    var before := if m.leverage == 0 then account else Scheduled(account, TraderUpdated);
    var b := ReconcileAll(Batch(v.orders, v.ordersCreated, before), m.orders, None, None);
    (v.(trader := if m.leverage == 0 then t else t.(leverage := m.leverage),
        pairs := WithMarkPrice(v.pairs, pairId, m.markPrice),
        lastTrade := Some(TradeOf(m.trade)),
        margins := MarginsOf(m.margins),
        position := PositionOf(m.position),
        orders := b.registry,
        ordersCreated := b.created),
     b.pending)
  }

  /** `handle_trader_balance_msg`. */
  ghost function TraderBalanceStep(v: View, pending: seq<Event>, m: TraderBalanceMsg): (View, seq<Event>)
  {
    (v.(trader := WithBalance(v.trader, m.balance),
        lastTrade := Some(TradeOf(m.trade)),
        margins := MarginsOf(m.margins),
        position := PositionOf(m.position)),
     Scheduled(Scheduled(Scheduled(Scheduled(pending,
       TraderUpdated), LastTradeUpdated), MarginsUpdated), PositionUpdated))
  }

  /**
   * The hooks of a trader-balance message are the coalesced requests for
   * trader, last trade, margins and position, in that order; when all four
   * are already pending, the message adds none.
   */
  lemma {:induction false} TraderBalanceHooks(v: View, pending: seq<Event>, m: TraderBalanceMsg)
    ensures var requests := [TraderUpdated, LastTradeUpdated, MarginsUpdated, PositionUpdated];
            && TraderBalanceStep(v, pending, m).1 == ScheduledAll(pending, requests)
            && ((forall i :: 0 <= i < |requests| ==> requests[i] in pending) ==> TraderBalanceStep(v, pending, m).1 == pending)
  {
    var requests := [TraderUpdated, LastTradeUpdated, MarginsUpdated, PositionUpdated];
    ScheduledAllSnoc(pending, [], TraderUpdated);
    assert [] + [TraderUpdated] == requests[..1];
    ScheduledAllSnoc(pending, requests[..1], LastTradeUpdated);
    assert requests[..1] + [LastTradeUpdated] == requests[..2];
    ScheduledAllSnoc(pending, requests[..2], MarginsUpdated);
    assert requests[..2] + [MarginsUpdated] == requests[..3];
    ScheduledAllSnoc(pending, requests[..3], PositionUpdated);
    assert requests[..3] + [PositionUpdated] == requests;
    if forall i :: 0 <= i < |requests| ==> requests[i] in pending {
      ScheduledAllKeepsPending(pending, requests);
    }
  }

  /** `handle_exchange_rate_msg`: an untracked pair is ignored. */
  ghost function ExchangeRateStep(tracked: set<PairId>, v: View, pending: seq<Event>, m: ExchangeRateMsg): (View, seq<Event>)
    requires tracked <= v.pairs.Keys
  {
    if m.currencyPairId !in tracked then (v, pending)
    else
      var pair := v.pairs[m.currencyPairId].(
                    markPrice := Some(m.markPrice), sellPrice := Some(m.sellPrice),
                    buyPrice := Some(m.buyPrice), unreliable := Some(m.unreliable != 0));
      (v.(pairs := v.pairs[m.currencyPairId := pair]), Scheduled(pending, PairUpdated(m.currencyPairId)))
  }

  /** `handle_order_book_msg`: a snapshot replaces both sides. */
  ghost function BookSnapshotStep(pairId: PairId, v: View, pending: seq<Event>, m: OrderBookMsg): (View, seq<Event>)
    requires pairId in v.pairs
  {
    (v.(bids := Some(Merged(map[], m.bids)),
        asks := Some(Merged(map[], m.asks)),
        lastTrade := Some(TradeOf(m.trade)),
        pairs := WithMarkPrice(v.pairs, pairId, m.markPrice)),
     Scheduled(Scheduled(Scheduled(pending, LastTradeUpdated), PairUpdated(pairId)), BookUpdated))
  }

  /** `handle_order_book_updated_msg`: diffs are merged into a book in place;
      without one a snapshot is requested instead. */
  ghost function BookUpdateStep(v: View, pending: seq<Event>, m: OrderBookUpdatedMsg): (View, seq<Event>)
    requires v.bids.Some? <==> v.asks.Some?
  {
    if v.bids.Some? then
      (v.(bids := Some(Merged(v.bids.value, m.bidUpdates)),
          asks := Some(Merged(v.asks.value, m.askUpdates)),
          lastTrade := Some(TradeOf(m.trade))),
       Scheduled(Scheduled(pending, BookUpdated), LastTradeUpdated))
    else
      (v.(lastTrade := Some(TradeOf(m.trade)), snapshotRequests := v.snapshotRequests + 1),
       Scheduled(pending, LastTradeUpdated))
  }

  /** `handle_order_status_msg`: the account figures only when the outer
      message reports no error, then the order. */
  ghost function OrderStatusStep(v: View, pending: seq<Event>, m: OrderStatusMsg, outer: Envelope): (View, seq<Event>)
  {
    var ok := outer.errorCode == 0;
    var before := if ok then Scheduled(Scheduled(Scheduled(pending, TraderUpdated), PositionUpdated), MarginsUpdated)
                  else pending;
    var r := Reconcile(v.orders, m.order, Some(outer), None, v.ordersCreated);
    (v.(trader := if ok then WithBalance(v.trader, m.balance) else v.trader,
        position := if ok then PositionOf(m.position) else v.position,
        margins := if ok then MarginsOf(m.margins) else v.margins,
        orders := r.registry,
        ordersCreated := r.created),
     Scheduled(before, OrderUpdated(r.order.serial)))
  }

  /** `handle_order_canceled_msg`: the account figures, then every listed
      order with the message's status forced on it. */
  ghost function OrderCanceledStep(pairId: PairId, v: View, pending: seq<Event>, m: OrderCanceledMsg,
                                   outer: Envelope): (View, seq<Event>)
    requires pairId in v.pairs
  {
    var before := Scheduled(Scheduled(Scheduled(Scheduled(pending,
                    MarginsUpdated), PairUpdated(pairId)), TraderUpdated), PositionUpdated);
    var b := ReconcileAll(Batch(v.orders, v.ordersCreated, before), m.orders, Some(outer), Some(m.status));
    (v.(margins := MarginsOf(m.margins),
        pairs := WithMarkPrice(v.pairs, pairId, m.markPrice),
        trader := WithBalance(v.trader, m.balance),
        position := v.position.(margin := m.positionMargin),
        orders := b.registry,
        ordersCreated := b.created),
     b.pending)
  }

  /** `handle_leverage_msg`: the leverage (0 ignored), then the account
      figures only when the outer message reports no error. */
  ghost function LeverageStep(v: View, pending: seq<Event>, m: LeverageMsg, outer: Envelope): (View, seq<Event>)
  {
    var lev := if m.leverage == 0 then v.trader else v.trader.(leverage := m.leverage);
    var levEvents := if m.leverage == 0 then pending else Scheduled(pending, TraderUpdated);
    if outer.errorCode == 0 then
      (v.(trader := WithBalance(lev, m.balance),
          position := PositionOf(m.position),
          margins := MarginsOf(m.margins),
          lastTrade := Some(TradeOf(m.trade))),
       Scheduled(Scheduled(Scheduled(Scheduled(levEvents,
         TraderUpdated), PositionUpdated), MarginsUpdated), LastTradeUpdated))
    else
      (v.(trader := lev), levEvents)
  }

  /**
   * The dispatch of `handle_message`: the state and pending hooks the
   * handler for the message's kind leaves. Order-filled reports take the
   * order-status path; an unrecognised kind changes nothing.
   */
  ghost function Step(pairId: PairId, tracked: set<PairId>, v: View, pending: seq<Event>, msg: Envelope): (View, seq<Event>)
    requires Coherent(pairId, tracked, v)
    requires OrderIdsResolvable(msg)
  {
    match msg.content
    case TraderStatus(m) => TraderStatusStep(pairId, v, pending, m)
    case TraderBalance(m) => TraderBalanceStep(v, pending, m)
    case ExchangeRate(m) => ExchangeRateStep(tracked, v, pending, m)
    case BookSnapshot(m) => BookSnapshotStep(pairId, v, pending, m)
    case BookUpdate(m) => BookUpdateStep(v, pending, m)
    case OrderStatusReport(m) => OrderStatusStep(v, pending, m, msg)
    case OrderFilledReport(m) => OrderStatusStep(v, pending, m, msg)
    case OrderCanceledReport(m) => OrderCanceledStep(pairId, v, pending, m, msg)
    case LeverageReport(m) => LeverageStep(v, pending, m, msg)
    case Unrecognised(_) => (v, pending)
  }

  /**
   * An order-filled report has exactly the effect of an order-status report
   * with the same fields: the quantity write-back of the order-filled
   * handler never happens.
   */
  lemma FilledReportIsStatusReport(pairId: PairId, tracked: set<PairId>, v: View, pending: seq<Event>,
                                   clientId: Bytes, errorCode: int, m: OrderStatusMsg)
    requires Coherent(pairId, tracked, v)
    ensures var filled := Step(pairId, tracked, v, pending, Envelope(clientId, errorCode, OrderFilledReport(m)));
            var status := Step(pairId, tracked, v, pending, Envelope(clientId, errorCode, OrderStatusReport(m)));
            filled == status
  {
    var e1 := Envelope(clientId, errorCode, OrderFilledReport(m));
    var e2 := Envelope(clientId, errorCode, OrderStatusReport(m));
    assert Reconcile(v.orders, m.order, Some(e1), None, v.ordersCreated)
        == Reconcile(v.orders, m.order, Some(e2), None, v.ordersCreated);
  }
}
