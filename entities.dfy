/**
 * The records a market keeps (trader, position, order margins, last trade,
 * orders, order-book levels, currency pairs), the observer hooks that can be
 * scheduled, and the decoded inbound messages.
 *
 * Decimal fields are exact, so they are `real`. The proto accessors
 * (`decimal_from_proto`, `datetime_from_proto`, `*.from_proto`,
 * `uuid.UUID(bytes=...)`) are treated as already applied: a message carries
 * the decoded values.
 */
module Entities {
  import opened Wrappers

  type Decimal = real
  type Bytes = seq<bv8>

  /** An order's client id (the uuid bytes); opaque apart from equality. */
  type Id = Bytes

  type PairId = int

  datatype OrderStatus = Accepted | Partial | Filled | Canceled | Rejected

  /** The statuses an order keeps its place in the registry with. */
  predicate IsLive(status: Option<OrderStatus>)
  {
    status == Some(Accepted) || status == Some(Partial)
  }

  /**
   * An order. `serial` stands for the identity of the Python object: two
   * `Order` objects created for the same id are different observers.
   * `status` and `errorCode` are unset when the order is created.
   */
  datatype Order = Order(
    serial: nat,
    id: Id,
    price: Decimal,
    quantity: Decimal,
    side: int,
    orderType: int,
    duration: int,
    status: Option<OrderStatus>,
    errorCode: Option<int>)

  datatype Trader = Trader(balance: Decimal, upnl: Decimal, pnl: Decimal, leverage: int)

  datatype Position = Position(
    contracts: Decimal,
    volume: Decimal,
    liquidationVolume: Decimal,
    bankruptcyVolume: Decimal,
    positionType: int,
    margin: Decimal)

  /** The aggregate margins kept on the order registry. */
  datatype Margins = Margins(margin: Decimal, buyMargin: Decimal, sellMargin: Decimal)

  datatype Trade = Trade(price: Decimal, quantity: Decimal, time: int)

  datatype BookEntry = BookEntry(price: Decimal, quantity: Decimal)

  datatype CurrencyPair = CurrencyPair(
    id: PairId,
    code: string,
    scale: nat,
    markPrice: Option<Decimal>,
    sellPrice: Option<Decimal>,
    buyPrice: Option<Decimal>,
    unreliable: Option<bool>)

  /**
   * The observer hooks a handler can schedule: the `on_update` of the
   * currency pair with the given id, of the trader, of its position, of the
   * last trade, of the order book and of the order object with the given
   * serial, and the registry's `on_margins_update`.
   */
  datatype Event =
    | PairUpdated(pair: PairId)
    | TraderUpdated
    | PositionUpdated
    | MarginsUpdated
    | LastTradeUpdated
    | BookUpdated
    | OrderUpdated(serial: nat)

  // Field groups that several message kinds share, read by the same helper.

  datatype BalanceReport = BalanceReport(traderBalance: Decimal, upnl: Decimal, pnl: Decimal)

  datatype PositionReport = PositionReport(
    contracts: Decimal,
    volume: Decimal,
    liquidationVolume: Decimal,
    bankruptcyVolume: Decimal,
    positionType: int,
    margin: Decimal)

  datatype MarginReport = MarginReport(orderMargin: Decimal, buyOrderMargin: Decimal, sellOrderMargin: Decimal)

  datatype TradeReport = TradeReport(price: Decimal, quantity: Decimal, timestamp: int)

  /**
   * The order fields of a report. `status` is `None` when the message type
   * has no status field (the `hasattr` test of the code).
   */
  datatype OrderReport = OrderReport(
    origClientId: Bytes,
    price: Decimal,
    quantity: Decimal,
    side: int,
    orderType: int,
    duration: int,
    status: Option<OrderStatus>,
    origQuantity: Decimal,
    droppedQuantity: Decimal)

  datatype TraderStatusMsg = TraderStatusMsg(
    balance: BalanceReport,
    markPrice: Decimal,
    trade: TradeReport,
    margins: MarginReport,
    position: PositionReport,
    leverage: int,
    orders: seq<OrderReport>)

  datatype TraderBalanceMsg = TraderBalanceMsg(
    balance: BalanceReport,
    trade: TradeReport,
    margins: MarginReport,
    position: PositionReport)

  datatype ExchangeRateMsg = ExchangeRateMsg(
    currencyPairId: PairId,
    markPrice: Decimal,
    sellPrice: Decimal,
    buyPrice: Decimal,
    unreliable: int)

  datatype OrderBookMsg = OrderBookMsg(
    bids: seq<BookEntry>,
    asks: seq<BookEntry>,
    trade: TradeReport,
    markPrice: Decimal)

  datatype OrderBookUpdatedMsg = OrderBookUpdatedMsg(
    bidUpdates: seq<BookEntry>,
    askUpdates: seq<BookEntry>,
    trade: TradeReport)

  /** An order status report; order-filled reports have the same fields. */
  datatype OrderStatusMsg = OrderStatusMsg(
    order: OrderReport,
    balance: BalanceReport,
    margins: MarginReport,
    position: PositionReport)

  datatype OrderCanceledMsg = OrderCanceledMsg(
    margins: MarginReport,
    markPrice: Decimal,
    balance: BalanceReport,
    positionMargin: Decimal,
    status: OrderStatus,
    orders: seq<OrderReport>)

  datatype LeverageMsg = LeverageMsg(
    leverage: int,
    balance: BalanceReport,
    position: PositionReport,
    margins: MarginReport,
    trade: TradeReport)

  /** The `kontent` one-of of an inbound message. */
  datatype Content =
    | TraderStatus(traderStatus: TraderStatusMsg)
    | TraderBalance(traderBalance: TraderBalanceMsg)
    | ExchangeRate(exchangeRate: ExchangeRateMsg)
    | BookSnapshot(orderBook: OrderBookMsg)
    | BookUpdate(orderBookUpdated: OrderBookUpdatedMsg)
    | OrderStatusReport(orderStatus: OrderStatusMsg)
    | OrderFilledReport(orderFilled: OrderStatusMsg)
    | OrderCanceledReport(orderCanceled: OrderCanceledMsg)
    | LeverageReport(leverageMsg: LeverageMsg)
    | Unrecognised(kind: string)

  /** The outer message: the client id and error code shared by its content. */
  datatype Envelope = Envelope(clientId: Bytes, errorCode: int, content: Content)

  function WithBalance(t: Trader, b: BalanceReport): Trader
  {
    t.(balance := b.traderBalance, upnl := b.upnl, pnl := b.pnl)
  }

  function PositionOf(p: PositionReport): Position
  {
    Position(p.contracts, p.volume, p.liquidationVolume, p.bankruptcyVolume, p.positionType, p.margin)
  }

  function MarginsOf(m: MarginReport): Margins
  {
    Margins(m.orderMargin, m.buyOrderMargin, m.sellOrderMargin)
  }

  function TradeOf(t: TradeReport): Trade
  {
    Trade(t.price, t.quantity, t.timestamp)
  }
}
