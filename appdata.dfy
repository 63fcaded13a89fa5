/**
 * The shared record types of the trading application: orders, trades,
 * positions, accounts, market data bars and the back-test parameters and
 * results, with the defaults their constructors give them.
 *
 * Timestamps are milliseconds since the epoch; an invalid (default) date is 0.
 * Prices and quantities are exact reals; the open-ended `extraInfo` maps and
 * the order-book depth vectors are not part of this model.
 */
module AppData {
  import opened Options
  import QMaps

  /** The result of a floating-point division: a finite value or a NaN/infinity. */
  datatype Float = Finite(value: real) | NonFinite

  /** IEEE division as the source performs it, without a guard. */
  function Divide(a: real, b: real): (r: Float)
    ensures r.Finite? <==> b != 0.0
    ensures r.Finite? ==> r.value * b == a
  {
    if b == 0.0 then NonFinite else Finite(a / b)
  }

  datatype Direction = Long | Short | Unknown

  datatype OrderType = Market | Limit | Stop | StopLimit | TrailingStop

  /** The header's eight statuses plus the unknown value a wire parser may yield. */
  datatype OrderStatus =
    Created | Submitted | Accepted | Partial | Completed | Canceled | Rejected | Expired | UnknownStatus

  /** The bar periods the kline generator knows, in the order of their enum values. */
  datatype TimeFrame = Tick | M1 | M5 | M15 | M30 | H1 | H4 | D1 | W1 | KUnknown

  function DirectionValue(d: Direction): int
  {
    match d
    case Long => 0
    case Short => 1
    case Unknown => 2
  }

  function StatusValue(s: OrderStatus): int
  {
    match s
    case Created => 0
    case Submitted => 1
    case Accepted => 2
    case Partial => 3
    case Completed => 4
    case Canceled => 5
    case Rejected => 6
    case Expired => 7
    case UnknownStatus => 8
  }

  /** The status with a given enum value. */
  function StatusFromValue(v: int): (s: Option<OrderStatus>)
    ensures s.Some? <==> 0 <= v <= 8
    ensures s.Some? ==> StatusValue(s.value) == v
  {
    if v == 0 then Some(Created)
    else if v == 1 then Some(Submitted)
    else if v == 2 then Some(Accepted)
    else if v == 3 then Some(Partial)
    else if v == 4 then Some(Completed)
    else if v == 5 then Some(Canceled)
    else if v == 6 then Some(Rejected)
    else if v == 7 then Some(Expired)
    else if v == 8 then Some(UnknownStatus)
    else None
  }

  /** The enum numbering is a bijection: every status is recovered from its value. */
  lemma StatusNumbering(s: OrderStatus)
    ensures StatusFromValue(StatusValue(s)) == Some(s)
  {
  }

  /**
   * The rank of a bar period, which the generator compares. The periods run
   * from Tick (0) to W1 (8) in the order of their seconds, and the unknown
   * period ranks last.
   */
  function TimeFrameValue(t: TimeFrame): (v: int)
    ensures 0 <= v <= 9
    ensures v == 0 <==> t == Tick
    ensures v == 9 <==> t == KUnknown
  {
    match t
    case Tick => 0
    case M1 => 1
    case M5 => 2
    case M15 => 3
    case M30 => 4
    case H1 => 5
    case H4 => 6
    case D1 => 7
    case W1 => 8
    case KUnknown => 9
  }

  datatype Order = Order(
    orderId: string,
    symbol: string,
    createTime: int,
    updateTime: int,
    direction: Direction,
    orderType: OrderType,
    status: OrderStatus,
    price: real,
    stopPrice: real,
    quantity: real,
    filledQuantity: real,
    avgFillPrice: real,
    commission: real,
    exchangeOrderId: string,
    accountId: string,
    remark: string)

  datatype Trade = Trade(
    tradeId: string,
    orderId: string,
    symbol: string,
    tradeTime: int,
    direction: Direction,
    price: real,
    quantity: real,
    commission: real,
    exchangeTradeId: string,
    accountId: string)

  datatype Position = Position(
    symbol: string,
    direction: Direction,
    quantity: real,
    avgPrice: real,
    marketPrice: real,
    unrealizedPnL: real,
    realizedPnL: real,
    openTime: int,
    accountId: string)

  /** An account; `positions` is the account's own position map, keyed by symbol. */
  datatype Account = Account(
    accountId: string,
    name: string,
    balance: real,
    available: real,
    margin: real,
    unrealizedPnL: real,
    realizedPnL: real,
    positions: QMaps.QMap<Position>)

  datatype MarketData = MarketData(
    symbol: string,
    timestamp: int,
    open: real,
    high: real,
    low: real,
    close: real,
    volume: real,
    amount: real,
    tickCount: int,
    openInterest: real,
    bidPrice: real,
    askPrice: real,
    bidVolume: real,
    askVolume: real)

  datatype BacktestParams = BacktestParams(
    startDate: int,
    endDate: int,
    symbols: seq<string>,
    timeFrame: TimeFrame,
    initialCapital: real,
    commission: real,
    slippage: real,
    useAdjustedPrice: bool)

  datatype BacktestResult = BacktestResult(
    finalCapital: real,
    totalReturn: real,
    annualReturn: real,
    sharpeRatio: real,
    maxDrawdown: real,
    winRate: Float,
    totalTrades: int,
    winTrades: int,
    lossTrades: int,
    profitFactor: Float,
    averageProfit: real,
    averageLoss: real,
    trades: seq<Trade>,
    equityCurve: seq<real>,
    equityTimes: seq<int>)

  /** `Order()`: unknown direction, market type, created, every number zero. */
  const DefaultOrder := Order("", "", 0, 0, Unknown, Market, Created, 0.0, 0.0, 0.0, 0.0, 0.0, 0.0, "", "", "")

  /** `Trade()`: unknown direction, every number zero. */
  const DefaultTrade := Trade("", "", "", 0, Unknown, 0.0, 0.0, 0.0, "", "")

  /** `Position()`: unknown direction, every number zero. */
  const DefaultPosition := Position("", Unknown, 0.0, 0.0, 0.0, 0.0, 0.0, 0, "")

  /** `Account()`: every number zero, no positions. */
  const DefaultAccount := Account("", "", 0.0, 0.0, 0.0, 0.0, 0.0, QMaps.QMap([]))

  /** `MarketData()`: every number zero. */
  const DefaultMarketData := MarketData("", 0, 0.0, 0.0, 0.0, 0.0, 0.0, 0.0, 0, 0.0, 0.0, 0.0, 0.0, 0.0)

  /** `BacktestParams()`: daily bars, capital 1,000,000, commission rate 0.0003, no slippage, adjusted prices. */
  const DefaultBacktestParams := BacktestParams(0, 0, [], D1, 1000000.0, 0.0003, 0.0, true)

  /** `BacktestResult()`: every number zero, no trades. */
  const DefaultBacktestResult :=
    BacktestResult(0.0, 0.0, 0.0, 0.0, 0.0, Finite(0.0), 0, 0, 0, Finite(0.0), 0.0, 0.0, [], [], [])

  /** The status a strategy still counts as working (awaiting a fill). */
  predicate IsActiveStatus(s: OrderStatus)
  {
    s == Created || s == Submitted || s == Accepted || s == Partial
  }
}
