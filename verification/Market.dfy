/** Vocabulary shared by the backtest modules: bars, orders, fills and their enumerations. */
module Market {
  import opened Wrappers

  type Symbol = string

  /** Microseconds since 1970-01-01T00:00:00Z. */
  type Instant = int

  const SECOND: int := 1_000_000
  const MINUTE: int := 60 * SECOND
  const HOUR: int := 60 * MINUTE
  const MICROS_PER_DAY: int := 86_400_000_000

  datatype Bar = Bar(time: Instant, symbol: Symbol, open: real, high: real, low: real, close: real)

  datatype Side = Buy | Sell

  datatype OrderType = MarketOrder | Limit | Stop | StopMarket | TakeProfit | PostOnly

  datatype OrderStatus = New | Submitted | Acknowledged | Partial | Filled | Canceled | Rejected | Expired

  datatype Liquidity = Maker | Taker

  datatype Order = Order(
    id: nat,
    symbol: Symbol,
    time: Instant,
    side: Side,
    orderType: OrderType,
    requestedPrice: Option<real>,
    qty: real,
    reduceOnly: bool,
    status: OrderStatus)

  datatype Fill = Fill(
    id: nat,
    orderId: nat,
    symbol: Symbol,
    time: Instant,
    side: Side,
    liquidity: Liquidity,
    referencePrice: real,
    price: real,
    qty: real,
    fee: real,
    slippageCost: real)

  /** The exceptions a run can leave with. */
  datatype Error =
    | OutsideUniverse
    | PlanningError
    | UnsupportedOrderType
    | TypeError

  function Abs(x: real): (r: real) {
    if x < 0.0 then -x else x
  }

  function Min(x: real, y: real): (r: real) {
    if y < x then y else x
  }

  function Max(x: real, y: real): (r: real) {
    if y > x then y else x
  }

  /** The quantity a trade on the given side adds to a position. */
  function Signed(side: Side, qty: real): (r: real) {
    if side.Buy? then qty else -qty
  }

  function Sign(x: real): int {
    if x > 0.0 then 1 else if x < 0.0 then -1 else 0
  }
}
