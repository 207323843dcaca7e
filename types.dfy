/** Data declarations shared by the simulator: markets, order books, sides,
    arbitrage signals and execution results (polyshark/src/types.rs).
    Prices and sizes that the source keeps as `f64` are exact `real`s here. */
module Types {

  /** Rust's `Option`. */
  datatype Option<+T> = None | Some(value: T)

  /** Rust's unsigned integer widths. */
  type U32 = x: int | 0 <= x < 0x1_0000_0000
  type U64 = x: int | 0 <= x < 0x1_0000_0000_0000_0000

  /** A quantity that cannot be negative (order-book liquidity). */
  type NonNegReal = r: real | 0.0 <= r

  /** Order side: a closed two-case variant, so every match on it is exhaustive. */
  datatype Side = Buy | Sell

  /** A prediction market as the data feed delivers it. Fees are basis points. */
  datatype Market = Market(
    id: string,
    question: string,
    slug: string,
    outcomes: seq<string>,
    outcomePrices: seq<real>,
    clobTokenIds: seq<string>,
    bestBid: Option<real>,
    bestAsk: Option<real>,
    makerBaseFee: U32,
    takerBaseFee: U32,
    liquidity: real,
    volume24hr: real,
    active: bool,
    acceptingOrders: bool)

  /** One level of an order book; its size is an unsigned integer. */
  datatype PriceLevel = PriceLevel(price: real, size: U64)

  datatype OrderBook = OrderBook(
    tokenId: string,
    bids: seq<PriceLevel>,
    asks: seq<PriceLevel>,
    timestamp: U64)

  /** An executed trade record. */
  datatype Trade = Trade(
    id: string,
    tokenId: string,
    price: real,
    size: real,
    side: Side,
    timestamp: U64)

  /** A detected violation on a binary market: exactly two leg prices. */
  datatype ArbitrageSignal = ArbitrageSignal(
    marketId: string,
    spread: real,
    edge: real,
    recommendedSide: Side,
    yesPrice: real,
    noPrice: real)

  /** Outcome of a simulated order; `filedSize` keeps the source's field name. */
  datatype ExecutionResult = ExecutionResult(
    filedSize: real,
    executionPrice: real,
    feePaid: real,
    slippage: real,
    totalCost: real,
    success: bool)

  /** The order-book queries the core calls but whose definitions are not
      part of this model. They are supplied by the caller; the only thing
      assumed of them is that liquidity is never negative. */
  datatype BookQueries = BookQueries(
    executionPrice: (OrderBook, real, Side) -> Option<real>,
    midpoint: OrderBook -> Option<real>,
    totalAskLiquidity: OrderBook -> NonNegReal,
    totalBidLiquidity: OrderBook -> NonNegReal)

  /** The market queries the detector calls but whose definitions are not
      part of this model. */
  datatype MarketQueries = MarketQueries(
    getSpread: Market -> real,
    yesPrice: Market -> real,
    noPrice: Market -> real)

  /** `f64::abs`. */
  function Abs(x: real): (r: real)
    ensures 0.0 <= r && (r == x || r == -x)
  {
    if x < 0.0 then -x else x
  }
}
