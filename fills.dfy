/** Fill-ratio estimate against the liquidity on one side of the book
    (polyshark/src/fills.rs). */
module FillModel {
  import opened Types

  /** The liquidity an order of this side would trade against: the asks for
      a buy, the bids for a sell. */
  function Available(q: BookQueries, book: OrderBook, side: Side): (available: NonNegReal)
    ensures side == Buy ==> available == q.totalAskLiquidity(book)
    ensures side == Sell ==> available == q.totalBidLiquidity(book)
  {
    match side
    case Buy => q.totalAskLiquidity(book)
    case Sell => q.totalBidLiquidity(book)
  }

  /** The fraction of the requested size that the book can fill. */
  function EstimateFillRatio(q: BookQueries, book: OrderBook, size: real, side: Side): (ratio: real)
    ensures 0.0 <= ratio <= 1.0
    ensures Available(q, book, side) >= size ==> ratio == 1.0
    ensures Available(q, book, side) < size ==> 0.0 < size && ratio * size == Available(q, book, side) && ratio < 1.0
  {
    var available := Available(q, book, side);
    if available >= size then 1.0 else available / size
  }

  /** The part of the requested size that fills. A positive request fills
      up to the available liquidity; a request that is not positive stays
      as it is, and so yields no fill. */
  function FilledSize(q: BookQueries, book: OrderBook, requestedSize: real, side: Side): (filled: real)
    ensures filled <= requestedSize && filled <= Available(q, book, side)
    ensures 0.0 < requestedSize ==>
      filled == if Available(q, book, side) >= requestedSize then requestedSize else Available(q, book, side)
    ensures requestedSize <= 0.0 ==> filled == requestedSize
    ensures 0.0 < filled <==> 0.0 < requestedSize && 0.0 < Available(q, book, side)
  {
    var ratio := EstimateFillRatio(q, book, requestedSize, side);
    requestedSize * ratio
  }

  /** A request of 1000 against 600 units of asks fills 60%, that is 600. */
  lemma PartialFillExample(q: BookQueries, book: OrderBook)
    requires q.totalAskLiquidity(book) == 600.0
    ensures EstimateFillRatio(q, book, 1000.0, Buy) == 0.6
    ensures FilledSize(q, book, 1000.0, Buy) == 600.0
  {
  }
}
