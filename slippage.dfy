/** Realised slippage and execution cost read off the order book
    (polyshark/src/slippage.rs). */
module SlippageModel {
  import opened Types

  /** Slippage of an execution price against the midpoint, signed so that a
      worse price than the midpoint is positive: paying above it on a buy,
      receiving below it on a sell. */
  function SignedSlippage(side: Side, execPrice: real, midpoint: real): (slippage: real)
    requires midpoint != 0.0
    ensures slippage * midpoint == (if side == Buy then execPrice - midpoint else midpoint - execPrice)
    ensures 0.0 < midpoint ==>
      (0.0 < slippage <==> (side == Buy && execPrice > midpoint) || (side == Sell && execPrice < midpoint))
  {
    match side
    case Buy => (execPrice - midpoint) / midpoint
    case Sell => (midpoint - execPrice) / midpoint
  }

  /** For the same prices, a sell's slippage is the negation of a buy's. */
  lemma SellNegatesBuy(execPrice: real, midpoint: real)
    requires midpoint != 0.0
    ensures SignedSlippage(Sell, execPrice, midpoint) == -SignedSlippage(Buy, execPrice, midpoint)
  {
  }

  /** Slippage of an order of `size` on `side`; `None` when the book has no
      midpoint or cannot price the order. */
  function Calculate(q: BookQueries, book: OrderBook, size: real, side: Side): (slippage: Option<real>)
    requires q.midpoint(book) != Some(0.0)
    ensures slippage.Some? <==> q.midpoint(book).Some? && q.executionPrice(book, size, side).Some?
    ensures slippage.Some? ==>
      slippage.value == SignedSlippage(side, q.executionPrice(book, size, side).value, q.midpoint(book).value)
  {
    match q.midpoint(book)
    case None => None
    case Some(midpoint) =>
      match q.executionPrice(book, size, side)
      case None => None
      case Some(execPrice) => Some(SignedSlippage(side, execPrice, midpoint))
  }

  /** What an order of `size` costs at the book's execution price; `None`
      when the book cannot price it. */
  function ExecutionCost(q: BookQueries, book: OrderBook, size: real, side: Side): (cost: Option<real>)
    ensures cost.Some? <==> q.executionPrice(book, size, side).Some?
    ensures cost.Some? ==> cost.value == q.executionPrice(book, size, side).value * size
  {
    match q.executionPrice(book, size, side)
    case None => None
    case Some(execPrice) => Some(execPrice * size)
  }
}
