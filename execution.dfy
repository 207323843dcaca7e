/** The execution simulator: fills an order against a book and charges the
    wallet for it, all or nothing (polyshark/src/execution.rs). */
module Execution {
  import opened Types
  import opened Fees
  import FillModel
  import SlippageModel
  import opened Ledger

  datatype ExecutionEngine = ExecutionEngine(feeModel: FeeModel) {

    /** What an order would fill and cost before the wallet is consulted:
        None when nothing fills or the book cannot price the fill; otherwise
        the filled size, its execution price, the taker fee on the notional,
        the absolute slippage from the midpoint and the total cost. */
    function Quote(q: BookQueries, book: OrderBook, size: real, side: Side): (quote: Option<ExecutionResult>)
      requires q.midpoint(book) != Some(0.0)
      ensures var filled := FillModel.FilledSize(q, book, size, side);
        quote.None? <==> filled <= 0.0 || q.executionPrice(book, filled, side).None? || q.midpoint(book).None?
      ensures quote.Some? ==>
        var r := quote.value;
        && r.success
        && r.filedSize == FillModel.FilledSize(q, book, size, side)
        && 0.0 < r.filedSize <= size
        && Some(r.executionPrice) == q.executionPrice(book, r.filedSize, side)
        && 0.0 <= r.slippage
        && r == Settle(r.filedSize, r.executionPrice, q.midpoint(book).value)
    {
      var filled := FillModel.FilledSize(q, book, size, side);
      if filled <= 0.0 then
        None
      else
        match q.executionPrice(book, filled, side)
        case None => None
        case Some(execPrice) =>
          match q.midpoint(book)
          case None => None
          case Some(midpoint) => Some(Settle(filled, execPrice, midpoint))
    }

    /** Result of filling `filled` units at `execPrice` when the book's
        midpoint is `midpoint`: the absolute relative slippage, the notional,
        the taker fee on it and their sum. */
    function Settle(filled: real, execPrice: real, midpoint: real): (r: ExecutionResult)
      requires midpoint != 0.0
      ensures r.success && r.filedSize == filled && r.executionPrice == execPrice
      ensures r.slippage * Abs(midpoint) == Abs(execPrice - midpoint)
      ensures r.feePaid == feeModel.Calculate(execPrice * filled, false)
      ensures r.totalCost == execPrice * filled + r.feePaid
    {
      var slippage := Abs((execPrice - midpoint) / midpoint);
      var notional := execPrice * filled;
      var fee := feeModel.Calculate(notional, false);
      ExecutionResult(filled, execPrice, fee, slippage, notional + fee, true)
    }

    /** Simulates one order. A result is returned exactly when the quote
        exists and the wallet can afford its total cost; then the wallet pays
        exactly that cost and records exactly that fee. On every rejection
        the wallet is left as it was. Positions and trade counters are never
        touched, and a non-negative balance stays non-negative. */
    method Execute(q: BookQueries, book: OrderBook, size: real, side: Side, wallet: Wallet)
      returns (result: Option<ExecutionResult>)
      requires q.midpoint(book) != Some(0.0)
      modifies wallet`usdc, wallet`totalFeesPaid
      ensures var quote := Quote(q, book, size, side);
        result == if quote.Some? && quote.value.totalCost <= old(wallet.usdc) then quote else None
      ensures result.None? ==>
        wallet.usdc == old(wallet.usdc) && wallet.totalFeesPaid == old(wallet.totalFeesPaid)
      ensures result.Some? ==>
        && wallet.usdc == old(wallet.usdc) - result.value.totalCost
        && wallet.totalFeesPaid == old(wallet.totalFeesPaid) + result.value.feePaid
      ensures wallet.positions == old(wallet.positions)
      ensures wallet.totalTrades == old(wallet.totalTrades) && wallet.winningTrades == old(wallet.winningTrades)
      ensures 0.0 <= old(wallet.usdc) ==> 0.0 <= wallet.usdc
    {
      // 1. Fill ratio
      var filledSize := FillModel.FilledSize(q, book, size, side);
      if filledSize <= 0.0 {
        return None;
      }

      // 2. Execution price and midpoint
      var execPrice := q.executionPrice(book, filledSize, side);
      if execPrice.None? {
        return None;
      }
      var midpoint := q.midpoint(book);
      if midpoint.None? {
        return None;
      }

      // 3. Slippage and costs
      var fill := Settle(filledSize, execPrice.value, midpoint.value);

      // 4. Affordability
      if !wallet.CanAfford(fill.totalCost) {
        return None;
      }

      // 5. Charge the wallet
      var paid := wallet.Deduct(fill.totalCost);
      assert paid;
      wallet.RecordFee(fill.feePaid);

      return Some(fill);
    }
  }

  /** The cost models agree with the engine: the quoted slippage is the
      magnitude of the slippage model's signed slippage for the filled size,
      and the total cost is the model's execution cost plus the taker fee on it. */
  lemma QuoteAgreesWithCostModels(engine: ExecutionEngine, q: BookQueries, book: OrderBook, size: real, side: Side)
    requires q.midpoint(book) != Some(0.0)
    requires engine.Quote(q, book, size, side).Some?
    ensures var r := engine.Quote(q, book, size, side).value;
      && SlippageModel.Calculate(q, book, r.filedSize, side).Some?
      && r.slippage == Abs(SlippageModel.Calculate(q, book, r.filedSize, side).value)
      && SlippageModel.ExecutionCost(q, book, r.filedSize, side) == Some(r.totalCost - r.feePaid)
      && r.feePaid == engine.feeModel.Calculate(r.totalCost - r.feePaid, false)
  {
    var r := engine.Quote(q, book, size, side).value;
    var execPrice := r.executionPrice;
    var midpoint := q.midpoint(book).value;
    var cost := SlippageModel.ExecutionCost(q, book, r.filedSize, side);
    assert cost.Some? && cost.value == r.totalCost - r.feePaid;
    if side == Sell {
      SlippageModel.SellNegatesBuy(execPrice, midpoint);
    }
  }

  /** The total cost is the notional grossed up by the taker rate. */
  lemma QuoteTotalCost(engine: ExecutionEngine, q: BookQueries, book: OrderBook, size: real, side: Side)
    requires q.midpoint(book) != Some(0.0)
    requires engine.Quote(q, book, size, side).Some?
    ensures var r := engine.Quote(q, book, size, side).value;
      r.totalCost == r.executionPrice * r.filedSize * (1.0 + engine.feeModel.TakerRate())
  {
  }
}
