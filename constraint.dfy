/** The binary "prices sum to one" constraint check
    (polyshark/src/constraint.rs). */
module Constraint {
  import opened Types

  datatype ConstraintChecker = ConstraintChecker(minSpreadThreshold: real) {

    /** A signal exactly when the market's spread exceeds the threshold. The
        signal recommends selling both legs when they are overpriced
        (yes + no > 1) and buying them otherwise, and carries the market's
        id and leg prices as they are. */
    function CheckViolation(mq: MarketQueries, market: Market): (signal: Option<ArbitrageSignal>)
      ensures signal.None? <==> mq.getSpread(market) <= minSpreadThreshold
      ensures signal.Some? ==>
        && signal.value.spread == mq.getSpread(market)
        && signal.value.spread > minSpreadThreshold
        && signal.value.edge == signal.value.spread
        && signal.value.marketId == market.id
        && signal.value.yesPrice == mq.yesPrice(market)
        && signal.value.noPrice == mq.noPrice(market)
        && (signal.value.recommendedSide == Sell <==> signal.value.yesPrice + signal.value.noPrice > 1.0)
    {
      var spread := mq.getSpread(market);
      if spread <= minSpreadThreshold then
        None
      else
        var sum := mq.yesPrice(market) + mq.noPrice(market);
        var recommendedSide := if sum > 1.0 then Sell else Buy;
        Some(ArbitrageSignal(
          market.id,
          spread,
          spread,
          recommendedSide,
          mq.yesPrice(market),
          mq.noPrice(market)))
    }
  }

  /** YES at 0.48 and NO at 0.47 with a spread of 0.05 against a 0.02
      threshold: an underpriced basket, so the signal says buy. */
  lemma UnderpricedBasketExample(mq: MarketQueries, market: Market)
    requires mq.yesPrice(market) == 0.48 && mq.noPrice(market) == 0.47
    requires mq.getSpread(market) == 0.05
    ensures ConstraintChecker(0.02).CheckViolation(mq, market).Some?
    ensures ConstraintChecker(0.02).CheckViolation(mq, market).value.recommendedSide == Buy
  {
  }
}
