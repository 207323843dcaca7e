/** Basis-point fee model (polyshark/src/fees.rs). */
module Fees {
  import opened Types

  /** Maker and taker fees in basis points (1 bp = 1/10000). */
  datatype FeeModel = FeeModel(makerFeeBps: U32, takerFeeBps: U32) {

    /** Fee on a trade of the given notional: the maker or the taker rate,
        as a fraction, times the notional. */
    function Calculate(notional: real, isMaker: bool): (fee: real)
      ensures fee * 10000.0 == notional * (if isMaker then makerFeeBps else takerFeeBps) as real
      ensures !isMaker ==> fee == notional * TakerRate()
      ensures 0.0 <= notional ==> 0.0 <= fee
    {
      var bps := if isMaker then makerFeeBps else takerFeeBps;
      notional * (bps as real / 10000.0)
    }

    /** The taker fee as a fraction of the notional. */
    function TakerRate(): (rate: real)
      ensures 0.0 <= rate && rate * 10000.0 == takerFeeBps as real
    {
      takerFeeBps as real / 10000.0
    }
  }

  /** The fee model of a market takes its two rates over unchanged. */
  function FromMarket(market: Market): (model: FeeModel)
    ensures model.makerFeeBps == market.makerBaseFee
    ensures model.takerFeeBps == market.takerBaseFee
  {
    FeeModel(market.makerBaseFee, market.takerBaseFee)
  }

  /** The fee is linear in the notional: fees of two parts add up to the fee
      of the whole. */
  lemma FeeIsLinear(model: FeeModel, a: real, b: real, isMaker: bool)
    ensures model.Calculate(a + b, isMaker) == model.Calculate(a, isMaker) + model.Calculate(b, isMaker)
  {
  }

  /** A larger notional never carries a smaller fee. */
  lemma FeeIsMonotone(model: FeeModel, a: real, b: real, isMaker: bool)
    requires a <= b
    ensures model.Calculate(a, isMaker) <= model.Calculate(b, isMaker)
  {
    FeeIsLinear(model, a, b - a, isMaker);
    assert model.Calculate(b - a, isMaker) >= 0.0;
  }

  /** A market's taker fee, charged through its fee model. */
  lemma MarketTakerFee(market: Market, notional: real)
    ensures FromMarket(market).Calculate(notional, false) * 10000.0 == notional * market.takerBaseFee as real
  {
  }

  /** 200 bp on a notional of 100 is a fee of 2. */
  lemma TakerFeeExample()
    ensures FeeModel(0, 200).Calculate(100.0, false) == 2.0
  {
  }
}
