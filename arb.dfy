/** Scanning markets for violations and the profit gate that admits a trade
    (polyshark/src/arb.rs). */
module Arb {
  import opened Types
  import opened Constraint

  /** A market the detector looks at: live and taking orders. */
  predicate Eligible(market: Market) {
    market.active && market.acceptingOrders
  }

  datatype ArbitrageDetector = ArbitrageDetector(constraintChecker: ConstraintChecker, minProfitThreshold: real) {

    /** The signals of the eligible markets that violate the constraint, in
        the order of the markets. */
    function Scan(mq: MarketQueries, markets: seq<Market>): (signals: seq<ArbitrageSignal>)
      ensures |signals| <= |markets|
      ensures forall s :: s in signals ==> s.spread > constraintChecker.minSpreadThreshold
      ensures forall s :: s in signals ==>
        exists m :: m in markets && Eligible(m) && constraintChecker.CheckViolation(mq, m) == Some(s)
    {
      if markets == [] then
        []
      else
        var market := markets[0];
        var rest := Scan(mq, markets[1..]);
        assert forall m :: m in markets[1..] ==> m in markets;
        if Eligible(market) then
          match constraintChecker.CheckViolation(mq, market)
          case Some(signal) => [signal] + rest
          case None => rest
        else
          rest
    }

    /** Profit expected from trading `size` on the signal: the gross edge,
        less the fee on both legs (priced at the YES leg) and the slippage. */
    function ExpectedProfit(signal: ArbitrageSignal, size: real, feeRate: real, slippage: real): (profit: real)
      ensures profit == size * (signal.edge - 2.0 * signal.yesPrice * feeRate - slippage)
      ensures size == 0.0 ==> profit == 0.0
    {
      var gross := signal.edge * size;
      var feeCost := size * signal.yesPrice * feeRate * 2.0;
      var slippageCost := size * slippage;
      gross - feeCost - slippageCost
    }

    /** The gate: trade only when the expected profit is strictly above the
        configured minimum. */
    function ShouldTrade(signal: ArbitrageSignal, size: real, feeRate: real, slippage: real): (admit: bool)
      ensures admit <==> ExpectedProfit(signal, size, feeRate, slippage) > minProfitThreshold
      ensures admit ==> size != 0.0 || minProfitThreshold < 0.0
    {
      ExpectedProfit(signal, size, feeRate, slippage) > minProfitThreshold
    }
  }

  /** A detector with the given spread and profit thresholds. */
  function New(minSpread: real, minProfit: real): (detector: ArbitrageDetector)
    ensures detector.constraintChecker.minSpreadThreshold == minSpread
    ensures detector.minProfitThreshold == minProfit
  {
    ArbitrageDetector(ConstraintChecker(minSpread), minProfit)
  }

  /** `signals[k]` is the signal of the eligible market `idx[k]`. */
  ghost predicate ComesFrom(d: ArbitrageDetector, mq: MarketQueries, markets: seq<Market>,
                            signals: seq<ArbitrageSignal>, idx: seq<nat>)
  {
    && |idx| == |signals|
    && forall k :: 0 <= k < |idx| ==>
         && idx[k] < |markets|
         && Eligible(markets[idx[k]])
         && d.constraintChecker.CheckViolation(mq, markets[idx[k]]) == Some(signals[k])
  }

  /** The indices strictly increase: input order is kept and no market
      yields two signals. */
  ghost predicate Increasing(idx: seq<nat>) {
    forall k, l :: 0 <= k < l < |idx| ==> idx[k] < idx[l]
  }

  /** Every eligible market that violates the constraint is among the indices. */
  ghost predicate Covers(d: ArbitrageDetector, mq: MarketQueries, markets: seq<Market>, idx: seq<nat>) {
    forall i :: 0 <= i < |markets| && Eligible(markets[i]) && d.constraintChecker.CheckViolation(mq, markets[i]).Some? ==>
      i in idx
  }

  /** Scan is exactly filter-then-filter_map: its output is the sequence of
      signals of the eligible violating markets, each once, in input order. */
  lemma {:induction false} ScanOrigins(d: ArbitrageDetector, mq: MarketQueries, markets: seq<Market>)
    returns (idx: seq<nat>)
    ensures ComesFrom(d, mq, markets, d.Scan(mq, markets), idx)
    ensures Increasing(idx)
    ensures Covers(d, mq, markets, idx)
  {
    if markets == [] {
      idx := [];
    } else {
      var tail := ScanOrigins(d, mq, markets[1..]);
      var shifted := Shift(tail);
      var market := markets[0];
      idx := if Emits(d, mq, market) then [0] + shifted else shifted;
      StepComesFrom(d, mq, markets, tail, idx);
      StepIncreasing(d, mq, markets, tail, idx);
      StepCovers(d, mq, markets, tail, idx);
    }
  }

  /** Every index moved up by one. */
  function Shift(idx: seq<nat>): (shifted: seq<nat>)
    ensures |shifted| == |idx|
    ensures forall k :: 0 <= k < |idx| ==> shifted[k] == idx[k] + 1
  {
    seq(|idx|, k requires 0 <= k < |idx| => idx[k] + 1)
  }

  /** Whether Scan takes a signal from this market. */
  function Emits(d: ArbitrageDetector, mq: MarketQueries, market: Market): bool {
    Eligible(market) && d.constraintChecker.CheckViolation(mq, market).Some?
  }

  /** The inductive step of ScanOrigins, for ComesFrom. */
  lemma StepComesFrom(d: ArbitrageDetector, mq: MarketQueries, markets: seq<Market>, tail: seq<nat>, idx: seq<nat>)
    requires markets != []
    requires ComesFrom(d, mq, markets[1..], d.Scan(mq, markets[1..]), tail)
    requires idx == if Emits(d, mq, markets[0]) then [0] + Shift(tail) else Shift(tail)
    ensures ComesFrom(d, mq, markets, d.Scan(mq, markets), idx)
  {
    var rest := d.Scan(mq, markets[1..]);
    ShiftComesFrom(d, mq, markets, rest, tail);
    if Emits(d, mq, markets[0]) {
      var signal := d.constraintChecker.CheckViolation(mq, markets[0]).value;
      assert d.Scan(mq, markets) == [signal] + rest;
      ConsComesFrom(d, mq, markets, rest, Shift(tail), signal);
    } else {
      assert d.Scan(mq, markets) == rest;
    }
  }

  /** Origins in the tail of the markets, moved up by one, are origins in the whole. */
  lemma ShiftComesFrom(d: ArbitrageDetector, mq: MarketQueries, markets: seq<Market>,
                       signals: seq<ArbitrageSignal>, tail: seq<nat>)
    requires markets != []
    requires ComesFrom(d, mq, markets[1..], signals, tail)
    ensures ComesFrom(d, mq, markets, signals, Shift(tail))
  {
    var idx := Shift(tail);
    forall k | 0 <= k < |idx|
      ensures idx[k] < |markets| && Eligible(markets[idx[k]])
      ensures d.constraintChecker.CheckViolation(mq, markets[idx[k]]) == Some(signals[k])
    {
      assert markets[1..][tail[k]] == markets[idx[k]];
    }
  }

  /** A signal of the first market, put in front, has origin 0. */
  lemma ConsComesFrom(d: ArbitrageDetector, mq: MarketQueries, markets: seq<Market>,
                      signals: seq<ArbitrageSignal>, idx: seq<nat>, signal: ArbitrageSignal)
    requires markets != [] && Eligible(markets[0])
    requires d.constraintChecker.CheckViolation(mq, markets[0]) == Some(signal)
    requires ComesFrom(d, mq, markets, signals, idx)
    ensures ComesFrom(d, mq, markets, [signal] + signals, [0] + idx)
  {
    forall k | 0 < k <= |idx|
      ensures ([0] + idx)[k] == idx[k - 1] && ([signal] + signals)[k] == signals[k - 1]
    {
    }
  }

  /** The inductive step of ScanOrigins, for Increasing. */
  lemma StepIncreasing(d: ArbitrageDetector, mq: MarketQueries, markets: seq<Market>, tail: seq<nat>, idx: seq<nat>)
    requires markets != []
    requires Increasing(tail)
    requires idx == if Emits(d, mq, markets[0]) then [0] + Shift(tail) else Shift(tail)
    ensures Increasing(idx)
  {
  }

  /** The inductive step of ScanOrigins, for Covers. */
  lemma StepCovers(d: ArbitrageDetector, mq: MarketQueries, markets: seq<Market>, tail: seq<nat>, idx: seq<nat>)
    requires markets != []
    requires Covers(d, mq, markets[1..], tail)
    requires idx == if Emits(d, mq, markets[0]) then [0] + Shift(tail) else Shift(tail)
    ensures Covers(d, mq, markets, idx)
  {
    var head := if Emits(d, mq, markets[0]) then 1 else 0;
    forall i | 0 <= i < |markets| && Eligible(markets[i]) && d.constraintChecker.CheckViolation(mq, markets[i]).Some?
      ensures i in idx
    {
      if i > 0 {
        assert markets[1..][i - 1] == markets[i];
        var k :| 0 <= k < |tail| && tail[k] == i - 1;
        assert idx[k + head] == i;
      }
    }
  }

  /** Scanning two batches of markets one after the other gives the same
      signals as scanning them together. */
  lemma {:induction false} ScanAppend(d: ArbitrageDetector, mq: MarketQueries, a: seq<Market>, b: seq<Market>)
    ensures d.Scan(mq, a + b) == d.Scan(mq, a) + d.Scan(mq, b)
  {
    if a == [] {
      assert a + b == b;
    } else {
      assert (a + b)[0] == a[0];
      assert (a + b)[1..] == a[1..] + b;
      ScanAppend(d, mq, a[1..], b);
    }
  }

  /** With a non-negative size and YES price, higher fees or higher slippage
      never raise the expected profit. */
  lemma ExpectedProfitAntitone(d: ArbitrageDetector, signal: ArbitrageSignal, size: real,
                               feeRate1: real, feeRate2: real, slippage1: real, slippage2: real)
    requires 0.0 <= size && 0.0 <= signal.yesPrice
    requires feeRate1 <= feeRate2 && slippage1 <= slippage2
    ensures d.ExpectedProfit(signal, size, feeRate2, slippage2) <= d.ExpectedProfit(signal, size, feeRate1, slippage1)
  {
    var extra := 2.0 * signal.yesPrice * (feeRate2 - feeRate1) + (slippage2 - slippage1);
    assert 0.0 <= extra;
    assert 0.0 <= size * extra;
    assert d.ExpectedProfit(signal, size, feeRate1, slippage1) - d.ExpectedProfit(signal, size, feeRate2, slippage2)
        == size * extra;
  }

  /** A trade the gate admits is still admitted when it costs less. */
  lemma CheaperTradeAlsoAdmitted(d: ArbitrageDetector, signal: ArbitrageSignal, size: real,
                                 feeRate1: real, feeRate2: real, slippage1: real, slippage2: real)
    requires 0.0 <= size && 0.0 <= signal.yesPrice
    requires feeRate1 <= feeRate2 && slippage1 <= slippage2
    requires d.ShouldTrade(signal, size, feeRate2, slippage2)
    ensures d.ShouldTrade(signal, size, feeRate1, slippage1)
  {
    ExpectedProfitAntitone(d, signal, size, feeRate1, feeRate2, slippage1, slippage2);
  }

  /** Edge 0.05 on 100 units at a YES price of 0.475, 2% fees and 1%
      slippage: 5.00 - 1.90 - 1.00 = 2.10, admitted above a zero threshold. */
  lemma ProfitGateExample(signal: ArbitrageSignal)
    requires signal.edge == 0.05 && signal.yesPrice == 0.475
    ensures New(0.02, 0.0).ExpectedProfit(signal, 100.0, 0.02, 0.01) == 2.1
    ensures New(0.02, 0.0).ShouldTrade(signal, 100.0, 0.02, 0.01)
  {
  }
}
