# PolyShark core, modelled in Dafny

PolyShark simulates arbitrage on Polymarket binary markets. The two leg
prices of a market (YES and NO) should sum to 1. The detector turns a
deviation beyond a threshold into an `ArbitrageSignal`. A profit gate
decides whether a trade is worth taking. The execution engine then fills
the order against an order book and charges a simulated USDC wallet.

The Dafny project models this core, one module per source file:

- `Types` (types.dfy): the data declarations. `Side` is a closed two-case
  datatype. Price-level sizes and timestamps are `U64` and market fees are
  `U32`, both subset types of non-negative integers. `best_bid` and
  `best_ask` are `Option`s. An `ArbitrageSignal` carries exactly two leg
  prices. `Trade` is declared too.
- `Ledger` (wallet.dfy): the wallet as a class. Its fields are updated in
  place, and each method's `modifies` clause names the only fields it
  changes. The object invariant `Valid()` says there are no more wins than
  trades and that each position is filed under its own token.
- `Fees` (fees.dfy), `FillModel` (fills.dfy), `SlippageModel`
  (slippage.dfy): the cost models, as pure functions.
- `Constraint` (constraint.dfy) and `Arb` (arb.dfy): the violation check,
  the market scan and the profit gate.
- `Execution` (execution.dfy): `Execute`, an imperative method of the
  `ExecutionEngine` datatype. It takes a `Wallet` and changes it in place,
  and it is specified against the pure function `Quote`, which covers
  the fill, the price and the cost. The wallet changes all or nothing.

All `f64` arithmetic is exact `real` arithmetic here. The contracts
describe the intended arithmetic, not IEEE-754 rounding.

The source calls some order-book and market helpers whose definitions are
not part of this model: `execution_price`, `midpoint`,
`total_ask_liquidity`, `total_bid_liquidity`, `get_spread`, `yes_price` and
`no_price`. They are passed in as the function-valued fields of
`BookQueries` and `MarketQueries`. Two things are assumed about them:
liquidity is never negative (its type is `NonNegReal`), and the midpoint,
when there is one, is not 0. `Quote`, `Settle`, `Execute`,
`SlippageModel.Calculate` and `SlippageModel.SignedSlippage` require the
second.

`ExecutionEngine::new`, `ConstraintChecker::new` and `FeeModel`'s field
initialisation are the datatype constructors `ExecutionEngine(..)`,
`ConstraintChecker(..)` and `FeeModel(..)`. Scan is a function, so equal
market slices always give equal signals.

The model follows the code as written:

- `execute` deducts the cost and records the fee, but it opens no position.
- `SlippageModel::calculate` is signed. Only `execute` takes the absolute
  value.
- Cash is kept non-negative only by `deduct`. `Wallet::new` and `credit`
  accept any amount, so cash ≥ 0 is not part of `Valid()`. Instead,
  `Deduct` and `Execute` are proved to keep a non-negative balance
  non-negative.
- The detector works on the two legs of a binary market, YES and NO.

## Model

| member | source | states |
|---|---|---|
| `Ledger.Wallet.constructor` | polyshark/src/wallet.rs:27-36 | A new wallet has the starting balance as cash and as baseline, no positions, no fees, zero trade and win counters. Its PnL is 0 at any prices. |
| `Ledger.Wallet.CanAfford` | polyshark/src/wallet.rs:39-41 | Affordable exactly when paying the amount would leave a non-negative balance. |
| `Ledger.Wallet.Deduct` | polyshark/src/wallet.rs:44-51 | Returns true exactly when affordable. Then cash drops by exactly the amount and stays ≥ 0. Otherwise nothing changes. Only `usdc` may change. |
| `Ledger.Wallet.Credit` | polyshark/src/wallet.rs:54-56 | Cash rises by the amount. No other field changes. |
| `Ledger.Wallet.RecordFee` | polyshark/src/wallet.rs:59-61 | Fees paid rise by the fee. No other field changes. |
| `Ledger.Wallet.RecordTrade` | polyshark/src/wallet.rs:64-69 | Trades rise by 1, and wins rise by 1 exactly for a winner. wins ≤ trades is preserved. |
| `Ledger.Wallet.Equity` | polyshark/src/wallet.rs:72-80 | Equity is cash when there are no positions. With non-negative sizes and prices it is at least the cash. |
| `Ledger.Wallet.Pnl` | polyshark/src/wallet.rs:83-85 | PnL plus the starting balance is the equity. |
| `Ledger.Wallet.WinRate` | polyshark/src/wallet.rs:88-94 | 0 with no trades. Otherwise, times the trade count, it gives the win count. Under the invariant it lies in [0, 1]. |
| `Ledger.Wallet.OpenPosition` | polyshark/src/wallet.rs:97-105 | Inserts or overwrites the entry for that token only. Cash and the other entries are unchanged. The invariant is kept. |
| `Ledger.Wallet.ClosePosition` | polyshark/src/wallet.rs:108-119 | An absent token gives None and no change. Otherwise the position is removed, cash rises by size × exit price, and the PnL is returned. Closing at the marked price leaves equity unchanged. |
| `Ledger.PositionPnl` | polyshark/src/wallet.rs:110-113 | Zero when exiting at the entry price. For a positive size it is positive exactly when a long exits higher or a short exits lower. It equals the price move times the size, signed by side. |
| `Ledger.OppositeSidesOppositePnl` | polyshark/src/wallet.rs:110-113 | A long and a short with the same entry, size and exit realise opposite PnL. |
| `Ledger.SumOverRemove` | polyshark/src/wallet.rs:73-78 | The sum of position values does not depend on which token is summed first, so HashMap iteration order does not matter. |
| `Ledger.SumOverAgree` | polyshark/src/wallet.rs:73-78 | The position-value sum depends only on the positions under the summed tokens. |
| `Ledger.SumOverNonNegative` | polyshark/src/wallet.rs:73-78 | With non-negative sizes and prices, the position-value sum is non-negative. |
| `Ledger.RemoveValue` | polyshark/src/wallet.rs:73-79 | Removing a position takes exactly size × marked price (0 when unquoted) out of the position value. |
| `Ledger.InsertValue` | polyshark/src/wallet.rs:97-105 | After inserting or overwriting a position, the position value is that position's marked value plus the value of the other positions. |
| `Fees.FeeModel.Calculate` | polyshark/src/fees.rs:18-21 | Fee × 10000 = notional × bps, with the maker or the taker bps chosen by `is_maker`. A taker fee is notional × taker rate. The fee is non-negative for a non-negative notional. |
| `Fees.FeeModel.TakerRate` | polyshark/src/fees.rs:24-26 | The rate is non-negative, and rate × 10000 is the taker bps. |
| `Fees.FromMarket` | polyshark/src/fees.rs:10-15 | Copies the market's maker and taker base fees unchanged. |
| `Fees.FeeIsLinear` | polyshark/src/fees.rs:20 | The fee of a sum of notionals is the sum of their fees. |
| `Fees.FeeIsMonotone` | polyshark/src/fees.rs:20 | A larger notional never has a smaller fee. |
| `Fees.MarketTakerFee` | polyshark/src/fees.rs:10-21 | A market's taker fee × 10000 is notional × the market's taker base fee. |
| `Fees.TakerFeeExample` | polyshark/src/fees.rs:18-21 | 200 bp on a notional of 100 is a fee of 2. |
| `FillModel.Available` | polyshark/src/fills.rs:10-13 | A buy reads the total ask liquidity and a sell the total bid liquidity. |
| `FillModel.EstimateFillRatio` | polyshark/src/fills.rs:9-20 | The ratio lies in [0, 1]. It is 1 when the liquidity covers the size. Otherwise the size is positive, ratio × size is the liquidity, and the ratio is below 1. |
| `FillModel.FilledSize` | polyshark/src/fills.rs:23-26 | The filled size is at most the request and at most the liquidity. A positive request fills min(request, liquidity). The fill is positive exactly when the request and the liquidity both are. |
| `FillModel.PartialFillExample` | polyshark/src/fills.rs:9-26 | 1000 requested against 600 of asks gives a ratio of 0.6 and fills 600. |
| `SlippageModel.SignedSlippage` | polyshark/src/slippage.rs:13-16 | Slippage × midpoint is exec − mid for a buy and mid − exec for a sell. For a positive midpoint, slippage is positive exactly when the price is worse than the midpoint. |
| `SlippageModel.SellNegatesBuy` | polyshark/src/slippage.rs:13-16 | For the same prices, a sell's slippage is the exact negation of a buy's. |
| `SlippageModel.Calculate` | polyshark/src/slippage.rs:9-19 | None exactly when the midpoint or the execution price is missing. Otherwise it is the signed slippage of those two. |
| `SlippageModel.ExecutionCost` | polyshark/src/slippage.rs:22-25 | None exactly when the execution price is missing. Otherwise it is price × size. |
| `Constraint.ConstraintChecker.CheckViolation` | polyshark/src/constraint.rs:13-35 | None exactly when spread ≤ threshold. A signal has spread > threshold and edge = spread. It has the market's id and leg prices verbatim, and recommends Sell exactly when yes + no > 1 (Buy at a sum of exactly 1). |
| `Constraint.UnderpricedBasketExample` | polyshark/src/constraint.rs:13-35 | YES 0.48 and NO 0.47 with spread 0.05 over a 0.02 threshold give a Buy signal. |
| `Arb.New` | polyshark/src/arb.rs:9-14 | Stores the minimum spread in the constraint checker and the minimum profit as the gate threshold. |
| `Arb.ArbitrageDetector.Scan` | polyshark/src/arb.rs:17-22 | At most as many signals as markets. Every signal exceeds the spread threshold and is the check result of some active, order-accepting market. `ScanOrigins` proves that no market yields two signals and that the input order is kept. |
| `Arb.ScanOrigins` | polyshark/src/arb.rs:17-22 | The output is exactly the signals of the eligible violating markets, each once, in input order. The origin indices strictly increase and cover every such market. |
| `Arb.ScanAppend` | polyshark/src/arb.rs:17-22 | Scanning two batches in turn equals scanning their concatenation. |
| `Arb.ArbitrageDetector.ExpectedProfit` | polyshark/src/arb.rs:25-37 | Profit = size × (edge − 2 × yes_price × fee_rate − slippage). It is 0 at size 0. |
| `Arb.ArbitrageDetector.ShouldTrade` | polyshark/src/arb.rs:40-48 | Admits exactly when the expected profit is strictly above the threshold. A zero size is admitted only below a negative threshold. |
| `Arb.ExpectedProfitAntitone` | polyshark/src/arb.rs:32-36 | For size ≥ 0 and yes_price ≥ 0, expected profit is non-increasing in the fee rate and in the slippage. |
| `Arb.CheaperTradeAlsoAdmitted` | polyshark/src/arb.rs:40-48 | If the gate admits a trade, it also admits the same trade at a lower fee rate and slippage. |
| `Arb.ProfitGateExample` | polyshark/src/arb.rs:25-48 | Edge 0.05, size 100, YES 0.475, fee 2%, slippage 1% give 5.00 − 1.90 − 1.00 = 2.10, and the trade is admitted. |
| `Execution.ExecutionEngine.Quote` | polyshark/src/execution.rs:25-39 | None exactly when the fill is ≤ 0 or the execution price or midpoint is missing. Otherwise the result is successful. Its size is the FillModel filled size, in (0, requested]. Its price is the book's price for that size, its slippage is ≥ 0, and its fee and cost are settled as below. |
| `Execution.ExecutionEngine.Settle` | polyshark/src/execution.rs:34-39 | Slippage × abs(mid) is abs(exec − mid). The fee is the taker fee on exec × filled, and the total cost is that notional plus the fee. |
| `Execution.ExecutionEngine.Execute` | polyshark/src/execution.rs:18-58 | Returns the quote exactly when it exists and the wallet can afford its total cost. Then cash drops by exactly the total cost and fees rise by exactly the fee. On every rejection the wallet is unchanged. Positions and counters are never touched, and cash ≥ 0 before implies cash ≥ 0 after. |
| `Execution.QuoteAgreesWithCostModels` | polyshark/src/execution.rs:32-39 | The engine's slippage is the absolute value of `SlippageModel.Calculate` at the filled size. Its cost minus fee is `SlippageModel.ExecutionCost`, and the fee is the taker fee on that. |
| `Execution.QuoteTotalCost` | polyshark/src/execution.rs:37-39 | Total cost = exec price × filled size × (1 + taker rate). |

## Left out

- IEEE-754 behaviour of `f64`: rounding, NaN and infinities. All arithmetic is exact `real`.
- Execution.ExecutionEngine.Execute: requires the book's midpoint not to be 0. The source would divide by it and produce an infinity or NaN, which the model does not represent.
- Execution.ExecutionEngine.Quote: requires a midpoint other than 0, for the same reason.
- Execution.ExecutionEngine.Settle: requires a midpoint other than 0, for the same reason.
- SlippageModel.Calculate: requires a midpoint other than 0, for the same reason.
- SlippageModel.SignedSlippage: requires a midpoint other than 0, for the same reason.
- Ledger.Wallet.RecordTrade: the `u32` counters are unbounded `nat`s. A wrap or overflow panic after 2^32 − 1 trades is not modelled.
- Ledger.Wallet.Equity and Ledger.Wallet.Pnl are ghost functions. They sum over the position map in an unspecified order, and `SumOverRemove` shows that the order does not matter.
- The order-book and market helpers (`execution_price`, `midpoint`, `total_ask_liquidity`, `total_bid_liquidity`, `get_spread`, `yes_price`, `no_price`) have no definitions in the modelled files. They stay caller-supplied functions, so the book walk and the spread formula are not modelled.
- polyshark/src/main.rs is not part of this model. It only prints a banner, and its API and WebSocket clients are network I/O.
- Serde derives and serialisation carry no logic.
- Latency sampling, position sizing and mean-reversion exits do not appear in the modelled source.
