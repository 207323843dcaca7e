/** The simulated cash ledger: a USDC balance, open positions by token, fee
    and trade counters, and the starting balance PnL is measured against
    (polyshark/src/wallet.rs). */
module Ledger {
  import opened Types

  datatype Position = Position(
    tokenId: string,
    side: Side,
    size: real,
    entryPrice: real,
    entryTime: U64)

  /** Realised profit of closing `pos` at `exitPrice`: a long (Buy) gains
      when the price has risen, a short (Sell) when it has fallen, by the
      price move times the size. */
  function PositionPnl(pos: Position, exitPrice: real): (pnl: real)
    ensures exitPrice == pos.entryPrice ==> pnl == 0.0
    ensures 0.0 < pos.size ==>
      (0.0 < pnl <==> (pos.side == Buy && exitPrice > pos.entryPrice) || (pos.side == Sell && exitPrice < pos.entryPrice))
    ensures pos.side == Buy ==> pnl + pos.entryPrice * pos.size == exitPrice * pos.size
    ensures pos.side == Sell ==> pnl + exitPrice * pos.size == pos.entryPrice * pos.size
  {
    match pos.side
    case Buy => (exitPrice - pos.entryPrice) * pos.size
    case Sell => (pos.entryPrice - exitPrice) * pos.size
  }

  /** For the same position and exit, a long and a short realise opposite PnL. */
  lemma OppositeSidesOppositePnl(pos: Position, exitPrice: real)
    ensures PositionPnl(pos.(side := Buy), exitPrice) == -PositionPnl(pos.(side := Sell), exitPrice)
  {
  }

  /** The current price of a token; a token without a quote counts as 0. */
  function MarkPrice(prices: map<string, real>, tokenId: string): real {
    if tokenId in prices then prices[tokenId] else 0.0
  }

  /** Marked value of the position held under `tokenId`. */
  function MarkValue(positions: map<string, Position>, prices: map<string, real>, tokenId: string): real
    requires tokenId in positions
  {
    positions[tokenId].size * MarkPrice(prices, tokenId)
  }

  /** Sum of the marked values of the positions under `tokens`, in any order. */
  ghost function SumOver(positions: map<string, Position>, prices: map<string, real>, tokens: set<string>): real
    requires tokens <= positions.Keys
    decreases tokens
  {
    if tokens == {} then 0.0
    else
      var t :| t in tokens;
      MarkValue(positions, prices, t) + SumOver(positions, prices, tokens - {t})
  }

  /** Marked value of all open positions. */
  ghost function PositionValue(positions: map<string, Position>, prices: map<string, real>): real {
    SumOver(positions, prices, positions.Keys)
  }

  /** The sum does not depend on which token it takes first. */
  lemma {:induction false} SumOverRemove(positions: map<string, Position>, prices: map<string, real>,
                                         tokens: set<string>, t: string)
    requires tokens <= positions.Keys && t in tokens
    ensures SumOver(positions, prices, tokens)
         == MarkValue(positions, prices, t) + SumOver(positions, prices, tokens - {t})
    decreases tokens
  {
    var u :| u in tokens && SumOver(positions, prices, tokens)
                          == MarkValue(positions, prices, u) + SumOver(positions, prices, tokens - {u});
    if u != t {
      SumOverRemove(positions, prices, tokens - {u}, t);
      SumOverRemove(positions, prices, tokens - {t}, u);
      assert tokens - {u} - {t} == tokens - {t} - {u};
    }
  }

  /** Two ledgers that hold the same positions under `tokens` give them the same value. */
  lemma {:induction false} SumOverAgree(p1: map<string, Position>, p2: map<string, Position>,
                                        prices: map<string, real>, tokens: set<string>)
    requires tokens <= p1.Keys && tokens <= p2.Keys
    requires forall t :: t in tokens ==> p1[t] == p2[t]
    ensures SumOver(p1, prices, tokens) == SumOver(p2, prices, tokens)
    decreases tokens
  {
    if tokens != {} {
      var u :| u in tokens && SumOver(p1, prices, tokens)
                            == MarkValue(p1, prices, u) + SumOver(p1, prices, tokens - {u});
      assert MarkValue(p1, prices, u) == MarkValue(p2, prices, u);
      SumOverRemove(p2, prices, tokens, u);
      SumOverAgree(p1, p2, prices, tokens - {u});
    }
  }

  /** Removing a position takes exactly its marked value out of the total. */
  lemma RemoveValue(positions: map<string, Position>, prices: map<string, real>, tokenId: string)
    requires tokenId in positions
    ensures PositionValue(positions, prices)
         == positions[tokenId].size * MarkPrice(prices, tokenId) + PositionValue(positions - {tokenId}, prices)
  {
    var rest := positions - {tokenId};
    SumOverRemove(positions, prices, positions.Keys, tokenId);
    assert rest.Keys == positions.Keys - {tokenId};
    SumOverAgree(positions, rest, prices, rest.Keys);
  }

  /** Inserting a position, or overwriting the one under the same token,
      replaces that token's contribution by the new position's marked value. */
  lemma InsertValue(positions: map<string, Position>, prices: map<string, real>, tokenId: string, pos: Position)
    ensures PositionValue(positions[tokenId := pos], prices)
         == pos.size * MarkPrice(prices, tokenId) + PositionValue(positions - {tokenId}, prices)
  {
    RemoveValue(positions[tokenId := pos], prices, tokenId);
    assert positions[tokenId := pos] - {tokenId} == positions - {tokenId};
  }

  /** With non-negative sizes and prices the open positions are worth
      something non-negative. */
  lemma {:induction false} SumOverNonNegative(positions: map<string, Position>, prices: map<string, real>,
                                              tokens: set<string>)
    requires tokens <= positions.Keys
    requires forall t :: t in tokens ==> 0.0 <= positions[t].size && 0.0 <= MarkPrice(prices, t)
    ensures 0.0 <= SumOver(positions, prices, tokens)
    decreases tokens
  {
    if tokens != {} {
      var u :| u in tokens && SumOver(positions, prices, tokens)
                            == MarkValue(positions, prices, u) + SumOver(positions, prices, tokens - {u});
      assert 0.0 <= MarkValue(positions, prices, u);
      SumOverNonNegative(positions, prices, tokens - {u});
    }
  }

  class Wallet {
    var usdc: real
    var positions: map<string, Position>
    const startingBalance: real
    var totalFeesPaid: real
    var totalTrades: nat
    var winningTrades: nat

    /** Object invariant: no more wins than trades, and each position is
        filed under its own token. */
    ghost predicate Valid()
      reads this`winningTrades, this`totalTrades, this`positions
    {
      && winningTrades <= totalTrades
      && forall t :: t in positions ==> positions[t].tokenId == t
    }

    /** A fresh wallet holding only its starting balance, which is then its PnL baseline. */
    constructor (startingBalance: real)
      ensures Valid()
      ensures usdc == startingBalance && this.startingBalance == startingBalance
      ensures positions == map[] && totalFeesPaid == 0.0
      ensures totalTrades == 0 && winningTrades == 0
      ensures forall prices :: Pnl(prices) == 0.0
    {
      usdc := startingBalance;
      positions := map[];
      this.startingBalance := startingBalance;
      totalFeesPaid := 0.0;
      totalTrades := 0;
      winningTrades := 0;
    }

    /** Whether paying `amount` would leave the balance non-negative. */
    function CanAfford(amount: real): (affordable: bool)
      reads this`usdc
      ensures affordable <==> 0.0 <= usdc - amount
    {
      usdc >= amount
    }

    /** Pays `amount` if it is affordable; otherwise changes nothing. */
    method Deduct(amount: real) returns (paid: bool)
      modifies this`usdc
      ensures paid == old(CanAfford(amount))
      ensures usdc == if paid then old(usdc) - amount else old(usdc)
      ensures paid ==> 0.0 <= usdc
    {
      if CanAfford(amount) {
        usdc := usdc - amount;
        paid := true;
      } else {
        paid := false;
      }
    }

    /** Adds `amount` to the balance and touches nothing else. */
    method Credit(amount: real)
      modifies this`usdc
      ensures usdc == old(usdc) + amount
    {
      usdc := usdc + amount;
    }

    /** Adds `fee` to the fees paid and touches nothing else. */
    method RecordFee(fee: real)
      modifies this`totalFeesPaid
      ensures totalFeesPaid == old(totalFeesPaid) + fee
    {
      totalFeesPaid := totalFeesPaid + fee;
    }

    /** Counts one more trade, and one more win when it won. */
    method RecordTrade(isWinner: bool)
      requires Valid()
      modifies this`totalTrades, this`winningTrades
      ensures Valid()
      ensures totalTrades == old(totalTrades) + 1
      ensures winningTrades == old(winningTrades) + if isWinner then 1 else 0
    {
      totalTrades := totalTrades + 1;
      if isWinner {
        winningTrades := winningTrades + 1;
      }
    }

    /** Cash plus the marked value of every open position. */
    ghost function Equity(prices: map<string, real>): (equity: real)
      reads this
      ensures positions == map[] ==> equity == usdc
      ensures (forall t :: t in positions ==> 0.0 <= positions[t].size && 0.0 <= MarkPrice(prices, t))
              ==> usdc <= equity
    {
      var value := PositionValue(positions, prices);
      assert positions == map[] ==> value == 0.0 by {
        assert positions == map[] ==> positions.Keys == {};
      }
      assert (forall t :: t in positions ==> 0.0 <= positions[t].size && 0.0 <= MarkPrice(prices, t))
             ==> 0.0 <= value by {
        if forall t :: t in positions ==> 0.0 <= positions[t].size && 0.0 <= MarkPrice(prices, t) {
          SumOverNonNegative(positions, prices, positions.Keys);
        }
      }
      usdc + value
    }

    /** Gain or loss of equity against the starting balance. */
    ghost function Pnl(prices: map<string, real>): (pnl: real)
      reads this
      ensures pnl + startingBalance == Equity(prices)
    {
      Equity(prices) - startingBalance
    }

    /** Share of recorded trades that won; 0 before any trade. */
    function WinRate(): (rate: real)
      reads this
      ensures totalTrades == 0 ==> rate == 0.0
      ensures totalTrades > 0 ==> rate * totalTrades as real == winningTrades as real
      ensures Valid() ==> 0.0 <= rate <= 1.0
    {
      if totalTrades == 0 then 0.0 else winningTrades as real / totalTrades as real
    }

    /** Files a position under `tokenId`, replacing any position already
        there; cash and the other positions stay as they are. */
    method OpenPosition(tokenId: string, side: Side, size: real, price: real, timestamp: U64)
      requires Valid()
      modifies this`positions
      ensures Valid()
      ensures positions == old(positions)[tokenId := Position(tokenId, side, size, price, timestamp)]
    {
      positions := positions[tokenId := Position(tokenId, side, size, price, timestamp)];
    }

    /** Closes the position under `tokenId` at `exitPrice`: removes it,
        credits its size times the exit price and returns its realised PnL.
        Without such a position, returns None and changes nothing. Closing
        at the marked price leaves equity as it was. */
    method ClosePosition(tokenId: string, exitPrice: real) returns (pnl: Option<real>)
      requires Valid()
      modifies this`positions, this`usdc
      ensures Valid()
      ensures tokenId !in old(positions) ==>
        pnl == None && positions == old(positions) && usdc == old(usdc)
      ensures tokenId in old(positions) ==>
        && pnl == Some(PositionPnl(old(positions)[tokenId], exitPrice))
        && positions == old(positions) - {tokenId}
        && usdc == old(usdc) + old(positions)[tokenId].size * exitPrice
      ensures forall prices :: MarkPrice(prices, tokenId) == exitPrice ==> Equity(prices) == old(Equity(prices))
    {
      if tokenId in positions {
        var pos := positions[tokenId];
        positions := positions - {tokenId};
        var realised := PositionPnl(pos, exitPrice);
        Credit(pos.size * exitPrice);
        pnl := Some(realised);
        forall prices | MarkPrice(prices, tokenId) == exitPrice
          ensures Equity(prices) == old(Equity(prices))
        {
          RemoveValue(old(positions), prices, tokenId);
        }
      } else {
        pnl := None;
      }
    }
  }
}
