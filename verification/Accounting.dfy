/** The three profit-and-loss accountings: average cost in monitoring/performance.py and in
    strategy/optimizer.py, and cash flow in backtest/robustness.py. */
module Accounting {
  import opened Market
  import opened RealMath

  datatype Position = Position(qty: real, avg: real)

  const FLAT := Position(0.0, 0.0)

  /** The test `old_qty * qty > 0`. */
  predicate SameSide(x: real, y: real) {
    Mul(x, y) > 0.0
  }

  lemma SameSideMeansSigns(x: real, y: real)
    ensures SameSide(x, y) <==> (x > 0.0 && y > 0.0) || (x < 0.0 && y < 0.0)
  {
    if x > 0.0 {
      MulSign(x, y);
    } else if x < 0.0 {
      MulSign(-x, y);
    }
  }

  lemma MulSign(x: real, y: real)
    requires x > 0.0
    ensures x * y > 0.0 <==> y > 0.0
    ensures x * y < 0.0 <==> y < 0.0
  {
  }

  /** What adding does to the average: total cost over the new size. */
  function AddedAvg(p: Position, qty: real, price: real): real
    requires p.qty + qty != 0.0
  {
    (Mul(Abs(p.qty), p.avg) + Mul(Abs(qty), price)) / Abs(p.qty + qty)
  }

  /** Profit of closing as much of the position as the fill covers. */
  function ClosePnl(p: Position, qty: real, price: real): real {
    Mul(Mul(Min(Abs(p.qty), Abs(qty)), price - p.avg), if p.qty > 0.0 then 1.0 else -1.0)
  }

  /** What one fill does to an average-cost position: the new position, the realised profit and
      whether it closed anything. */
  function Apply(p: Position, qty: real, price: real): (Position, real, bool)
    requires p.qty != 0.0 || qty != 0.0
  {
    SameSideMeansSigns(p.qty, qty);
    if p.qty == 0.0 || SameSide(p.qty, qty) then
      (Position(p.qty + qty, AddedAvg(p, qty, price)), 0.0, false)
    else
      var newQty := p.qty + qty;
      var next := if newQty == 0.0 then FLAT
                  else if SameSide(p.qty, newQty) then Position(newQty, p.avg)
                  else Position(newQty, price);
      (next, ClosePnl(p, qty, price), true)
  }

  /** One fill keeps realised profit minus the position at cost in step with the cash paid. */
  lemma ApplyKeepsCost(p: Position, qty: real, price: real)
    requires p.qty != 0.0 || qty != 0.0
    ensures var (next, closePnl, closed) := Apply(p, qty, price);
      && next.qty == p.qty + qty
      && closePnl - Mul(next.qty, next.avg) == -Mul(p.qty, p.avg) - Mul(qty, price)
      && (closed <==> p.qty != 0.0 && !SameSide(p.qty, qty))
      && (!closed ==> closePnl == 0.0)
  {
    hide Mul, SameSide, AddedAvg, ClosePnl;
    SameSideMeansSigns(p.qty, qty);
    SameSideMeansSigns(p.qty, p.qty + qty);
    if p.qty == 0.0 || SameSide(p.qty, qty) {
      AddingCost(p, qty, price);
    } else {
      if Abs(qty) <= Abs(p.qty) {
        ReducingCost(p, qty, price);
      } else {
        CrossingCost(p, qty, price);
      }
      MulZero(0.0);
      MulZero(p.avg);
    }
  }

  lemma AddingCost(p: Position, qty: real, price: real)
    requires (p.qty == 0.0 && qty != 0.0) || (p.qty > 0.0 && qty > 0.0) || (p.qty < 0.0 && qty < 0.0)
    ensures p.qty + qty != 0.0
    ensures Mul(p.qty + qty, AddedAvg(p, qty, price)) == Mul(p.qty, p.avg) + Mul(qty, price)
  {
    var newQty := p.qty + qty;
    var cost := Mul(Abs(p.qty), p.avg) + Mul(Abs(qty), price);
    DivMul(cost, Abs(newQty));
    if newQty < 0.0 {
      NegatedProduct(newQty, cost / Abs(newQty));
      NegatedProduct(p.qty, p.avg);
      NegatedProduct(qty, price);
    }
  }

  lemma NegatedProduct(x: real, y: real)
    ensures Mul(-x, y) == -Mul(x, y)
  {
  }

  /** A fill no larger than the position leaves the average alone. */
  lemma ReducingCost(p: Position, qty: real, price: real)
    requires (p.qty > 0.0 && qty <= 0.0) || (p.qty < 0.0 && qty >= 0.0)
    requires Abs(qty) <= Abs(p.qty)
    ensures ClosePnl(p, qty, price) - Mul(p.qty + qty, p.avg) == -Mul(p.qty, p.avg) - Mul(qty, price)
  {
    assert ClosePnl(p, qty, price) == -(qty * (price - p.avg));
  }

  /** A larger one opens the other side at the fill price. */
  lemma CrossingCost(p: Position, qty: real, price: real)
    requires (p.qty > 0.0 && qty <= 0.0) || (p.qty < 0.0 && qty >= 0.0)
    requires Abs(qty) >= Abs(p.qty)
    ensures ClosePnl(p, qty, price) - Mul(p.qty + qty, price) == -Mul(p.qty, p.avg) - Mul(qty, price)
  {
    assert ClosePnl(p, qty, price) == p.qty * (price - p.avg);
  }

  // ---------- whole fill sequences ----------

  ghost predicate NonZero(fills: seq<Fill>) {
    forall i :: 0 <= i < |fills| ==> fills[i].qty != 0.0
  }

  /** Average-cost position of one symbol after the fills, and its realised profit. */
  ghost function PositionOf(fills: seq<Fill>, symbol: string): Position
    requires NonZero(fills)
  {
    if |fills| == 0 then FLAT
    else
      var f, before := fills[|fills| - 1], PositionOf(fills[..|fills| - 1], symbol);
      if f.symbol == symbol then Apply(before, f.qty, f.price).0 else before
  }

  ghost function RealizedOf(fills: seq<Fill>, symbol: string): real
    requires NonZero(fills)
  {
    if |fills| == 0 then 0.0
    else
      var f, n := fills[|fills| - 1], |fills| - 1;
      RealizedOf(fills[..n], symbol) +
        if f.symbol == symbol then Apply(PositionOf(fills[..n], symbol), f.qty, f.price).1 else 0.0
  }

  /** Cash received for the fills of one symbol, fees aside. */
  ghost function CashOf(fills: seq<Fill>, symbol: string): real {
    if |fills| == 0 then 0.0
    else
      var f := fills[|fills| - 1];
      CashOf(fills[..|fills| - 1], symbol) - if f.symbol == symbol then Mul(f.qty, f.price) else 0.0
  }

  function Fees(fills: seq<Fill>): real {
    if |fills| == 0 then 0.0 else Fees(fills[..|fills| - 1]) + fills[|fills| - 1].fee
  }

  function Slippages(fills: seq<Fill>): real {
    if |fills| == 0 then 0.0 else Slippages(fills[..|fills| - 1]) + fills[|fills| - 1].slippage
  }

  /** For every fill sequence and symbol, average-cost realised profit is the open position at
      cost plus the cash received, and the position is the net quantity bought. */
  lemma {:induction false} RealizedIsCashPlusCost(fills: seq<Fill>, symbol: string)
    requires NonZero(fills)
    ensures var p := PositionOf(fills, symbol);
      && p.qty == Traded(fills, symbol)
      && RealizedOf(fills, symbol) == Mul(p.qty, p.avg) + CashOf(fills, symbol)
  {
    MulZero(0.0);
    hide Mul, Apply;
    if |fills| > 0 {
      var n := |fills| - 1;
      RealizedIsCashPlusCost(fills[..n], symbol);
      if fills[n].symbol == symbol {
        ApplyKeepsCost(PositionOf(fills[..n], symbol), fills[n].qty, fills[n].price);
      }
    }
  }

  /** Profit of a position valued at a mark. */
  function Unrealized(p: Position, mark: real): real {
    if p.qty == 0.0 then 0.0 else Mul(p.qty, mark - p.avg)
  }

  /** Realised plus unrealised profit at a mark is the cash-flow profit at that mark. */
  lemma AverageCostIsCashFlow(fills: seq<Fill>, symbol: string, mark: real)
    requires NonZero(fills)
    ensures RealizedOf(fills, symbol) + Unrealized(PositionOf(fills, symbol), mark)
         == CashOf(fills, symbol) + Mul(Traded(fills, symbol), mark)
  {
    hide RealizedOf, CashOf, Traded, PositionOf, Mul;
    RealizedIsCashPlusCost(fills, symbol);
    UnrealizedSplits(PositionOf(fills, symbol), mark);
  }

  lemma UnrealizedSplits(p: Position, mark: real)
    ensures Unrealized(p, mark) == Mul(p.qty, mark) - Mul(p.qty, p.avg)
  {
  }

  // ---------- strategy/optimizer.py and backtest/robustness.py ----------

  class PositionState {
    var qty: real
    var avg: real

    constructor ()
      ensures qty == 0.0 && avg == 0.0
    {
      qty, avg := 0.0, 0.0;
    }

    /** `_apply_fill`. */
    method ApplyFill(fillQty: real, price: real) returns (closePnl: real, closed: bool)
      requires qty != 0.0 || fillQty != 0.0
      modifies this
      ensures var (next, pnl, closes) := Apply(Position(old(qty), old(avg)), fillQty, price);
        Position(qty, avg) == next && closePnl == pnl && closed == closes
    {
      hide Mul, SameSide;
      var oldQty, oldAvg := qty, avg;
      SameSideMeansSigns(oldQty, fillQty);
      if oldQty == 0.0 || SameSide(oldQty, fillQty) {
        var totalCost := Mul(Abs(oldQty), oldAvg) + Mul(Abs(fillQty), price);
        avg := totalCost / Abs(oldQty + fillQty);
        qty := oldQty + fillQty;
        return 0.0, false;
      }
      var closeQty := Min(Abs(oldQty), Abs(fillQty));
      var side := if oldQty > 0.0 then 1.0 else -1.0;
      closePnl := Mul(Mul(closeQty, price - oldAvg), side);
      closed := true;
      var newQty := oldQty + fillQty;
      if newQty == 0.0 {
        qty, avg := 0.0, 0.0;
      } else if SameSide(oldQty, newQty) {
        qty := newQty;
      } else {
        qty, avg := newQty, price;
      }
    }
  }

  ghost predicate OfSymbol(fills: seq<Fill>, symbol: string) {
    forall i :: 0 <= i < |fills| ==> fills[i].symbol == symbol
  }

  /** Net profit as the optimizer reports it: average cost, less fees, less slippage costs. */
  ghost function OptimizerNet(fills: seq<Fill>, symbol: string, last: real): real
    requires NonZero(fills)
  {
    RealizedOf(fills, symbol) + Unrealized(PositionOf(fills, symbol), last) - Fees(fills) - Slippages(fills)
  }

  /** The fill loop of `_evaluate` and its result. */
  method EvaluateAverageCost(fills: seq<Fill>, symbol: string, last: real) returns (net: real)
    requires NonZero(fills) && OfSymbol(fills, symbol)
    ensures net == OptimizerNet(fills, symbol, last)
  {
    hide Apply, Mul;
    var position := new PositionState();
    var realized, costs := 0.0, 0.0;
    for i := 0 to |fills|
      invariant fresh(position)
      invariant Position(position.qty, position.avg) == PositionOf(fills[..i], symbol)
      invariant realized == RealizedOf(fills[..i], symbol)
      invariant costs == Fees(fills[..i]) + Slippages(fills[..i])
    {
      assert fills[..i + 1][..i] == fills[..i];
      costs := costs + fills[i].fee + fills[i].slippage;
      ApplyKeepsCost(Position(position.qty, position.avg), fills[i].qty, fills[i].price);
      var closePnl, closed := position.ApplyFill(fills[i].qty, fills[i].price);
      if closed {
        realized := realized + closePnl;
      }
    }
    assert fills[..|fills|] == fills;
    var unrealized := if position.qty == 0.0 then 0.0 else Mul(position.qty, last - position.avg);
    net := realized + unrealized - costs;
  }

  /** Profit as `evaluate_strategy_metrics` reports it: cash flow less fees, position at the last price. */
  ghost function RobustnessPnl(fills: seq<Fill>, symbol: string, last: real): real {
    CashOf(fills, symbol) - Fees(fills) + Mul(Traded(fills, symbol), last)
  }

  method EvaluateCashFlow(fills: seq<Fill>, symbol: string, last: real) returns (pnl: real)
    requires OfSymbol(fills, symbol)
    ensures pnl == RobustnessPnl(fills, symbol, last)
  {
    hide Mul;
    var position, cash := 0.0, 0.0;
    for i := 0 to |fills|
      invariant position == Traded(fills[..i], symbol)
      invariant cash == CashOf(fills[..i], symbol) - Fees(fills[..i])
    {
      assert fills[..i + 1][..i] == fills[..i];
      position := position + fills[i].qty;
      cash := cash - Mul(fills[i].qty, fills[i].price);
      cash := cash - fills[i].fee;
    }
    assert fills[..|fills|] == fills;
    pnl := cash + Mul(position, last);
  }

  /** On the same fills and last price the optimizer's net profit is the robustness profit less
      the total slippage cost. */
  lemma NetIsPnlLessSlippage(fills: seq<Fill>, symbol: string, last: real)
    requires NonZero(fills)
    ensures OptimizerNet(fills, symbol, last) == RobustnessPnl(fills, symbol, last) - Slippages(fills)
  {
    hide RealizedOf, CashOf, Traded, PositionOf, Mul, Unrealized;
    AverageCostIsCashFlow(fills, symbol, last);
  }

  /** Fills priced as the paper executor prices them: the slippage cost is what the fill price
      adds over the requested price. */
  ghost predicate SlippageInPrice(fills: seq<Fill>) {
    forall i :: 0 <= i < |fills| ==> fills[i].slippage == Mul(fills[i].qty, fills[i].price - fills[i].requested)
  }

  /** Cash flow had every fill traded at its requested price. */
  ghost function RequestedCash(fills: seq<Fill>): real {
    if |fills| == 0 then 0.0
    else RequestedCash(fills[..|fills| - 1]) - Mul(fills[|fills| - 1].qty, fills[|fills| - 1].requested)
  }

  lemma {:induction false} CashPaysSlippage(fills: seq<Fill>, symbol: string)
    requires OfSymbol(fills, symbol) && SlippageInPrice(fills)
    ensures CashOf(fills, symbol) == RequestedCash(fills) - Slippages(fills)
  {
    hide Mul;
    if |fills| > 0 {
      var n := |fills| - 1;
      CashPaysSlippage(fills[..n], symbol);
      MulDistributes(fills[n].qty, fills[n].price, fills[n].requested);
    }
  }

  /** Hence on executor fills the cash-flow profit bears the slippage once and the optimizer's net
      profit bears it twice. */
  lemma SlippageChargedTwice(fills: seq<Fill>, symbol: string, last: real)
    requires NonZero(fills) && OfSymbol(fills, symbol) && SlippageInPrice(fills)
    ensures var atRequested := RequestedCash(fills) + Mul(Traded(fills, symbol), last) - Fees(fills);
      && RobustnessPnl(fills, symbol, last) == atRequested - Slippages(fills)
      && OptimizerNet(fills, symbol, last) == atRequested - 2.0 * Slippages(fills)
  {
    hide RealizedOf, CashOf, Traded, PositionOf, Mul, Unrealized;
    NetIsPnlLessSlippage(fills, symbol, last);
    CashPaysSlippage(fills, symbol);
  }
}
