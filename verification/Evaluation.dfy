/** The two strategy evaluations that replay events through a paper executor of their own and then
    account for its fills: `evaluate_strategy_metrics` of backtest/robustness.py by cash flow, and
    `_evaluate` of strategy/optimizer.py by average cost. */
module Evaluation {
  import opened Accounting
  import opened Decimals
  import opened Market
  import opened Oms
  import opened Paper = PaperExecutor
  import opened RealMath
  import opened Replay
  import opened Sorting
  import opened Values

  datatype EvaluationError = NonPositiveEquity | NoEvents | NegativeBps | Trade(error: ExecutionError)

  function HasSymbol(symbol: string): Event -> bool {
    (e: Event) => e.symbol == symbol
  }

  /** The events of one symbol in time order. */
  function EventsOf(events: seq<Event>, symbol: string): seq<Event> {
    StableSort(Filter(events, HasSymbol(symbol)), Time)
  }

  lemma EventsAreOwn(events: seq<Event>, symbol: string)
    ensures forall i :: 0 <= i < |EventsOf(events, symbol)| ==> EventsOf(events, symbol)[i].symbol == symbol
  {
    hide StableSort;
    SortSorts(Filter(events, HasSymbol(symbol)), Time);
    assert forall i :: 0 <= i < |EventsOf(events, symbol)| ==> EventsOf(events, symbol)[i] in EventsOf(events, symbol);
  }

  function SettingOf(feeBps: real, slippageBps: real, prefix: string, targets: nat -> real): Setting {
    Setting(Costs(feeBps / 10000.0, slippageBps / 10000.0), false, None, prefix, targets)
  }

  /** The fills of a replay on a fresh executor. */
  function FillsOf(z: Setting, es: seq<Event>): Result<seq<Fill>, ExecutionError> {
    ReplayUpTo(z, FRESH, es, |es|).1
  }

  // ---------- what the fills look like ----------

  /** A fill made at event price, its slippage cost included in its own price. */
  predicate Priced(f: Fill, symbol: string, mark: real) {
    && f.symbol == symbol && f.requested == mark && f.qty != 0.0
    && f.slippage == Mul(f.qty, f.price - f.requested)
  }

  /** The fills since, all at one price. */
  ghost predicate PricedSince(before: seq<Fill>, after: seq<Fill>, symbol: string, mark: real) {
    before <= after && forall j :: |before| <= j < |after| ==> Priced(after[j], symbol, mark)
  }

  lemma FillIsPriced(c: Costs, o: MarketOrder)
    requires c.Valid() && o.qty != 0.0 && o.mark > 0.0
    ensures Priced(FillOf(c, o), o.symbol, o.mark)
  {
    FillCarriesOrder(c, o);
    FillPaysSlippage(c, o);
  }

  lemma ExecutePriced(c: Costs, s: State, o: MarketOrder)
    requires c.Valid()
    ensures PricedSince(s.log, Execute(c, false, s, o).0.log, o.symbol, o.mark)
  {
    hide Execute, FillOf, Priced, Find;
    ExecuteEffect(c, false, s, o);
    if Execute(c, false, s, o).0 != s {
      FillIsPriced(c, o);
    }
  }

  lemma MovePriced(c: Costs, s: State, t: Retarget)
    requires c.Valid()
    ensures PricedSince(s.log, MoveToTarget(c, false, s, t).0.log, t.symbol, t.mark)
  {
    hide Execute, Priced, Retarget.SingleLeg;
    ExecutePriced(c, s, t.Single());
    var close := t.Close(s.Position(t.symbol) != 0.0);
    ExecutePriced(c, s, close);
    ExecutePriced(c, Execute(c, false, s, close).0, t.Open());
  }

  // ---------- what they earn ----------

  /** What holding each event's target until the next event earns on the price moves. */
  function Earned(targets: nat -> real, es: seq<Event>, n: nat): real
    requires n <= |es|
  {
    if n < 2 then 0.0 else Earned(targets, es, n - 1) + Mul(targets(n - 2), es[n - 1].close - es[n - 2].close)
  }

  /** Fills at a price change the position's requested value at that price by nothing. */
  lemma {:induction false} FillsAtMark(before: seq<Fill>, after: seq<Fill>, symbol: string, mark: real)
    requires PricedSince(before, after, symbol, mark)
    ensures RequestedCash(after) + Mul(Traded(after, symbol), mark) ==
      RequestedCash(before) + Mul(Traded(before, symbol), mark)
  {
    hide Mul;
    if |before| < |after| {
      var n := |after| - 1;
      FillsAtMark(before, after[..n], symbol, mark);
      assert Priced(after[n], symbol, mark);
      MulDistributes(Traded(after[..n], symbol), after[n].qty, mark);
    } else {
      assert before == after;
    }
  }

  ghost predicate Clean(fills: seq<Fill>, symbol: string) {
    NonZero(fills) && OfSymbol(fills, symbol) && SlippageInPrice(fills)
  }

  lemma CleanExtends(before: seq<Fill>, after: seq<Fill>, symbol: string, mark: real)
    requires Clean(before, symbol) && PricedSince(before, after, symbol, mark)
    ensures Clean(after, symbol)
  {
    hide Mul;
    forall i | 0 <= i < |after|
      ensures after[i].qty != 0.0 && after[i].symbol == symbol
      ensures after[i].slippage == Mul(after[i].qty, after[i].price - after[i].requested)
    {
      if i < |before| {
        assert after[i] == before[i];
      } else {
        assert Priced(after[i], symbol, mark);
      }
    }
  }

  lemma NothingReplayed(z: Setting, es: seq<Event>)
    ensures ReplayUpTo(z, FRESH, es, 0) == (FRESH, Ok([]))
  {
  }

  /** After n events of a successful replay: the position is the last target, and the fills at
      their requested prices have earned what the targets earn. */
  lemma {:induction false} ReplayEarns(z: Setting, es: seq<Event>, symbol: string, n: nat)
    requires z.costs.Valid() && z.only.None? && !z.blocked && 0 < n <= |es|
    requires forall i :: 0 <= i < |es| ==> es[i].symbol == symbol
    requires ReplayUpTo(z, FRESH, es, n).1.Ok?
    ensures var fills := ReplayUpTo(z, FRESH, es, n).1.value;
      && Clean(fills, symbol) && Traded(fills, symbol) == z.targets(n - 1)
      && RequestedCash(fills) + Mul(Traded(fills, symbol), es[n - 1].close) == Earned(z.targets, es, n)
  {
    hide ReplayUpTo, Mul, Clean, PricedSince, Sound, Tradable;
    FreshSound(z.prefix);
    ReplayProgress(z, FRESH, es, n);
    ReplayProgress(z, FRESH, es, n - 1);
    var (s, r) := ReplayUpTo(z, FRESH, es, n);
    var (s1, r1) := ReplayUpTo(z, FRESH, es, n - 1);
    var mark := es[n - 1].close;
    assert [] + r.value == r.value && [] + r1.value == r1.value;
    LogsAreFills(z, es, n, s, r, s1, r1);
    PositionIsTraded(z, s, n, symbol);
    NothingEarned(symbol, mark);
    LastStepPriced(z, es, symbol, n);
    FillsAtMark(s1.log, s.log, symbol, mark);
    if n > 1 {
      ReplayEarns(z, es, symbol, n - 1);
      MulDistributes(z.targets(n - 2), mark, es[n - 2].close);
    } else {
      NothingReplayed(z, es);
    }
    CleanExtends(s1.log, s.log, symbol, mark);
  }

  lemma LogsAreFills(
      z: Setting, es: seq<Event>, n: nat, s: State, r: Result<seq<Fill>, ExecutionError>, s1: State,
      r1: Result<seq<Fill>, ExecutionError>)
    requires 0 < n <= |es| && r.Ok? && (s, r) == ReplayUpTo(z, FRESH, es, n)
      && (s1, r1) == ReplayUpTo(z, FRESH, es, n - 1)
    ensures r1.Ok? && s.log == r.value && s1.log == r1.value
    ensures forall symbol :: s.Position(symbol) == Wanted(z, FRESH, es, n, symbol)
    ensures Sound(s, z.prefix, n)
  {
    hide MoveToTarget, Sound, Tradable;
    FreshSound(z.prefix);
    ReplayProgress(z, FRESH, es, n);
    ReplayProgress(z, FRESH, es, n - 1);
    assert [] + r.value == r.value && [] + r1.value == r1.value;
  }

  lemma PositionIsTraded(z: Setting, s: State, n: nat, symbol: string)
    requires Sound(s, z.prefix, n)
    ensures s.Position(symbol) == Traded(s.log, symbol)
  {
    hide NoCrossing, UnusedFrom, DistinctIds, OnFilledOrders;
    assert Balanced(s);
  }

  lemma NothingEarned(symbol: string, mark: real)
    ensures RequestedCash([]) + Mul(Traded([], symbol), mark) == 0.0 && Clean([], symbol)
  {
  }

  lemma LastStepPriced(z: Setting, es: seq<Event>, symbol: string, n: nat)
    requires z.costs.Valid() && z.only.None? && !z.blocked && 0 < n <= |es| && es[n - 1].symbol == symbol
    ensures PricedSince(ReplayUpTo(z, FRESH, es, n - 1).0.log, ReplayUpTo(z, FRESH, es, n).0.log, symbol,
      es[n - 1].close)
  {
    hide MoveToTarget, Priced;
    var s1 := ReplayUpTo(z, FRESH, es, n - 1).0;
    MovePriced(z.costs, s1, RetargetAt(z, es[n - 1], n - 1, s1.Position(symbol)));
  }

  /** What the two evaluations report of the same replay, in terms of prices and targets alone:
      each event's target held until the next, less fees, less slippage - once by cash flow,
      twice by average cost. */
  lemma ReportsInTermsOfTargets(z: Setting, es: seq<Event>, symbol: string)
    requires z.costs.Valid() && z.only.None? && !z.blocked && |es| > 0
    requires forall i :: 0 <= i < |es| ==> es[i].symbol == symbol
    requires FillsOf(z, es).Ok?
    ensures var fills, last, earned := FillsOf(z, es).value, es[|es| - 1].close, Earned(z.targets, es, |es|);
      && NonZero(fills)
      && RobustnessPnl(fills, symbol, last) == earned - Fees(fills) - Slippages(fills)
      && OptimizerNet(fills, symbol, last) == earned - Fees(fills) - 2.0 * Slippages(fills)
  {
    hide ReplayUpTo, Mul, Earned, RequestedCash, RobustnessPnl, OptimizerNet, Fees, Slippages, Traded;
    var fills := FillsOf(z, es).value;
    ReplayEarns(z, es, symbol, |es|);
    SlippageChargedTwice(fills, symbol, es[|es| - 1].close);
  }

  // ---------- the methods ----------

  /** The replay loop that both evaluations run, on an executor and an OMS of their own. */
  method ExecuteTargets(es: seq<Event>, symbol: string, targets: nat -> real, prefix: string, feeBps: real,
      slippageBps: real)
    returns (r: Result<seq<Fill>, ExecutionError>)
    requires feeBps >= 0.0 && slippageBps >= 0.0
    requires forall i :: 0 <= i < |es| ==> es[i].symbol == symbol
    ensures r == FillsOf(SettingOf(feeBps, slippageBps, prefix, targets), es)
  {
    hide MoveToTarget, OMS.Contents, OMS.Valid, Recorded, Decimal, Find;
    ghost var z := SettingOf(feeBps, slippageBps, prefix, targets);
    var oms := new OMS();
    var executor := new PaperExecutor(oms, feeBps, slippageBps, null);
    r := Ok([]);
    for n := 0 to |es|
      invariant fresh(oms) && fresh(executor) && executor.oms == oms && fresh(oms.orders.Values) && executor.Valid()
      invariant executor.killSwitch == null && executor.costs == z.costs
      invariant
        var (s, outcome) := ReplayUpTo(z, FRESH, es, n);
        executor.Current() == s && r == outcome
    {
      if r.Ok? {
        var current := executor.PositionQty(symbol);
        var t := Retarget(prefix + "-" + Decimal(n + 1), symbol, current, targets(n), es[n].close, es[n].ts);
        var legs := executor.ExecuteToTarget(t);
        NoMove(z.costs, z.blocked, ReplayUpTo(z, FRESH, es, n).0, t);
        assert r.value + [] == r.value;
        r := if legs.Ok? then Ok(r.value + legs.value) else legs;
      }
    }
  }

  lemma NoMove(c: Costs, blocked: bool, s: State, t: Retarget)
    ensures t.current == t.target ==> MoveToTarget(c, blocked, s, t) == (s, Ok([]))
  {
  }

  datatype Metrics = Metrics(trades: nat, pnl: real, returnPct: real)

  /** `evaluate_strategy_metrics`, up to profit and return. */
  method EvaluateStrategyMetrics(
      events: seq<Event>, symbol: string, targets: nat -> real, initialEquity: real, feeBps: real, slippageBps: real)
    returns (r: Result<Metrics, EvaluationError>)
    ensures
      var es := EventsOf(events, symbol);
      var fills := FillsOf(SettingOf(feeBps, slippageBps, "robust", targets), es);
      if initialEquity <= 0.0 then r == Err(NonPositiveEquity)
      else if es == [] then r == Err(NoEvents)
      else if feeBps < 0.0 || slippageBps < 0.0 then r == Err(NegativeBps)
      else if fills.Err? then r == Err(Trade(fills.error))
      else
        && r.Ok? && r.value.trades == |fills.value|
        && r.value.pnl == Earned(targets, es, |es|) - Fees(fills.value) - Slippages(fills.value)
        && Mul(r.value.returnPct, initialEquity) == 100.0 * r.value.pnl
  {
    hide ReplayUpTo, StableSort, Earned, RobustnessPnl, OptimizerNet, Fees, Slippages;
    if initialEquity <= 0.0 {
      return Err(NonPositiveEquity);
    }
    var es := EventsOf(events, symbol);
    EventsAreOwn(events, symbol);
    if es == [] {
      return Err(NoEvents);
    }
    if feeBps < 0.0 || slippageBps < 0.0 {
      return Err(NegativeBps);
    }
    var fills := ExecuteTargets(es, symbol, targets, "robust", feeBps, slippageBps);
    if fills.Err? {
      return Err(Trade(fills.error));
    }
    var z := SettingOf(feeBps, slippageBps, "robust", targets);
    ReportsInTermsOfTargets(z, es, symbol);
    ReplayEarns(z, es, symbol, |es|);
    var pnl := EvaluateCashFlow(fills.value, symbol, es[|es| - 1].close);
    ReturnOn(pnl, initialEquity);
    r := Ok(Metrics(|fills.value|, pnl, pnl / initialEquity * 100.0));
  }

  lemma ReturnOn(pnl: real, equity: real)
    requires equity > 0.0
    ensures Mul(pnl / equity * 100.0, equity) == 100.0 * pnl
  {
    DivMul(pnl, equity);
  }

  /** `_evaluate` for one parameter set, up to net profit. */
  method EvaluateParameters(
      events: seq<Event>, symbol: string, targets: nat -> real, prefix: string, feeBps: real, slippageBps: real)
    returns (r: Result<real, EvaluationError>)
    ensures
      var es := EventsOf(events, symbol);
      var fills := FillsOf(SettingOf(feeBps, slippageBps, prefix, targets), es);
      if es == [] then r == Err(NoEvents)
      else if feeBps < 0.0 || slippageBps < 0.0 then r == Err(NegativeBps)
      else if fills.Err? then r == Err(Trade(fills.error))
      else r == Ok(Earned(targets, es, |es|) - Fees(fills.value) - 2.0 * Slippages(fills.value))
  {
    hide ReplayUpTo, StableSort, Earned, RobustnessPnl, OptimizerNet, Fees, Slippages;
    var es := EventsOf(events, symbol);
    EventsAreOwn(events, symbol);
    if es == [] {
      return Err(NoEvents);
    }
    if feeBps < 0.0 || slippageBps < 0.0 {
      return Err(NegativeBps);
    }
    var fills := ExecuteTargets(es, symbol, targets, prefix, feeBps, slippageBps);
    if fills.Err? {
      return Err(Trade(fills.error));
    }
    var z := SettingOf(feeBps, slippageBps, prefix, targets);
    ReportsInTermsOfTargets(z, es, symbol);
    ReplayEarns(z, es, symbol, |es|);
    var net := EvaluateAverageCost(fills.value, symbol, es[|es| - 1].close);
    r := Ok(net);
  }
}
