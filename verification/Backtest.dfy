/** The realistic backtest of backtest/mvp11.py: latency, partial fills, queue and impact effects,
    rejected cancellations, funding and liquidation. Targets, regimes and random draws are
    arbitrary streams, one entry per event or draw. */
module Backtest {
  import opened Decimals
  import opened Market
  import opened RealMath
  import opened Sorting
  import opened Values

  datatype Config = Config(
    feeBps: real, slippageBps: real, latencyBars: int, latencySeconds: int, initialEquity: real,
    makerFeeBps: Option<real>, takerFeeBps: Option<real>, makerProbability: real, baseFillRatio: real,
    queueAheadNotional: real, cancelRejectProbability: real, defaultDepthNotional: real, impactBps: real,
    shortageBps: real, leverage: real, maintenanceMarginRate: real, fundingRatePerBar: real,
    liquidationPenaltyBps: real) {

    /** `_validate_config` raises nothing. */
    predicate Valid() {
      && initialEquity > 0.0 && latencyBars >= 0 && latencySeconds >= 0
      && 0.0 <= makerProbability <= 1.0 && 0.0 < baseFillRatio <= 1.0
      && 0.0 <= cancelRejectProbability <= 1.0 && defaultDepthNotional > 0.0 && leverage > 0.0
    }
  }

  /** A pending order; the strategy name, always the same, is left out. */
  datatype Order = Order(executeIdx: int, sequence: nat, symbol: string, qty: real, requested: real, ts: int)

  datatype Error = InvalidConfig | NoEvents | NoSymbols | SymbolWithoutEvents | UnknownSymbol

  /** What a run is given: the configured symbols, the events in time order, the target that the
      strategies' weighted sum asks for at each event, the regime at each event, the draws. */
  datatype Setup = Setup(
    cfg: Config, symbols: seq<string>, ordered: seq<Event>, targets: nat -> real, regime: Option<nat -> string>,
    rng: nat -> real)

  /** The loop's variables. The last four are a history that the source does not keep: orders
      signalled, cancelled, and dropped as residual dust, and the liquidation fills. */
  datatype State = State(
    cash: real, positions: map<string, real>, lastPrice: map<string, real>, targets: map<string, real>,
    pending: seq<Order>, sequence: nat, fills: seq<Fill>, funding: real, liquidations: nat, draws: nat,
    curve: seq<real>, regimes: seq<(string, real)>,
    signalled: seq<Order>, cancelled: seq<Order>, dropped: seq<Order>, flattened: seq<Fill>)

  /** The residual below which an order is not kept, and the floor under prices and equity. */
  const DUST: real := 0.000000000001
  const FLOOR: real := 0.000000001

  function Get(m: map<string, real>, k: string): real {
    if k in m then m[k] else 0.0
  }

  function IntMin(a: int, b: int): int {
    if a <= b then a else b
  }

  function IntMax(a: int, b: int): int {
    if a >= b then a else b
  }

  // ---------- events of one symbol ----------

  function OfSymbol(symbol: string): Event -> bool {
    (e: Event) => e.symbol == symbol
  }

  function SymbolEvents(ordered: seq<Event>, symbol: string): seq<Event> {
    Filter(ordered, OfSymbol(symbol))
  }

  /** `event_index`: the last position with that timestamp. */
  function EventIndex(es: seq<Event>, ts: int): (idx: int)
    ensures (exists e :: e in es && e.ts == ts) ==> 0 <= idx < |es| && es[idx].ts == ts
    ensures forall i :: idx < i < |es| && 0 <= i ==> es[i].ts != ts
  {
    if |es| == 0 then -1
    else if es[|es| - 1].ts == ts then |es| - 1
    else EventIndex(es[..|es| - 1], ts)
  }

  /** The first position from a start on whose time has come; the last position if none. */
  function FirstAtOrAfter(es: seq<Event>, from: nat, ts: int): (idx: nat)
    requires from < |es|
    ensures idx < |es|
    ensures from <= idx && (forall i :: from <= i < idx ==> es[i].ts < ts)
    ensures es[idx].ts >= ts || (idx == |es| - 1 && forall i :: from <= i < |es| ==> es[i].ts < ts)
    decreases |es| - from
  {
    if es[from].ts >= ts || from == |es| - 1 then from else FirstAtOrAfter(es, from + 1, ts)
  }

  /** Where an order signalled at a bar may execute: not before the latency in bars has passed,
      nor the latency in seconds, but on the last bar at the latest. */
  function ExecuteIdx(es: seq<Event>, signalIdx: nat, cfg: Config): int
    requires signalIdx < |es|
  {
    var byBars := IntMin(signalIdx + cfg.latencyBars, |es| - 1);
    if cfg.latencySeconds == 0 then byBars
    else IntMax(byBars, FirstAtOrAfter(es, signalIdx, es[signalIdx].ts + cfg.latencySeconds))
  }

  method ResolveExecuteIdx(es: seq<Event>, signalIdx: nat, cfg: Config) returns (idx: int)
    requires signalIdx < |es|
    ensures idx == ExecuteIdx(es, signalIdx, cfg)
  {
    var byBars := IntMin(signalIdx + cfg.latencyBars, |es| - 1);
    if cfg.latencySeconds == 0 {
      return byBars;
    }
    var targetTs := es[signalIdx].ts + cfg.latencySeconds;
    var byTime := |es| - 1;
    ghost var first := FirstAtOrAfter(es, signalIdx, targetTs);
    for future := signalIdx to |es|
      invariant future < |es| ==> first == FirstAtOrAfter(es, future, targetTs)
      invariant future == |es| ==> first == |es| - 1
      invariant byTime == |es| - 1
    {
      if es[future].ts >= targetTs {
        byTime := future;
        break;
      }
    }
    idx := IntMax(byBars, byTime);
  }

  // ---------- filling one order ----------

  function FeeRate(cfg: Config, isMaker: bool): real {
    (if isMaker then (if cfg.makerFeeBps.Some? then cfg.makerFeeBps.value else cfg.feeBps)
     else if cfg.takerFeeBps.Some? then cfg.takerFeeBps.value
     else cfg.feeBps) / 10000.0
  }

  function DepthQty(cfg: Config, close: real): real {
    Max(cfg.defaultDepthNotional / Max(close, FLOOR), FLOOR)
  }

  function QueueQty(cfg: Config, close: real): real {
    Max(cfg.queueAheadNotional / Max(close, FLOOR), 0.0)
  }

  function QueueFactor(depth: real, queue: real): real {
    if depth + queue > 0.0 then depth / (depth + queue) else 1.0
  }

  /** The share of an order that the book fills at once. */
  function FillRatio(cfg: Config, close: real, qtyAbs: real): real {
    var depth := DepthQty(cfg, close);
    var deepest := Max(qtyAbs, depth);
    assert deepest > 0.0;
    Min(1.0, cfg.baseFillRatio * QueueFactor(depth, QueueQty(cfg, close)) * (depth / deepest))
  }

  function SlippageRate(cfg: Config, close: real, qtyAbs: real): real {
    var depth := DepthQty(cfg, close);
    assert depth > 0.0;
    var impact := cfg.impactBps * Min(2.0, qtyAbs / depth);
    var shortage := if qtyAbs > depth then cfg.shortageBps else 0.0;
    (cfg.slippageBps + impact + shortage) / 10000.0
  }

  function OrderFillId(sequence: nat): string {
    "mvp11-" + Decimal(sequence)
  }

  function LiquidationId(sequence: nat, symbol: string): string {
    "liq-" + Decimal(sequence) + "-" + symbol
  }

  /** A fill of q at a price moved against it by a rate. */
  function FillAt(id: string, symbol: string, q: real, mark: real, rate: real, feeRate: real, ts: int): Fill {
    var side := if q > 0.0 then 1.0 else -1.0;
    var price := mark * (1.0 + side * rate);
    var notional := Abs(q) * price;
    Fill(id, symbol, q, mark, price, Abs(q) * Abs(price - mark), notional * feeRate, notional, ts)
  }

  function FilledQty(cfg: Config, o: Order, close: real): real {
    Abs(o.qty) * FillRatio(cfg, close, Abs(o.qty))
  }

  /** What is left of an order, back in the book for the next bar. */
  function Residual(o: Order, q: real, e: Event, idx: int, last: int): Order {
    Order(IntMin(idx + 1, last), o.sequence, o.symbol, o.qty - q, e.close, e.ts)
  }

  /** The effect of a fill on cash and positions. */
  function Booked(s: State, fill: Fill): State {
    s.(fills := s.fills + [fill], positions := s.positions[fill.symbol := Get(s.positions, fill.symbol) + fill.qty],
       cash := s.cash - Mul(fill.qty, fill.price) - fill.fee)
  }

  function FillOrder(z: Setup, s: State, o: Order, e: Event, idx: int, last: int): State {
    if o.qty == 0.0 then s
    else
      var isMaker := z.rng(s.draws) < z.cfg.makerProbability;
      var drawn := s.(draws := s.draws + 1);
      var filled := FilledQty(z.cfg, o, e.close);
      if filled <= 0.0 then drawn.(pending := drawn.pending + [o])
      else
        var q := if o.qty > 0.0 then filled else -filled;
        var rate := SlippageRate(z.cfg, e.close, Abs(o.qty));
        var fill := FillAt(OrderFillId(o.sequence), o.symbol, q, e.close, rate, FeeRate(z.cfg, isMaker), e.ts);
        var booked := Booked(drawn, fill);
        var residual := Residual(o, q, e, idx, last);
        if Abs(residual.qty) > DUST then booked.(pending := booked.pending + [residual])
        else booked.(dropped := booked.dropped + [residual])
  }

  // ---------- the phases of one event ----------

  function Due(symbol: string, idx: int): Order -> bool {
    (o: Order) => o.symbol == symbol && o.executeIdx <= idx
  }

  function NotDue(symbol: string, idx: int): Order -> bool {
    (o: Order) => !(o.symbol == symbol && o.executeIdx <= idx)
  }

  /** The first n matured orders filled. */
  function FillUpTo(z: Setup, s: State, matured: seq<Order>, e: Event, idx: int, last: int, n: nat): State
    requires n <= |matured|
  {
    if n == 0 then s else FillOrder(z, FillUpTo(z, s, matured, e, idx, last, n - 1), matured[n - 1], e, idx, last)
  }

  function FillMatured(z: Setup, s: State, e: Event, idx: int, last: int): State {
    var matured := Filter(s.pending, Due(e.symbol, idx));
    FillUpTo(z, s.(pending := Filter(s.pending, NotDue(e.symbol, idx))), matured, e, idx, last, |matured|)
  }

  /** `list.remove`: the first equal element goes. */
  function Remove(os: seq<Order>, x: Order): seq<Order> {
    if |os| == 0 then os
    else if os[0] == x then os[1..]
    else [os[0]] + Remove(os[1..], x)
  }

  function Stale(symbol: string, delta: real): Order -> bool {
    (o: Order) => o.symbol == symbol && o.qty * delta < 0.0
  }

  /** The first n stale orders each cancelled, unless the draw rejects it. */
  function CancelUpTo(z: Setup, s: State, stale: seq<Order>, n: nat): State
    requires n <= |stale|
  {
    if n == 0 then s
    else
      var t := CancelUpTo(z, s, stale, n - 1);
      var drawn := t.(draws := t.draws + 1);
      if z.rng(t.draws) >= z.cfg.cancelRejectProbability then
        drawn.(pending := Remove(t.pending, stale[n - 1]), cancelled := t.cancelled + [stale[n - 1]])
      else drawn
  }

  /** A new target: stale orders cancelled, an order for the difference put in the book. */
  function Signal(z: Setup, s: State, e: Event, executeIdx: int, target: real): State {
    var delta := target - Get(s.targets, e.symbol);
    if Abs(delta) <= DUST then s
    else
      var stale := Filter(s.pending, Stale(e.symbol, delta));
      var t := CancelUpTo(z, s, stale, |stale|);
      var o := Order(executeIdx, t.sequence, e.symbol, delta, e.close, e.ts);
      t.(pending := t.pending + [o], sequence := t.sequence + 1, signalled := t.signalled + [o],
         targets := t.targets[e.symbol := Get(t.targets, e.symbol) + delta])
  }

  function ValueOf(positions: map<string, real>, prices: map<string, real>): string -> real {
    (symbol: string) => Mul(Get(positions, symbol), Get(prices, symbol))
  }

  function GrossOf(positions: map<string, real>, prices: map<string, real>): string -> real {
    (symbol: string) => Abs(Mul(Get(positions, symbol), Get(prices, symbol)))
  }

  function FundingOf(positions: map<string, real>, prices: map<string, real>, rate: real): string -> real {
    (symbol: string) => Mul(Abs(Mul(Get(positions, symbol), Get(prices, symbol))), rate)
  }

  /** Cash plus the positions at the last prices. */
  function Equity(z: Setup, s: State): real {
    s.cash + SumOver(z.symbols, ValueOf(s.positions, s.lastPrice))
  }

  function Gross(z: Setup, s: State): real {
    SumOver(z.symbols, GrossOf(s.positions, s.lastPrice))
  }

  function Fund(z: Setup, s: State): State {
    var barFunding := SumOver(z.symbols, FundingOf(s.positions, s.lastPrice, z.cfg.fundingRatePerBar));
    s.(cash := s.cash - barFunding, funding := s.funding + barFunding)
  }

  predicate MustLiquidate(z: Setup, s: State) {
    var equity, gross := Equity(z, s), Gross(z, s);
    gross > Max(equity, FLOOR) * z.cfg.leverage || equity <= gross * z.cfg.maintenanceMarginRate
  }

  function LiquidationFill(z: Setup, s: State, symbol: string, ts: int): Fill {
    var rate := z.cfg.liquidationPenaltyBps / 10000.0;
    FillAt(LiquidationId(s.sequence, symbol), symbol, -Get(s.positions, symbol), Get(s.lastPrice, symbol), rate,
           FeeRate(z.cfg, false), ts)
  }

  function LiquidateSymbol(z: Setup, s: State, symbol: string, ts: int): State {
    if Abs(Get(s.positions, symbol)) <= DUST then s
    else
      var fill := LiquidationFill(z, s, symbol, ts);
      var booked := Booked(s, fill);
      booked.(positions := s.positions[symbol := 0.0], sequence := s.sequence + 1, flattened := s.flattened + [fill])
  }

  function LiquidateUpTo(z: Setup, s: State, ts: int, n: nat): State
    requires n <= |z.symbols|
  {
    if n == 0 then s else LiquidateSymbol(z, LiquidateUpTo(z, s, ts, n - 1), z.symbols[n - 1], ts)
  }

  function Liquidate(z: Setup, s: State, ts: int): State {
    if MustLiquidate(z, s) then LiquidateUpTo(z, s.(liquidations := s.liquidations + 1), ts, |z.symbols|) else s
  }

  /** Add to an entry of a dictionary listed in insertion order, making it if need be. */
  function AddTo(entries: seq<(string, real)>, key: string, amount: real): seq<(string, real)> {
    if |entries| == 0 then [(key, amount)]
    else if entries[0].0 == key then [(key, entries[0].1 + amount)] + entries[1..]
    else [entries[0]] + AddTo(entries[1..], key, amount)
  }

  /** The equity point of event n, and its change booked to the event's regime. */
  function Record(z: Setup, s: State, n: nat): State {
    var curve := s.curve + [Equity(z, s)];
    var change := if |s.curve| > 0 then Equity(z, s) - s.curve[|s.curve| - 1] else 0.0;
    s.(curve := curve, regimes := if z.regime.None? then s.regimes else AddTo(s.regimes, z.regime.value(n), change))
  }

  function Marked(s: State, e: Event): State {
    s.(lastPrice := s.lastPrice[e.symbol := e.close])
  }

  /** The bar index of an event among its symbol's. */
  function IndexAt(z: Setup, n: nat): (idx: int)
    requires n < |z.ordered|
    ensures var es := SymbolEvents(z.ordered, z.ordered[n].symbol);
      0 <= idx < |es| && es[idx].ts == z.ordered[n].ts
  {
    assert z.ordered[n] in SymbolEvents(z.ordered, z.ordered[n].symbol);
    EventIndex(SymbolEvents(z.ordered, z.ordered[n].symbol), z.ordered[n].ts)
  }

  /** One event of the main loop. */
  function Step(z: Setup, s: State, n: nat): State
    requires n < |z.ordered|
  {
    var e := z.ordered[n];
    var es := SymbolEvents(z.ordered, e.symbol);
    var idx := IndexAt(z, n);
    var filled := FillMatured(z, Marked(s, e), e, idx, |es| - 1);
    var signalled := Signal(z, filled, e, ExecuteIdx(es, idx, z.cfg), z.targets(n));
    Record(z, Liquidate(z, Fund(z, signalled), e.ts), n)
  }

  function FirstClose(ordered: seq<Event>, symbol: string): real {
    var es := SymbolEvents(ordered, symbol);
    if |es| > 0 then es[0].close else 0.0
  }

  function Initial(z: Setup): State {
    State(z.cfg.initialEquity,
          map symbol | symbol in z.symbols :: 0.0,
          map symbol | symbol in z.symbols :: FirstClose(z.ordered, symbol),
          map symbol | symbol in z.symbols :: 0.0,
          [], 0, [], 0.0, 0, 0, [], [], [], [], [], [])
  }

  /** The state after the first n events. */
  function StateAt(z: Setup, n: nat): State
    requires n <= |z.ordered|
  {
    if n == 0 then Initial(z) else Step(z, StateAt(z, n - 1), n - 1)
  }

  // ---------- the loops ----------

  /** Matured orders leave the book, are filled in turn, and their residuals go back into it. */
  method ProcessMatured(z: Setup, s: State, e: Event, idx: int, last: int) returns (t: State)
    ensures t == FillMatured(z, s, e, idx, last)
  {
    hide FilledQty, SlippageRate, FeeRate, FillAt, OrderFillId, Mul;
    var due := Due(e.symbol, idx);
    var matured: seq<Order> := [];
    for i := 0 to |s.pending|
      invariant matured == Filter(s.pending[..i], due)
    {
      FilterSnoc(s.pending[..i], s.pending[i], due);
      assert s.pending[..i + 1] == s.pending[..i] + [s.pending[i]];
      if s.pending[i].symbol == e.symbol && s.pending[i].executeIdx <= idx {
        matured := matured + [s.pending[i]];
      }
    }
    assert s.pending[..|s.pending|] == s.pending;
    var kept: seq<Order> := [];
    for i := 0 to |s.pending|
      invariant kept == Filter(s.pending[..i], NotDue(e.symbol, idx))
    {
      FilterSnoc(s.pending[..i], s.pending[i], NotDue(e.symbol, idx));
      assert s.pending[..i + 1] == s.pending[..i] + [s.pending[i]];
      assert s.pending[i] in matured <==> due(s.pending[i]);
      if s.pending[i] !in matured {
        kept := kept + [s.pending[i]];
      }
    }
    t := FillAll(z, s.(pending := kept), matured, e, idx, last);
  }

  lemma FillUpToNone(z: Setup, s: State, matured: seq<Order>, e: Event, idx: int, last: int)
    ensures FillUpTo(z, s, matured, e, idx, last, 0) == s
  {
    hide FillOrder;
  }

  lemma FillUpToStep(z: Setup, s: State, matured: seq<Order>, e: Event, idx: int, last: int, n: nat)
    requires n < |matured|
    ensures FillUpTo(z, s, matured, e, idx, last, n + 1) ==
      FillOrder(z, FillUpTo(z, s, matured, e, idx, last, n), matured[n], e, idx, last)
  {
    hide FillOrder;
  }

  method FillAll(z: Setup, s: State, matured: seq<Order>, e: Event, idx: int, last: int) returns (t: State)
    ensures t == FillUpTo(z, s, matured, e, idx, last, |matured|)
  {
    hide FilledQty, SlippageRate, FeeRate, FillAt, OrderFillId, Mul, FillUpTo, Residual;
    FillUpToNone(z, s, matured, e, idx, last);
    var cash, positions, pending, fills, draws, dropped := s.cash, s.positions, s.pending, s.fills, s.draws, s.dropped;
    for n := 0 to |matured|
      invariant s.(cash := cash, positions := positions, pending := pending, fills := fills, draws := draws,
                   dropped := dropped) == FillUpTo(z, s, matured, e, idx, last, n)
    {
      var order := matured[n];
      FillUpToStep(z, s, matured, e, idx, last, n);
      if order.qty != 0.0 {
        var isMaker := z.rng(draws) < z.cfg.makerProbability;
        draws := draws + 1;
        var filledQty := FilledQty(z.cfg, order, e.close);
        if filledQty <= 0.0 {
          pending := pending + [order];
        } else {
          var signed := if order.qty > 0.0 then filledQty else -filledQty;
          var rate := SlippageRate(z.cfg, e.close, Abs(order.qty));
          var fill := FillAt(OrderFillId(order.sequence), order.symbol, signed, e.close, rate,
                             FeeRate(z.cfg, isMaker), e.ts);
          FillAtLabels(OrderFillId(order.sequence), order.symbol, signed, e.close, rate, FeeRate(z.cfg, isMaker), e.ts);
          fills := fills + [fill];
          positions := positions[order.symbol := Get(positions, order.symbol) + signed];
          cash := cash - Mul(signed, fill.price);
          cash := cash - fill.fee;
          var residual := Residual(order, signed, e, idx, last);
          if Abs(residual.qty) > DUST {
            pending := pending + [residual];
          } else {
            dropped := dropped + [residual];
          }
        }
      }
    }
    t := s.(cash := cash, positions := positions, pending := pending, fills := fills, draws := draws,
      dropped := dropped);
  }

  lemma FillAtLabels(id: string, symbol: string, q: real, mark: real, rate: real, feeRate: real, ts: int)
    ensures var f := FillAt(id, symbol, q, mark, rate, feeRate, ts);
      f.id == id && f.symbol == symbol && f.qty == q && f.requested == mark && f.ts == ts
  {
  }

  /** Each stale order is cancelled unless the draw rejects it. */
  method CancelStale(z: Setup, s: State, stale: seq<Order>) returns (t: State)
    ensures t == CancelUpTo(z, s, stale, |stale|)
  {
    hide Remove;
    t := s;
    for n := 0 to |stale|
      invariant t == CancelUpTo(z, s, stale, n)
    {
      var draw := z.rng(t.draws);
      t := t.(draws := t.draws + 1);
      if draw >= z.cfg.cancelRejectProbability {
        t := t.(pending := Remove(t.pending, stale[n]), cancelled := t.cancelled + [stale[n]]);
      }
    }
  }

  /** The target's change: stale orders are cancelled, then the order for the difference is put
      in the book. */
  method FollowTarget(z: Setup, s: State, e: Event, idx: nat, target: real) returns (t: State)
    requires idx < |SymbolEvents(z.ordered, e.symbol)|
    ensures t == Signal(z, s, e, ExecuteIdx(SymbolEvents(z.ordered, e.symbol), idx, z.cfg), target)
  {
    hide Stale, Filter, CancelUpTo, ExecuteIdx, SymbolEvents;
    t := s;
    var delta := target - Get(s.targets, e.symbol);
    if Abs(delta) > DUST {
      t := CancelStale(z, s, Filter(s.pending, Stale(e.symbol, delta)));
      var executeIdx := ResolveExecuteIdx(SymbolEvents(z.ordered, e.symbol), idx, z.cfg);
      var order := Order(executeIdx, t.sequence, e.symbol, delta, e.close, e.ts);
      t := t.(pending := t.pending + [order], sequence := t.sequence + 1, signalled := t.signalled + [order],
              targets := t.targets[e.symbol := Get(t.targets, e.symbol) + delta]);
    }
  }

  method ChargeFunding(z: Setup, s: State) returns (t: State)
    ensures t == Fund(z, s)
  {
    hide Mul, Abs, SumOver;
    ghost var fundingOf := FundingOf(s.positions, s.lastPrice, z.cfg.fundingRatePerBar);
    var barFunding := 0.0;
    SumOverNone(z.symbols, fundingOf);
    for i := 0 to |z.symbols|
      invariant barFunding == SumOver(z.symbols[..i], fundingOf)
    {
      var symbol := z.symbols[i];
      barFunding := barFunding +
        Mul(Abs(Mul(Get(s.positions, symbol), Get(s.lastPrice, symbol))), z.cfg.fundingRatePerBar);
      SumOverNext(z.symbols, i, fundingOf);
    }
    assert z.symbols[..|z.symbols|] == z.symbols;
    t := s.(cash := s.cash - barFunding, funding := s.funding + barFunding);
  }

  method MeasureExposure(z: Setup, s: State) returns (equity: real, gross: real)
    ensures equity == Equity(z, s) && gross == Gross(z, s)
  {
    hide Mul, Abs, SumOver;
    ghost var valueOf, grossOf := ValueOf(s.positions, s.lastPrice), GrossOf(s.positions, s.lastPrice);
    equity, gross := s.cash, 0.0;
    SumOverNone(z.symbols, valueOf);
    SumOverNone(z.symbols, grossOf);
    for i := 0 to |z.symbols|
      invariant equity == s.cash + SumOver(z.symbols[..i], valueOf) && gross == SumOver(z.symbols[..i], grossOf)
    {
      var value := Mul(Get(s.positions, z.symbols[i]), Get(s.lastPrice, z.symbols[i]));
      equity, gross := equity + value, gross + Abs(value);
      SumOverNext(z.symbols, i, valueOf);
      SumOverNext(z.symbols, i, grossOf);
    }
    assert z.symbols[..|z.symbols|] == z.symbols;
  }

  method CheckLiquidation(z: Setup, s: State, ts: int) returns (t: State)
    ensures t == Liquidate(z, s, ts)
  {
    hide LiquidateSymbol, Equity, Gross;
    var equity, gross := MeasureExposure(z, s);
    t := s;
    var maxNotional := Max(equity, FLOOR) * z.cfg.leverage;
    var maintFloor := gross * z.cfg.maintenanceMarginRate;
    if gross > maxNotional || equity <= maintFloor {
      t := t.(liquidations := t.liquidations + 1);
      ghost var counted := t;
      for i := 0 to |z.symbols|
        invariant t == LiquidateUpTo(z, counted, ts, i)
      {
        t := LiquidateSymbol(z, t, z.symbols[i], ts);
      }
    }
  }

  datatype BacktestResult = BacktestResult(
    fills: seq<Fill>, curve: seq<real>, finalEquity: real, totalFee: real, totalSlippage: real, funding: real,
    liquidations: nat, regimes: seq<(string, real)>, positions: map<string, real>)

  function Fee(f: Fill): real {
    f.fee
  }

  function Slippage(f: Fill): real {
    f.slippage
  }

  /** What a run reports of its last state. */
  function ResultOf(s: State): BacktestResult
    requires |s.curve| > 0
  {
    BacktestResult(s.fills, s.curve, s.curve[|s.curve| - 1], SumOver(s.fills, Fee), SumOver(s.fills, Slippage),
                   s.funding, s.liquidations, s.regimes, s.positions)
  }

  /** The errors, in the order in which they are looked for. An event of a symbol that is not
      configured is met only in the main loop, but nothing of the run survives it. */
  function Check(events: seq<Event>, symbols: seq<string>, cfg: Config): Option<Error> {
    if !cfg.Valid() then Some(InvalidConfig)
    else if |events| == 0 then Some(NoEvents)
    else if |symbols| == 0 then Some(NoSymbols)
    else if exists symbol :: symbol in symbols && forall e :: e in events ==> e.symbol != symbol then
      Some(SymbolWithoutEvents)
    else if exists e :: e in events && e.symbol !in symbols then Some(UnknownSymbol)
    else None
  }

  lemma CheckedEvents(events: seq<Event>, symbols: seq<string>, cfg: Config)
    requires Check(events, symbols, cfg).None?
    ensures |events| > 0
  {
  }

  lemma FillOrderKeepsCurve(z: Setup, s: State, o: Order, e: Event, idx: int, last: int)
    ensures var t := FillOrder(z, s, o, e, idx, last);
      t.curve == s.curve && t.regimes == s.regimes
  {
    hide FilledQty, SlippageRate, FeeRate, FillAt, Residual, OrderFillId, Mul;
  }

  lemma {:induction false} FillsKeepCurve(
      z: Setup, s: State, matured: seq<Order>, e: Event, idx: int, last: int, n: nat)
    requires n <= |matured|
    ensures var t := FillUpTo(z, s, matured, e, idx, last, n);
      t.curve == s.curve && t.regimes == s.regimes
  {
    hide FillOrder;
    if n > 0 {
      FillsKeepCurve(z, s, matured, e, idx, last, n - 1);
      FillOrderKeepsCurve(z, FillUpTo(z, s, matured, e, idx, last, n - 1), matured[n - 1], e, idx, last);
    }
  }

  lemma {:induction false} CancelsKeepCurve(z: Setup, s: State, stale: seq<Order>, n: nat)
    requires n <= |stale|
    ensures var t := CancelUpTo(z, s, stale, n);
      t.curve == s.curve && t.regimes == s.regimes
  {
    if n > 0 {
      CancelsKeepCurve(z, s, stale, n - 1);
    }
  }

  lemma {:induction false} LiquidationsKeepCurve(z: Setup, s: State, ts: int, n: nat)
    requires n <= |z.symbols|
    ensures var t := LiquidateUpTo(z, s, ts, n);
      t.curve == s.curve && t.regimes == s.regimes
  {
    hide FillAt, FeeRate;
    if n > 0 {
      LiquidationsKeepCurve(z, s, ts, n - 1);
    }
  }

  lemma FillMaturedKeepsCurve(z: Setup, s: State, e: Event, idx: int, last: int)
    ensures var t := FillMatured(z, s, e, idx, last);
      t.curve == s.curve && t.regimes == s.regimes
  {
    hide Filter;
    var matured := Filter(s.pending, Due(e.symbol, idx));
    FillsKeepCurve(z, s.(pending := Filter(s.pending, NotDue(e.symbol, idx))), matured, e, idx, last, |matured|);
  }

  lemma SignalKeepsCurve(z: Setup, s: State, e: Event, executeIdx: int, target: real)
    ensures var t := Signal(z, s, e, executeIdx, target);
      t.curve == s.curve && t.regimes == s.regimes
  {
    hide Filter;
    var stale := Filter(s.pending, Stale(e.symbol, target - Get(s.targets, e.symbol)));
    CancelsKeepCurve(z, s, stale, |stale|);
  }

  lemma LiquidateKeepsCurve(z: Setup, s: State, ts: int)
    ensures var t := Liquidate(z, s, ts);
      t.curve == s.curve && t.regimes == s.regimes
  {
    hide MustLiquidate;
    LiquidationsKeepCurve(z, s.(liquidations := s.liquidations + 1), ts, |z.symbols|);
  }

  /** Only the end of a step touches the equity curve: it adds one point. */
  lemma StepCurve(z: Setup, s: State, n: nat)
    requires n < |z.ordered|
    ensures
      var t := Step(z, s, n);
      var change := if |s.curve| > 0 then Equity(z, t) - s.curve[|s.curve| - 1] else 0.0;
      && t.curve == s.curve + [Equity(z, t)]
      && t.regimes == if z.regime.None? then s.regimes else AddTo(s.regimes, z.regime.value(n), change)
  {
    hide FillMatured, Signal, Liquidate, Filter, EventIndex, ExecuteIdx, AddTo;
    var e := z.ordered[n];
    var es, idx := SymbolEvents(z.ordered, e.symbol), IndexAt(z, n);
    FillMaturedKeepsCurve(z, Marked(s, e), e, idx, |es| - 1);
    var filled := FillMatured(z, Marked(s, e), e, idx, |es| - 1);
    SignalKeepsCurve(z, filled, e, ExecuteIdx(es, idx, z.cfg), z.targets(n));
    LiquidateKeepsCurve(z, Fund(z, Signal(z, filled, e, ExecuteIdx(es, idx, z.cfg), z.targets(n))), e.ts);
  }

  lemma NoCurveYet(z: Setup)
    ensures Initial(z).curve == []
  {
    hide FirstClose;
  }

  lemma {:induction false} CurveGrows(z: Setup, n: nat)
    requires n <= |z.ordered|
    ensures |StateAt(z, n).curve| == n
  {
    hide Step, Equity, AddTo, Initial;
    if n == 0 {
      NoCurveYet(z);
    } else {
      CurveGrows(z, n - 1);
      StepCurve(z, StateAt(z, n - 1), n - 1);
    }
  }

  /** The run over events in any order, with the configured symbols in order. */
  method RunBacktest(
      events: seq<Event>, symbols: seq<string>, cfg: Config, targets: nat -> real, regime: Option<nat -> string>,
      rng: nat -> real)
    returns (r: Result<BacktestResult, Error>)
    requires Distinct(symbols)
    ensures r.Err? <==> Check(events, symbols, cfg).Some?
    ensures r.Err? ==> Check(events, symbols, cfg) == Some(r.error)
    ensures r.Ok? ==>
      var z := Setup(cfg, symbols, StableSort(events, Time), targets, regime, rng);
      |StateAt(z, |z.ordered|).curve| == |events| > 0 && r.value == ResultOf(StateAt(z, |z.ordered|))
  {
    hide FillMatured, Signal, Fund, Liquidate, Record, StableSort, Initial, Check, Filter, EventIndex, ExecuteIdx;
    var error := Check(events, symbols, cfg);
    if error.Some? {
      return Err(error.value);
    }
    var ordered := StableSort(events, Time);
    SortSorts(events, Time);
    CheckedEvents(events, symbols, cfg);
    var z := Setup(cfg, symbols, ordered, targets, regime, rng);
    var s := Initial(z);
    for n := 0 to |ordered|
      invariant s == StateAt(z, n)
    {
      var e := ordered[n];
      var idx := IndexAt(z, n);
      s := Marked(s, e);
      s := ProcessMatured(z, s, e, idx, |SymbolEvents(ordered, e.symbol)| - 1);
      s := FollowTarget(z, s, e, idx, targets(n));
      s := ChargeFunding(z, s);
      s := CheckLiquidation(z, s, e.ts);
      s := Record(z, s, n);
    }
    CurveGrows(z, |ordered|);
    r := Ok(ResultOf(s));
  }
}
