/** Where the money of a backtest goes: every recorded equity point is the initial equity plus what
    price moves earned, minus fees, slippage and funding. */
module BacktestAccounting {
  import opened Backtest
  import opened Market
  import opened RealMath
  import opened Sorting
  import opened Values

  /** What a fill cost by its price having moved from the mark, with its sign. */
  function Signed(f: Fill): real {
    Mul(f.qty, f.price - f.requested)
  }

  /** Equity with every cost so far added back. */
  function Basis(z: Setup, s: State): real {
    Equity(z, s) + SumOver(s.fills, Fee) + SumOver(s.fills, Signed) + s.funding
  }

  /** Every symbol configured once, every event of a configured symbol. */
  ghost predicate Configured(z: Setup) {
    Distinct(z.symbols) && forall e :: e in z.ordered ==> e.symbol in z.symbols
  }

  /** Changing one position changes the value of the positions by that much. */
  lemma ValueChanges(
      symbols: seq<string>, positions: map<string, real>, prices: map<string, real>, symbol: string, q: real)
    requires Distinct(symbols) && symbol in symbols
    ensures var after := positions[symbol := Get(positions, symbol) + q];
      SumOver(symbols, ValueOf(after, prices)) ==
        SumOver(symbols, ValueOf(positions, prices)) + Mul(q, Get(prices, symbol))
  {
    hide Mul;
    var after := positions[symbol := Get(positions, symbol) + q];
    var at :| 0 <= at < |symbols| && symbols[at] == symbol;
    MulDistributes(Get(positions, symbol), q, Get(prices, symbol));
    SumOverChange(symbols, at, ValueOf(positions, prices), ValueOf(after, prices));
  }

  /** Booking a fill marked at the last price turns equity into cost, nothing else. */
  lemma BookedKeepsBasis(z: Setup, s: State, fill: Fill)
    requires Distinct(z.symbols) && fill.symbol in z.symbols && fill.requested == Get(s.lastPrice, fill.symbol)
    ensures Basis(z, Booked(s, fill)) == Basis(z, s)
  {
    hide Mul, SumOver;
    ValueChanges(z.symbols, s.positions, s.lastPrice, fill.symbol, fill.qty);
    MulDistributes(fill.qty, fill.price, fill.requested);
    SumOverSnoc(s.fills, fill, Fee);
    SumOverSnoc(s.fills, fill, Signed);
  }

  /** The basis depends on the money, not on the orders. */
  lemma SameMoney(z: Setup, s: State, t: State)
    ensures
      t.cash == s.cash && t.positions == s.positions && t.lastPrice == s.lastPrice && t.fills == s.fills
      && t.funding == s.funding
      ==> Basis(z, t) == Basis(z, s)
  {
  }

  lemma FillOrderKeepsBasis(z: Setup, s: State, o: Order, e: Event, idx: int, last: int)
    requires Distinct(z.symbols) && e.symbol in z.symbols && o.symbol == e.symbol
      && Get(s.lastPrice, e.symbol) == e.close
    ensures var t := FillOrder(z, s, o, e, idx, last);
      Basis(z, t) == Basis(z, s) && t.lastPrice == s.lastPrice
  {
    hide Mul, Basis, FillAt, FilledQty, SlippageRate, FeeRate;
    var isMaker := z.rng(s.draws) < z.cfg.makerProbability;
    var filled := FilledQty(z.cfg, o, e.close);
    var q := if o.qty > 0.0 then filled else -filled;
    var rate := SlippageRate(z.cfg, e.close, Abs(o.qty));
    var fill := FillAt(OrderFillId(o.sequence), o.symbol, q, e.close, rate, FeeRate(z.cfg, isMaker), e.ts);
    FillAtLabels(OrderFillId(o.sequence), o.symbol, q, e.close, rate, FeeRate(z.cfg, isMaker), e.ts);
    var drawn := s.(draws := s.draws + 1);
    BookedKeepsBasis(z, drawn, fill);
    SameMoney(z, s, drawn);
    SameMoney(z, s, drawn.(pending := drawn.pending + [o]));
    SameMoney(z, Booked(drawn, fill), FillOrder(z, s, o, e, idx, last));
  }

  lemma {:induction false} FillsKeepBasis(
      z: Setup, s: State, matured: seq<Order>, e: Event, idx: int, last: int, n: nat)
    requires n <= |matured| && forall i :: 0 <= i < |matured| ==> matured[i].symbol == e.symbol
    requires Distinct(z.symbols) && e.symbol in z.symbols && Get(s.lastPrice, e.symbol) == e.close
    ensures var t := FillUpTo(z, s, matured, e, idx, last, n);
      Basis(z, t) == Basis(z, s) && t.lastPrice == s.lastPrice
  {
    hide FillOrder, Basis;
    if n > 0 {
      FillsKeepBasis(z, s, matured, e, idx, last, n - 1);
      FillOrderKeepsBasis(z, FillUpTo(z, s, matured, e, idx, last, n - 1), matured[n - 1], e, idx, last);
    }
  }

  lemma MaturedAreDue(pending: seq<Order>, symbol: string, idx: int)
    ensures forall i :: 0 <= i < |Filter(pending, Due(symbol, idx))| ==>
      var o := Filter(pending, Due(symbol, idx))[i];
      o in pending && o.symbol == symbol && o.executeIdx <= idx
  {
  }

  lemma FillMaturedKeepsBasis(z: Setup, s: State, e: Event, idx: int, last: int)
    requires Distinct(z.symbols) && e.symbol in z.symbols && Get(s.lastPrice, e.symbol) == e.close
    ensures var t := FillMatured(z, s, e, idx, last);
      Basis(z, t) == Basis(z, s) && t.lastPrice == s.lastPrice
  {
    hide Filter, SumOver, FillUpTo;
    MaturedAreDue(s.pending, e.symbol, idx);
    var matured := Filter(s.pending, Due(e.symbol, idx));
    FillsKeepBasis(z, s.(pending := Filter(s.pending, NotDue(e.symbol, idx))), matured, e, idx, last, |matured|);
  }

  lemma {:induction false} CancelsKeepMoney(z: Setup, s: State, stale: seq<Order>, n: nat)
    requires n <= |stale|
    ensures var t := CancelUpTo(z, s, stale, n);
      && t.cash == s.cash && t.positions == s.positions && t.lastPrice == s.lastPrice && t.fills == s.fills
      && t.funding == s.funding && t.targets == s.targets
  {
    hide Remove;
    if n > 0 {
      CancelsKeepMoney(z, s, stale, n - 1);
    }
  }

  lemma SignalKeepsBasis(z: Setup, s: State, e: Event, executeIdx: int, target: real)
    ensures var t := Signal(z, s, e, executeIdx, target);
      Basis(z, t) == Basis(z, s) && t.lastPrice == s.lastPrice
  {
    hide Filter, SumOver, CancelUpTo;
    var stale := Filter(s.pending, Stale(e.symbol, target - Get(s.targets, e.symbol)));
    CancelsKeepMoney(z, s, stale, |stale|);
  }

  lemma LiquidateSymbolKeepsBasis(z: Setup, s: State, symbol: string, ts: int)
    requires Distinct(z.symbols) && symbol in z.symbols
    ensures var t := LiquidateSymbol(z, s, symbol, ts);
      Basis(z, t) == Basis(z, s) && t.lastPrice == s.lastPrice
  {
    hide Mul, SumOver, FillAt, FeeRate;
    var fill := LiquidationFill(z, s, symbol, ts);
    FillAtLabels(LiquidationId(s.sequence, symbol), symbol, -Get(s.positions, symbol), Get(s.lastPrice, symbol),
                 z.cfg.liquidationPenaltyBps / 10000.0, FeeRate(z.cfg, false), ts);
    BookedKeepsBasis(z, s, fill);
    assert Get(s.positions, symbol) + fill.qty == 0.0;
  }

  lemma {:induction false} LiquidationsKeepBasis(z: Setup, s: State, ts: int, n: nat)
    requires Distinct(z.symbols) && n <= |z.symbols|
    ensures var t := LiquidateUpTo(z, s, ts, n);
      Basis(z, t) == Basis(z, s) && t.lastPrice == s.lastPrice
  {
    hide Basis, LiquidateSymbol;
    if n > 0 {
      LiquidationsKeepBasis(z, s, ts, n - 1);
      LiquidateSymbolKeepsBasis(z, LiquidateUpTo(z, s, ts, n - 1), z.symbols[n - 1], ts);
    }
  }

  lemma LiquidateKeepsBasis(z: Setup, s: State, ts: int)
    requires Distinct(z.symbols)
    ensures var t := Liquidate(z, s, ts);
      Basis(z, t) == Basis(z, s) && t.lastPrice == s.lastPrice
  {
    hide MustLiquidate, LiquidateUpTo, SumOver;
    LiquidationsKeepBasis(z, s.(liquidations := s.liquidations + 1), ts, |z.symbols|);
  }

  // ---------- price moves ----------

  function MoveOf(positions: map<string, real>, before: map<string, real>, after: map<string, real>): string -> real {
    (symbol: string) => Mul(Get(positions, symbol), Get(after, symbol) - Get(before, symbol))
  }

  lemma {:induction false} RevaluedByMoves(
      symbols: seq<string>, positions: map<string, real>, before: map<string, real>, after: map<string, real>)
    ensures SumOver(symbols, ValueOf(positions, after)) ==
      SumOver(symbols, ValueOf(positions, before)) + SumOver(symbols, MoveOf(positions, before, after))
  {
    hide Mul;
    if |symbols| > 0 {
      var n := |symbols| - 1;
      RevaluedByMoves(symbols[..n], positions, before, after);
      MulDistributes(Get(positions, symbols[n]), Get(after, symbols[n]), Get(before, symbols[n]));
    }
  }

  /** What the positions held across event n earned by its price moving. */
  function MoveAt(z: Setup, n: nat): real
    requires n < |z.ordered|
  {
    var s := StateAt(z, n);
    SumOver(z.symbols, MoveOf(s.positions, s.lastPrice, Marked(s, z.ordered[n]).lastPrice))
  }

  /** The sum over the first n events and all symbols of position times price change. */
  function PricePnl(z: Setup, n: nat): real
    requires n <= |z.ordered|
  {
    if n == 0 then 0.0 else PricePnl(z, n - 1) + MoveAt(z, n - 1)
  }

  /** One event changes the basis by its price move alone. */
  lemma StepBasis(z: Setup, s: State, n: nat)
    requires n < |z.ordered| && Configured(z)
    ensures Basis(z, Step(z, s, n)) ==
      Basis(z, s) + SumOver(z.symbols, MoveOf(s.positions, s.lastPrice, Marked(s, z.ordered[n]).lastPrice))
  {
    hide FillMatured, Signal, Liquidate, Filter, EventIndex, ExecuteIdx, AddTo, SumOver, MoveOf;
    var e := z.ordered[n];
    assert e in z.ordered;
    var es, idx := SymbolEvents(z.ordered, e.symbol), IndexAt(z, n);
    var marked := Marked(s, e);
    RevaluedByMoves(z.symbols, s.positions, s.lastPrice, marked.lastPrice);
    FillMaturedKeepsBasis(z, marked, e, idx, |es| - 1);
    var filled := FillMatured(z, marked, e, idx, |es| - 1);
    var executeIdx := ExecuteIdx(es, idx, z.cfg);
    SignalKeepsBasis(z, filled, e, executeIdx, z.targets(n));
    var signalled := Signal(z, filled, e, executeIdx, z.targets(n));
    LiquidateKeepsBasis(z, Fund(z, signalled), e.ts);
  }

  lemma {:induction false} BasisIsPricePnl(z: Setup, n: nat)
    requires n <= |z.ordered| && Configured(z)
    ensures Basis(z, StateAt(z, n)) == z.cfg.initialEquity + PricePnl(z, n)
  {
    hide Step, Basis, MoveOf, SumOver;
    if n == 0 {
      InitialBasis(z);
    } else {
      BasisIsPricePnl(z, n - 1);
      StepBasis(z, StateAt(z, n - 1), n - 1);
    }
  }

  lemma InitialBasis(z: Setup)
    ensures Basis(z, Initial(z)) == z.cfg.initialEquity
  {
    hide FirstClose;
    FlatHasNoValue(z.symbols, Initial(z).positions, Initial(z).lastPrice);
  }

  lemma {:induction false} FlatHasNoValue(symbols: seq<string>, positions: map<string, real>, prices: map<string, real>)
    requires forall symbol :: Get(positions, symbol) == 0.0
    ensures SumOver(symbols, ValueOf(positions, prices)) == 0.0
  {
    if |symbols| > 0 {
      FlatHasNoValue(symbols[..|symbols| - 1], positions, prices);
    }
  }

  /** The k-th equity point is the equity of the state after k events. */
  lemma {:induction false} CurveRecordsEquity(z: Setup, n: nat)
    requires n <= |z.ordered|
    ensures |StateAt(z, n).curve| == n
    ensures forall k :: 0 < k <= n ==> StateAt(z, n).curve[k - 1] == Equity(z, StateAt(z, k))
  {
    hide Step, Equity;
    if n > 0 {
      CurveRecordsEquity(z, n - 1);
      StepCurve(z, StateAt(z, n - 1), n - 1);
    }
  }

  /** At every recorded bar: equity is the initial equity, plus position times price change over
      all events and symbols so far, minus fees, signed slippage and funding. Nothing is assumed
      about prices, rates, targets or draws. */
  lemma EquityIdentity(z: Setup, n: nat, k: nat)
    requires 0 < k <= n <= |z.ordered| && Configured(z)
    ensures |StateAt(z, n).curve| == n
    ensures
      var s := StateAt(z, k);
      StateAt(z, n).curve[k - 1] ==
        z.cfg.initialEquity + PricePnl(z, k) - SumOver(s.fills, Fee) - SumOver(s.fills, Signed) - s.funding
  {
    hide StateAt, PricePnl, SumOver;
    CurveRecordsEquity(z, n);
    BasisIsPricePnl(z, k);
  }

  // ---------- the slippage that is reported ----------

  /** What a fill records as its slippage is its signed cost without the sign. */
  ghost predicate Unsigned(fills: seq<Fill>) {
    forall f :: f in fills ==> f.slippage == Abs(Signed(f))
  }

  /** No fill gained by its price having moved from the mark. */
  ghost predicate Gainless(fills: seq<Fill>) {
    forall f :: f in fills ==> Signed(f) >= 0.0
  }

  ghost predicate NonNegativePrices(prices: map<string, real>) {
    forall symbol :: Get(prices, symbol) >= 0.0
  }

  /** No negative price, and no rate that would turn slippage or a penalty into a gain. */
  ghost predicate Costly(z: Setup) {
    && z.cfg.Valid() && (forall e :: e in z.ordered ==> e.close >= 0.0)
    && z.cfg.slippageBps >= 0.0 && z.cfg.impactBps >= 0.0 && z.cfg.shortageBps >= 0.0
    && z.cfg.liquidationPenaltyBps >= 0.0
  }

  /** What every run keeps of its fills, and what a costly one keeps of them. */
  ghost predicate Recorded(z: Setup, fills: seq<Fill>) {
    Unsigned(fills) && (Costly(z) ==> Gainless(fills))
  }

  lemma FillAtCost(id: string, symbol: string, q: real, mark: real, rate: real, feeRate: real, ts: int)
    ensures var f := FillAt(id, symbol, q, mark, rate, feeRate, ts);
      f.slippage == Abs(Signed(f)) && (mark >= 0.0 && rate >= 0.0 ==> Signed(f) >= 0.0)
  {
    hide Mul;
    var f := FillAt(id, symbol, q, mark, rate, feeRate, ts);
    var d := mark * rate;
    var side := if q > 0.0 then 1.0 else -1.0;
    assert f.price - f.requested == side * d;
    ProductSign(q, f.price - f.requested);
    if mark >= 0.0 && rate >= 0.0 {
      MulLe(0.0, mark, rate);
    }
  }

  lemma ProductSign(q: real, d: real)
    ensures Abs(Mul(q, d)) == Abs(q) * Abs(d)
    ensures (q > 0.0 && d >= 0.0) || (q <= 0.0 && d <= 0.0) ==> Mul(q, d) >= 0.0
  {
    if q > 0.0 {
      ScaledSign(q, d);
    } else {
      ScaledSign(-q, -d);
    }
  }

  lemma ScaledSign(q: real, d: real)
    requires q >= 0.0
    ensures Abs(q * d) == q * Abs(d) && (d >= 0.0 ==> q * d >= 0.0)
  {
    MulLe(0.0, q, Abs(d));
  }

  lemma SlippageRateNonNegative(cfg: Config, close: real, qtyAbs: real)
    requires cfg.Valid() && cfg.slippageBps >= 0.0 && cfg.impactBps >= 0.0 && cfg.shortageBps >= 0.0 && qtyAbs >= 0.0
    ensures SlippageRate(cfg, close, qtyAbs) >= 0.0
  {
    var depth := DepthQty(cfg, close);
    assert depth > 0.0;
    hide DepthQty;
    DivLe(qtyAbs, 0.0, depth);
    MulLe(0.0, cfg.impactBps, Min(2.0, qtyAbs / depth));
  }

  lemma RecordedExtends(z: Setup, fills: seq<Fill>, f: Fill)
    requires Recorded(z, fills) && f.slippage == Abs(Signed(f)) && (Costly(z) ==> Signed(f) >= 0.0)
    ensures Recorded(z, fills + [f])
  {
    hide Costly, Mul;
  }

  lemma FillOrderCosts(z: Setup, s: State, o: Order, e: Event, idx: int, last: int)
    requires Recorded(z, s.fills) && (Costly(z) ==> e.close >= 0.0)
    ensures var t := FillOrder(z, s, o, e, idx, last);
      Recorded(z, t.fills) && t.lastPrice == s.lastPrice
  {
    hide Mul, Recorded, FillAt, FilledQty, SlippageRate, FeeRate;
    var isMaker := z.rng(s.draws) < z.cfg.makerProbability;
    var filled := FilledQty(z.cfg, o, e.close);
    var q := if o.qty > 0.0 then filled else -filled;
    var rate, feeRate := SlippageRate(z.cfg, e.close, Abs(o.qty)), FeeRate(z.cfg, isMaker);
    if Costly(z) {
      SlippageRateNonNegative(z.cfg, e.close, Abs(o.qty));
    }
    FillAtCost(OrderFillId(o.sequence), o.symbol, q, e.close, rate, feeRate, e.ts);
    RecordedExtends(z, s.fills, FillAt(OrderFillId(o.sequence), o.symbol, q, e.close, rate, feeRate, e.ts));
  }

  lemma {:induction false} FillsCosts(z: Setup, s: State, matured: seq<Order>, e: Event, idx: int, last: int, n: nat)
    requires n <= |matured| && Recorded(z, s.fills) && (Costly(z) ==> e.close >= 0.0)
    ensures var t := FillUpTo(z, s, matured, e, idx, last, n);
      Recorded(z, t.fills) && t.lastPrice == s.lastPrice
  {
    hide FillOrder, Recorded, Costly;
    if n > 0 {
      FillsCosts(z, s, matured, e, idx, last, n - 1);
      FillOrderCosts(z, FillUpTo(z, s, matured, e, idx, last, n - 1), matured[n - 1], e, idx, last);
    }
  }

  lemma FillMaturedCosts(z: Setup, s: State, e: Event, idx: int, last: int)
    requires Recorded(z, s.fills) && (Costly(z) ==> e.close >= 0.0)
    ensures var t := FillMatured(z, s, e, idx, last);
      Recorded(z, t.fills) && t.lastPrice == s.lastPrice
  {
    hide Filter, Recorded, FillUpTo, Costly;
    var matured := Filter(s.pending, Due(e.symbol, idx));
    FillsCosts(z, s.(pending := Filter(s.pending, NotDue(e.symbol, idx))), matured, e, idx, last, |matured|);
  }

  lemma LiquidateSymbolCosts(z: Setup, s: State, symbol: string, ts: int)
    requires Recorded(z, s.fills) && (Costly(z) ==> NonNegativePrices(s.lastPrice))
    ensures var t := LiquidateSymbol(z, s, symbol, ts);
      Recorded(z, t.fills) && t.lastPrice == s.lastPrice
  {
    hide Mul, Recorded, FillAt, FeeRate;
    var id, q, mark := LiquidationId(s.sequence, symbol), -Get(s.positions, symbol), Get(s.lastPrice, symbol);
    var rate, feeRate := z.cfg.liquidationPenaltyBps / 10000.0, FeeRate(z.cfg, false);
    FillAtCost(id, symbol, q, mark, rate, feeRate, ts);
    RecordedExtends(z, s.fills, FillAt(id, symbol, q, mark, rate, feeRate, ts));
  }

  lemma {:induction false} LiquidationsCosts(z: Setup, s: State, ts: int, n: nat)
    requires n <= |z.symbols| && Recorded(z, s.fills) && (Costly(z) ==> NonNegativePrices(s.lastPrice))
    ensures var t := LiquidateUpTo(z, s, ts, n);
      Recorded(z, t.fills) && t.lastPrice == s.lastPrice
  {
    hide LiquidateSymbol, Recorded, Costly, NonNegativePrices;
    if n > 0 {
      LiquidationsCosts(z, s, ts, n - 1);
      LiquidateSymbolCosts(z, LiquidateUpTo(z, s, ts, n - 1), z.symbols[n - 1], ts);
    }
  }

  lemma LiquidateCosts(z: Setup, s: State, ts: int)
    requires Recorded(z, s.fills) && (Costly(z) ==> NonNegativePrices(s.lastPrice))
    ensures var t := Liquidate(z, s, ts);
      Recorded(z, t.fills) && t.lastPrice == s.lastPrice
  {
    hide MustLiquidate, LiquidateUpTo, Recorded, Costly, NonNegativePrices;
    LiquidationsCosts(z, s.(liquidations := s.liquidations + 1), ts, |z.symbols|);
  }

  lemma SignalCosts(z: Setup, s: State, e: Event, executeIdx: int, target: real)
    ensures var t := Signal(z, s, e, executeIdx, target);
      t.fills == s.fills && t.lastPrice == s.lastPrice
  {
    hide Filter, CancelUpTo;
    var stale := Filter(s.pending, Stale(e.symbol, target - Get(s.targets, e.symbol)));
    CancelsKeepMoney(z, s, stale, |stale|);
  }

  lemma MarkedNonNegative(z: Setup, s: State, n: nat)
    requires n < |z.ordered| && Costly(z) && NonNegativePrices(s.lastPrice)
    ensures z.ordered[n].close >= 0.0 && NonNegativePrices(Marked(s, z.ordered[n]).lastPrice)
  {
    assert z.ordered[n] in z.ordered;
    forall symbol ensures Get(Marked(s, z.ordered[n]).lastPrice, symbol) >= 0.0 {
      assert Get(s.lastPrice, symbol) >= 0.0;
    }
  }

  lemma InitialNonNegative(z: Setup)
    ensures Recorded(z, Initial(z).fills) && (Costly(z) ==> NonNegativePrices(Initial(z).lastPrice))
  {
    forall symbol | symbol in z.symbols && Costly(z) ensures FirstClose(z.ordered, symbol) >= 0.0 {
      var es := SymbolEvents(z.ordered, symbol);
      assert forall e :: e in es ==> e in z.ordered;
    }
  }

  lemma StepCosts(z: Setup, s: State, n: nat)
    requires n < |z.ordered| && Recorded(z, s.fills) && (Costly(z) ==> NonNegativePrices(s.lastPrice))
    ensures var t := Step(z, s, n);
      Recorded(z, t.fills) && (Costly(z) ==> NonNegativePrices(t.lastPrice))
  {
    hide FillMatured, Signal, Liquidate, Filter, EventIndex, ExecuteIdx, AddTo, SumOver, Recorded, Costly,
      NonNegativePrices;
    var e := z.ordered[n];
    if Costly(z) {
      MarkedNonNegative(z, s, n);
    }
    var es, idx := SymbolEvents(z.ordered, e.symbol), IndexAt(z, n);
    var marked := Marked(s, e);
    FillMaturedCosts(z, marked, e, idx, |es| - 1);
    var filled := FillMatured(z, marked, e, idx, |es| - 1);
    var executeIdx := ExecuteIdx(es, idx, z.cfg);
    SignalCosts(z, filled, e, executeIdx, z.targets(n));
    LiquidateCosts(z, Fund(z, Signal(z, filled, e, executeIdx, z.targets(n))), e.ts);
  }

  lemma {:induction false} RunCosts(z: Setup, n: nat)
    requires n <= |z.ordered|
    ensures var s := StateAt(z, n);
      Recorded(z, s.fills) && (Costly(z) ==> NonNegativePrices(s.lastPrice))
  {
    hide Step, Initial, Costly, Recorded, NonNegativePrices;
    if n == 0 {
      InitialNonNegative(z);
    } else {
      RunCosts(z, n - 1);
      StepCosts(z, StateAt(z, n - 1), n - 1);
    }
  }

  /** The recorded slippage is the signed cost exactly when no fill gained, and more otherwise. */
  lemma {:induction false} UnsignedSums(fills: seq<Fill>)
    requires Unsigned(fills)
    ensures SumOver(fills, Slippage) >= SumOver(fills, Signed)
    ensures SumOver(fills, Slippage) == SumOver(fills, Signed) <==> Gainless(fills)
  {
    hide Mul;
    if |fills| > 0 {
      var n := |fills| - 1;
      assert fills[n] in fills;
      assert forall f :: f in fills <==> f in fills[..n] || f == fills[n];
      UnsignedSums(fills[..n]);
    }
  }

  /** What a run reports adds up - final equity is the initial equity plus the price moves, minus
      the reported fees, slippage costs and funding - if and only if no fill gained by slippage or
      by a liquidation penalty. Otherwise the report charges the gains as costs, and the final
      equity is above what it adds up to. */
  lemma ReportAddsUpExactlyWhen(z: Setup)
    requires Configured(z) && |z.ordered| > 0
    ensures |StateAt(z, |z.ordered|).curve| > 0
    ensures
      var r := ResultOf(StateAt(z, |z.ordered|));
      var reported := z.cfg.initialEquity + PricePnl(z, |z.ordered|) - r.totalFee - r.totalSlippage - r.funding;
      && r.finalEquity >= reported
      && (r.finalEquity == reported <==> Gainless(StateAt(z, |z.ordered|).fills))
  {
    hide StateAt, PricePnl, SumOver, Costly, Configured, Unsigned, Gainless;
    var n := |z.ordered|;
    EquityIdentity(z, n, n);
    RunCosts(z, n);
    UnsignedSums(StateAt(z, n).fills);
  }

  /** What can be checked before the run: without negative prices and rates the report adds up. */
  lemma ReportAddsUp(z: Setup)
    requires Configured(z) && Costly(z) && |z.ordered| > 0
    ensures |StateAt(z, |z.ordered|).curve| > 0
    ensures var r := ResultOf(StateAt(z, |z.ordered|));
      r.finalEquity == z.cfg.initialEquity + PricePnl(z, |z.ordered|) - r.totalFee - r.totalSlippage - r.funding
  {
    hide StateAt, PricePnl, SumOver, Costly, Configured, Gainless;
    ReportAddsUpExactlyWhen(z);
    RunCosts(z, |z.ordered|);
  }

  /** One symbol at 100 on two bars, target 1 from the first on, and a slippage of `slippageBps`. */
  function TwoBars(slippageBps: real): Setup {
    Setup(
      Config(0.0, slippageBps, 0, 0, 10000.0, None, None, 0.0, 1.0, 0.0, 0.0, 100000.0, 0.0, 0.0, 10.0, 0.0, 0.0, 0.0),
      ["BTC"], [Event("BTC", 100.0, 0), Event("BTC", 100.0, 1)], n => 1.0, None, n => 0.5)
  }

  lemma TwoBarsEvents(slippageBps: real)
    ensures var z := TwoBars(slippageBps);
      SymbolEvents(z.ordered, "BTC") == z.ordered && IndexAt(z, 0) == 0 && IndexAt(z, 1) == 1
  {
    var z := TwoBars(slippageBps);
    var first, second := z.ordered[0], z.ordered[1];
    FilterSnoc([], first, OfSymbol("BTC"));
    FilterSnoc([first], second, OfSymbol("BTC"));
    assert [] + [first] == [first] && [first] + [second] == z.ordered;
  }

  lemma OneFiltered(o: Order, p: Order -> bool)
    ensures Filter([o], p) == if p(o) then [o] else []
  {
    FilterSnoc([], o, p);
    assert [] + [o] == [o];
  }

  /** After the first bar the order for the target is in the book. */
  lemma TwoBarsOrder(slippageBps: real)
    ensures var s := StateAt(TwoBars(slippageBps), 1);
      s.pending == [Order(0, 0, "BTC", 1.0, 100.0, 0)] && s.fills == []
  {
    hide Liquidate, IndexAt;
    var z := TwoBars(slippageBps);
    TwoBarsEvents(slippageBps);
    var s, e := Initial(z), z.ordered[0];
    assert StateAt(z, 0) == s && StateAt(z, 1) == Step(z, s, 0);
    var marked := Marked(s, e);
    var signalled := Signal(z, FillMatured(z, marked, e, 0, 1), e, 0, 1.0);
    assert signalled.pending == [Order(0, 0, "BTC", 1.0, 100.0, 0)];
    FlatStays(z, Fund(z, signalled), 0);
  }

  /** Liquidating finds nothing to do where there are no positions. */
  lemma {:induction false} FlatStays(z: Setup, s: State, ts: int)
    requires forall symbol :: Get(s.positions, symbol) == 0.0
    ensures Liquidate(z, s, ts).(liquidations := s.liquidations) == s
  {
    hide MustLiquidate;
    FlatStaysUpTo(z, s.(liquidations := s.liquidations + 1), ts, |z.symbols|);
  }

  lemma {:induction false} FlatStaysUpTo(z: Setup, s: State, ts: int, n: nat)
    requires n <= |z.symbols| && forall symbol :: Get(s.positions, symbol) == 0.0
    ensures LiquidateUpTo(z, s, ts, n) == s
  {
    if n > 0 {
      FlatStaysUpTo(z, s, ts, n - 1);
    }
  }

  lemma {:induction false} LiquidationsKeepFills(z: Setup, s: State, ts: int, n: nat, f: Fill)
    requires n <= |z.symbols| && f in s.fills
    ensures f in LiquidateUpTo(z, s, ts, n).fills
  {
    hide LiquidationFill, Mul;
    if n > 0 {
      LiquidationsKeepFills(z, s, ts, n - 1, f);
    }
  }

  lemma TwoBarsFillRatio(slippageBps: real)
    ensures var cfg := TwoBars(slippageBps).cfg;
      FillRatio(cfg, 100.0, 1.0) == 1.0 && SlippageRate(cfg, 100.0, 1.0) == slippageBps / 10000.0
  {
    var cfg := TwoBars(slippageBps).cfg;
    assert DepthQty(cfg, 100.0) == 1000.0 && QueueQty(cfg, 100.0) == 0.0;
    assert QueueFactor(1000.0, 0.0) == 1.0;
  }

  lemma OneOrderFilled(z: Setup, s: State, o: Order, e: Event)
    requires s.pending == [o] && o.symbol == e.symbol && o.executeIdx <= 1 && o.qty == 1.0
    requires FillRatio(z.cfg, e.close, 1.0) == 1.0 && z.rng(s.draws) >= z.cfg.makerProbability && s.fills == []
    ensures FillMatured(z, s, e, 1, 1).fills ==
      [FillAt(OrderFillId(o.sequence), o.symbol, 1.0, e.close, SlippageRate(z.cfg, e.close, 1.0),
        FeeRate(z.cfg, false), e.ts)]
  {
    hide FillAt, FeeRate, FillRatio, SlippageRate, OrderFillId;
    OneFiltered(o, Due(e.symbol, 1));
    OneFiltered(o, NotDue(e.symbol, 1));
    var emptied := s.(pending := []);
    assert FillUpTo(z, emptied, [o], e, 1, 1, 1) == FillOrder(z, FillUpTo(z, emptied, [o], e, 1, 1, 0), o, e, 1, 1);
    assert FilledQty(z.cfg, o, e.close) == 1.0;
  }

  /** On the second bar it is filled in full. */
  lemma TwoBarsFill(slippageBps: real)
    ensures var z := TwoBars(slippageBps);
      FillAt(OrderFillId(0), "BTC", 1.0, 100.0, slippageBps / 10000.0, FeeRate(z.cfg, false), 1) in StateAt(z, 2).fills
  {
    hide StateAt, IndexAt, FillAt, FeeRate, FillRatio, SlippageRate, FillMatured, Signal, OrderFillId;
    var z := TwoBars(slippageBps);
    TwoBarsEvents(slippageBps);
    TwoBarsOrder(slippageBps);
    TwoBarsFillRatio(slippageBps);
    var s, e := StateAt(z, 1), z.ordered[1];
    var marked := Marked(s, e);
    OneOrderFilled(z, marked, Order(0, 0, "BTC", 1.0, 100.0, 0), e);
    SignalCosts(z, FillMatured(z, marked, e, 1, 1), e, ExecuteIdx(z.ordered, 1, z.cfg), 1.0);
    var fill := FillAt(OrderFillId(0), "BTC", 1.0, 100.0, slippageBps / 10000.0, FeeRate(z.cfg, false), 1);
    SecondStep(z, s, Signal(z, FillMatured(z, marked, e, 1, 1), e, ExecuteIdx(z.ordered, 1, z.cfg), 1.0), fill);
  }

  lemma SecondStep(z: Setup, s: State, signalled: State, fill: Fill)
    requires |z.ordered| == 2 && fill in signalled.fills
    requires s == StateAt(z, 1)
    requires
      var e := z.ordered[1];
      var es := SymbolEvents(z.ordered, e.symbol);
      var idx := IndexAt(z, 1);
      signalled == Signal(z, FillMatured(z, Marked(s, e), e, idx, |es| - 1), e, ExecuteIdx(es, idx, z.cfg),
        z.targets(1))
    ensures fill in StateAt(z, 2).fills
  {
    hide FillMatured, Signal, MustLiquidate, LiquidateUpTo, ExecuteIdx, AddTo, Filter, SumOver;
    var funded := Fund(z, signalled);
    LiquidationsKeepFills(z, funded.(liquidations := funded.liquidations + 1), z.ordered[1].ts, |z.symbols|, fill);
    assert StateAt(z, 2) == Step(z, s, 1);
  }

  /** A slippage of minus ten basis points, which the configuration check accepts: the order is
      filled below the mark, the gain is reported as a cost, and the report does not add up. */
  lemma ReportCanMissEquity() returns (z: Setup)
    ensures Configured(z) && z.cfg.Valid() && z.cfg.slippageBps == -10.0 && |z.ordered| == 2
    ensures
      var r := ResultOf(StateAt(z, 2));
      r.finalEquity > z.cfg.initialEquity + PricePnl(z, 2) - r.totalFee - r.totalSlippage - r.funding
  {
    hide StateAt, PricePnl, SumOver;
    z := TwoBars(-10.0);
    TwoBarsFill(-10.0);
    var f := FillAt(OrderFillId(0), "BTC", 1.0, 100.0, -0.001, FeeRate(z.cfg, false), 1);
    assert Signed(f) == -0.1;
    ReportAddsUpExactlyWhen(z);
  }

  // ---------- regimes ----------

  function Amount(entry: (string, real)): real {
    entry.1
  }

  lemma {:induction false} AddToSums(entries: seq<(string, real)>, key: string, amount: real)
    ensures SumOver(AddTo(entries, key, amount), Amount) == SumOver(entries, Amount) + amount
  {
    if |entries| == 0 {
      assert [(key, amount)][..0] == [];
    } else {
      var rest := entries[1..];
      SumOverConcat([entries[0]], rest, Amount);
      assert entries == [entries[0]] + rest;
      if entries[0].0 == key {
        SumOverConcat([(key, entries[0].1 + amount)], rest, Amount);
        assert [entries[0]][..0] == [] && [(key, entries[0].1 + amount)][..0] == [];
      } else {
        AddToSums(rest, key, amount);
        SumOverConcat([entries[0]], AddTo(rest, key, amount), Amount);
      }
    }
  }

  /** The equity changes booked to the regimes add up to the last recorded equity minus the
      first, whatever the regimes are. */
  lemma {:induction false} RegimesSumToEquityChange(z: Setup, n: nat)
    requires 0 < n <= |z.ordered| && z.regime.Some?
    ensures |StateAt(z, n).curve| == n
    ensures var s := StateAt(z, n);
      SumOver(s.regimes, Amount) == s.curve[n - 1] - s.curve[0]
  {
    hide Step, Equity, AddTo;
    var before := StateAt(z, n - 1);
    StepCurve(z, before, n - 1);
    CurveGrows(z, n - 1);
    var change := if n > 1 then Equity(z, StateAt(z, n)) - before.curve[n - 2] else 0.0;
    AddToSums(before.regimes, z.regime.value(n - 1), change);
    if n > 1 {
      RegimesSumToEquityChange(z, n - 1);
    }
  }

  /** What the regimes' entry for a key stands for. */
  function Lookup(entries: seq<(string, real)>, key: string): real {
    if |entries| == 0 then 0.0 else if entries[0].0 == key then entries[0].1 else Lookup(entries[1..], key)
  }

  /** The equity changes over the events of one regime, among the first n. */
  function RegimeChange(z: Setup, n: nat, key: string): real
    requires n <= |z.ordered| && z.regime.Some?
  {
    if n < 2 then 0.0
    else RegimeChange(z, n - 1, key)
         + if z.regime.value(n - 1) == key then Equity(z, StateAt(z, n)) - Equity(z, StateAt(z, n - 1)) else 0.0
  }

  lemma {:induction false} AddToLookup(entries: seq<(string, real)>, key: string, amount: real, other: string)
    ensures Lookup(AddTo(entries, key, amount), other) == Lookup(entries, other) + if other == key then amount else 0.0
  {
    if |entries| > 0 && entries[0].0 != key {
      AddToLookup(entries[1..], key, amount, other);
    }
  }

  /** Every regime is given exactly the equity changes of its own events. */
  lemma {:induction false} RegimeGetsItsChanges(z: Setup, n: nat, key: string)
    requires n <= |z.ordered| && z.regime.Some?
    ensures Lookup(StateAt(z, n).regimes, key) == RegimeChange(z, n, key)
  {
    hide Step, Equity, AddTo, Initial;
    if n == 0 {
      NoRegimesYet(z, key);
    } else {
      var before := StateAt(z, n - 1);
      RegimeGetsItsChanges(z, n - 1, key);
      StepCurve(z, before, n - 1);
      CurveRecordsEquity(z, n - 1);
      var change := if n > 1 then Equity(z, StateAt(z, n)) - before.curve[n - 2] else 0.0;
      AddToLookup(before.regimes, z.regime.value(n - 1), change, key);
    }
  }

  lemma NoRegimesYet(z: Setup, key: string)
    ensures Lookup(Initial(z).regimes, key) == 0.0
  {
    hide FirstClose;
  }

  // ---------- funding and liquidation ----------

  lemma {:induction false} FundingSums(
      symbols: seq<string>, positions: map<string, real>, prices: map<string, real>, rate: real)
    ensures SumOver(symbols, FundingOf(positions, prices, rate)) ==
      Mul(SumOver(symbols, GrossOf(positions, prices)), rate)
  {
    hide Mul, Abs;
    if |symbols| == 0 {
      MulZero(rate);
    } else {
      var n := |symbols| - 1;
      FundingSums(symbols[..n], positions, prices, rate);
      MulDistributes(SumOver(symbols[..n], GrossOf(positions, prices)), GrossOf(positions, prices)(symbols[n]), rate);
    }
  }

  /** A bar's funding is the funding rate on the gross notional, taken out of equity. */
  lemma FundingIsShareOfGross(z: Setup, s: State)
    ensures Fund(z, s).funding == s.funding + Mul(Gross(z, s), z.cfg.fundingRatePerBar)
    ensures Equity(z, Fund(z, s)) == Equity(z, s) - Mul(Gross(z, s), z.cfg.fundingRatePerBar)
  {
    hide Mul, SumOver;
    FundingSums(z.symbols, s.positions, s.lastPrice, z.cfg.fundingRatePerBar);
  }

  lemma {:induction false} LiquidatedSoFar(z: Setup, s: State, ts: int, n: nat)
    requires n <= |z.symbols|
    ensures forall i :: 0 <= i < n ==> Abs(Get(LiquidateUpTo(z, s, ts, n).positions, z.symbols[i])) <= DUST
  {
    hide LiquidationFill, Mul;
    if n > 0 {
      LiquidatedSoFar(z, s, ts, n - 1);
    }
  }

  /** When the margin check fails, no configured symbol keeps more than dust; otherwise nothing
      happens at all. */
  lemma LiquidationFlattens(z: Setup, s: State, ts: int)
    ensures if MustLiquidate(z, s)
      then
        && Liquidate(z, s, ts).liquidations == s.liquidations + 1
        && forall symbol :: symbol in z.symbols ==> Abs(Get(Liquidate(z, s, ts).positions, symbol)) <= DUST
      else Liquidate(z, s, ts) == s
  {
    hide MustLiquidate, LiquidateUpTo, Abs;
    var counted := s.(liquidations := s.liquidations + 1);
    LiquidatedSoFar(z, counted, ts, |z.symbols|);
    LiquidationsCounted(z, counted, ts, |z.symbols|);
  }

  lemma {:induction false} LiquidationsCounted(z: Setup, s: State, ts: int, n: nat)
    requires n <= |z.symbols|
    ensures LiquidateUpTo(z, s, ts, n).liquidations == s.liquidations
  {
    hide LiquidationFill, Mul;
    if n > 0 {
      LiquidationsCounted(z, s, ts, n - 1);
    }
  }
}
