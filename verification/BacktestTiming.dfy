/** When, on which side and how far the orders of a backtest fill: every fill is traced back to the
    event that signalled its order. */
module BacktestTiming {
  import opened Backtest
  import opened BacktestAccounting
  import opened BacktestOrders
  import opened Decimals
  import opened Market
  import opened RealMath
  import opened Sorting
  import opened Values

  // ---------- where orders and fills come from ----------

  /** Order o is what event m signals. */
  predicate SignalledBy(z: Setup, o: Order, m: nat) {
    && m < |z.ordered| && o.qty != 0.0 && o.symbol == z.ordered[m].symbol && o.ts == z.ordered[m].ts
    && o.executeIdx == ExecuteIdx(SymbolEvents(z.ordered, o.symbol), IndexAt(z, m), z.cfg)
  }

  /** Order p is what is left of the signalled order o. */
  predicate Origin(o: Order, p: Order) {
    p.sequence == o.sequence && p.symbol == o.symbol && Within(o.qty, p.qty) && p.executeIdx >= o.executeIdx
  }

  predicate OwnFill(o: Order, f: Fill) {
    f.id == OrderFillId(o.sequence) && f.symbol == o.symbol && f.qty != 0.0 && Within(o.qty, f.qty)
  }

  predicate Liquidation(f: Fill) {
    |f.id| > 0 && f.id[0] == 'l'
  }

  ghost predicate HasOrigin(signalled: seq<Order>, p: Order) {
    exists o :: o in signalled && Origin(o, p)
  }

  ghost predicate Traced(signalled: seq<Order>, os: seq<Order>) {
    forall p :: p in os ==> HasOrigin(signalled, p)
  }

  ghost predicate Nonzero(os: seq<Order>) {
    forall p :: p in os ==> p.qty != 0.0
  }

  ghost predicate FillsTraced(signalled: seq<Order>, fills: seq<Fill>) {
    forall f :: f in fills ==> Liquidation(f) || exists o :: o in signalled && OwnFill(o, f)
  }

  /** Signalled orders come from the first n events, numbered upwards below the counter. */
  ghost predicate SignalsTraced(z: Setup, s: State, n: nat) {
    && (forall o :: o in s.signalled ==> o.sequence < s.sequence && exists m: nat :: m < n && SignalledBy(z, o, m))
    && forall i, j :: 0 <= i < j < |s.signalled| ==> s.signalled[i].sequence < s.signalled[j].sequence
  }

  ghost predicate OrdersTraced(s: State) {
    && Traced(s.signalled, s.pending) && Nonzero(s.pending)
    && Traced(s.signalled, s.cancelled) && Traced(s.signalled, s.dropped)
  }

  lemma TracedExtends(signalled: seq<Order>, os: seq<Order>, p: Order)
    requires Traced(signalled, os) && HasOrigin(signalled, p)
    ensures Traced(signalled, os + [p])
  {
    hide HasOrigin;
  }

  lemma NonzeroExtends(os: seq<Order>, p: Order)
    requires Nonzero(os) && p.qty != 0.0
    ensures Nonzero(os + [p])
  {
  }

  lemma TracedMembers(signalled: seq<Order>, os: seq<Order>, fewer: seq<Order>)
    requires forall p :: p in fewer ==> p in os
    ensures Traced(signalled, os) ==> Traced(signalled, fewer)
    ensures Nonzero(os) ==> Nonzero(fewer)
  {
    hide HasOrigin;
  }

  lemma TracedLater(signalled: seq<Order>, o: Order, os: seq<Order>)
    requires Traced(signalled, os)
    ensures Traced(signalled + [o], os)
  {
    forall p | p in os ensures HasOrigin(signalled + [o], p) {
      var x :| x in signalled && Origin(x, p);
      assert x in signalled + [o];
    }
  }

  lemma {:induction false} RemoveMembers(os: seq<Order>, x: Order)
    ensures forall p :: p in Remove(os, x) ==> p in os
  {
    if |os| > 0 {
      RemoveMembers(os[1..], x);
      assert os == [os[0]] + os[1..];
    }
  }

  // ---------- fills ----------

  /** A fill made at event e, at bar idx of its symbol, of an order that may execute there. */
  ghost predicate Timely(signalled: seq<Order>, e: Event, idx: int, f: Fill) {
    f.symbol == e.symbol && f.ts == e.ts && exists o :: o in signalled && OwnFill(o, f) && o.executeIdx <= idx
  }

  /** The fills added since, all timely. */
  ghost predicate TimelySince(before: seq<Fill>, after: seq<Fill>, signalled: seq<Order>, e: Event, idx: int) {
    before <= after && forall j :: |before| <= j < |after| ==> Timely(signalled, e, idx, after[j])
  }

  lemma TimelyExtends(before: seq<Fill>, after: seq<Fill>, signalled: seq<Order>, e: Event, idx: int, f: Fill)
    requires TimelySince(before, after, signalled, e, idx) && Timely(signalled, e, idx, f)
    ensures TimelySince(before, after + [f], signalled, e, idx)
  {
    hide Timely;
  }

  lemma WithinTransitive(a: real, b: real, c: real)
    requires Within(a, b) && b != 0.0 && Within(b, c)
    ensures Within(a, c)
  {
  }

  /** No order may execute after its symbol's last bar. */
  lemma ExecuteIdxWithin(es: seq<Event>, i: nat, cfg: Config)
    requires i < |es|
    ensures ExecuteIdx(es, i, cfg) <= |es| - 1
  {
  }

  lemma OriginExecutable(z: Setup, s: State, n: nat, o: Order)
    requires SignalsTraced(z, s, n) && o in s.signalled
    ensures o.executeIdx <= |SymbolEvents(z.ordered, o.symbol)| - 1
  {
    hide ExecuteIdx, EventIndex, Filter;
    var m: nat :| m < n && SignalledBy(z, o, m);
    ExecuteIdxWithin(SymbolEvents(z.ordered, o.symbol), IndexAt(z, m), z.cfg);
  }

  /** Filling a traced order at a bar it may execute at keeps everything traced, timely. */
  lemma FillOrderTraced(z: Setup, s: State, o: Order, e: Event, idx: int, last: int)
    requires z.cfg.Valid() && OrdersTraced(s) && o.qty != 0.0 && HasOrigin(s.signalled, o)
    requires o.symbol == e.symbol && o.executeIdx <= idx
    requires forall x :: x in s.signalled && x.symbol == e.symbol ==> x.executeIdx <= last
    ensures var t := FillOrder(z, s, o, e, idx, last);
      && OrdersTraced(t) && t.signalled == s.signalled && t.sequence == s.sequence && t.flattened == s.flattened
      && exists f :: t.fills == s.fills + [f] && Timely(s.signalled, e, idx, f)
  {
    hide FillOrder, OrderFill, Traced, Nonzero, OrderFillId, Within;
    FillOrderEffect(z, s, o, e, idx, last);
    var f := OrderFill(z, s, o, e);
    var residual := Residual(o, f.qty, e, idx, last);
    var x :| x in s.signalled && Origin(x, o);
    WithinTransitive(x.qty, o.qty, f.qty);
    WithinTransitive(x.qty, o.qty, residual.qty);
    assert OwnFill(x, f);
    assert Origin(x, residual);
    TracedExtends(s.signalled, s.pending, residual);
    TracedExtends(s.signalled, s.dropped, residual);
    if Abs(residual.qty) > DUST {
      NonzeroExtends(s.pending, residual);
    }
    assert Timely(s.signalled, e, idx, f);
  }

  lemma {:induction false} FillsTracedUpTo(
      z: Setup, s: State, matured: seq<Order>, e: Event, idx: int, last: int, n: nat)
    requires z.cfg.Valid() && n <= |matured| && OrdersTraced(s)
    requires forall i :: 0 <= i < |matured| ==>
      matured[i].symbol == e.symbol && matured[i].executeIdx <= idx && matured[i].qty != 0.0
      && HasOrigin(s.signalled, matured[i])
    requires forall x :: x in s.signalled && x.symbol == e.symbol ==> x.executeIdx <= last
    ensures var t := FillUpTo(z, s, matured, e, idx, last, n);
      && OrdersTraced(t) && t.signalled == s.signalled && t.sequence == s.sequence && t.flattened == s.flattened
      && TimelySince(s.fills, t.fills, s.signalled, e, idx)
  {
    hide FillOrder, OrdersTraced, HasOrigin, Timely;
    if n > 0 {
      FillsTracedUpTo(z, s, matured, e, idx, last, n - 1);
      var t := FillUpTo(z, s, matured, e, idx, last, n - 1);
      FillOrderTraced(z, t, matured[n - 1], e, idx, last);
      var f :| FillOrder(z, t, matured[n - 1], e, idx, last).fills == t.fills + [f] && Timely(s.signalled, e, idx, f);
      TimelyExtends(s.fills, t.fills, s.signalled, e, idx, f);
    }
  }

  lemma FillMaturedTraced(z: Setup, s: State, e: Event, idx: int, n: nat)
    requires z.cfg.Valid() && OrdersTraced(s) && SignalsTraced(z, s, n)
    ensures var t := FillMatured(z, s, e, idx, |SymbolEvents(z.ordered, e.symbol)| - 1);
      && OrdersTraced(t) && t.signalled == s.signalled && t.sequence == s.sequence && t.flattened == s.flattened
      && TimelySince(s.fills, t.fills, s.signalled, e, idx)
  {
    hide FillUpTo, HasOrigin, Timely, SignalsTraced, SymbolEvents, TimelySince;
    var matured := Filter(s.pending, Due(e.symbol, idx));
    var kept := s.(pending := Filter(s.pending, NotDue(e.symbol, idx)));
    forall i | 0 <= i < |matured|
      ensures matured[i].symbol == e.symbol && matured[i].executeIdx <= idx && matured[i].qty != 0.0
      ensures HasOrigin(s.signalled, matured[i])
    {
      assert matured[i] in matured;
      assert Due(e.symbol, idx)(matured[i]);
    }
    TracedMembers(s.signalled, s.pending, kept.pending);
    forall x | x in s.signalled && x.symbol == e.symbol
        ensures x.executeIdx <= |SymbolEvents(z.ordered, e.symbol)| - 1 {
      OriginExecutable(z, s, n, x);
    }
    FillsTracedUpTo(z, kept, matured, e, idx, |SymbolEvents(z.ordered, e.symbol)| - 1, |matured|);
  }

  // ---------- signals ----------

  lemma {:induction false} CancelsTraced(z: Setup, s: State, stale: seq<Order>, n: nat)
    requires n <= |stale| && OrdersTraced(s) && forall p :: p in stale ==> p in s.pending
    ensures OrdersTraced(CancelUpTo(z, s, stale, n))
  {
    hide HasOrigin, Remove;
    if n > 0 {
      CancelsTraced(z, s, stale, n - 1);
      CancelsKeep(z, s, stale, n - 1);
      var t, x := CancelUpTo(z, s, stale, n - 1), stale[n - 1];
      assert x in stale && HasOrigin(s.signalled, x);
      hide Traced, Nonzero;
      RemoveMembers(t.pending, x);
      TracedMembers(t.signalled, t.pending, Remove(t.pending, x));
      TracedExtends(t.signalled, t.cancelled, x);
    }
  }

  lemma SignalTraced(z: Setup, s: State, n: nat)
    requires n < |z.ordered| && OrdersTraced(s) && SignalsTraced(z, s, n)
    ensures
      var e := z.ordered[n];
      var t := Signal(z, s, e, ExecuteIdx(SymbolEvents(z.ordered, e.symbol), IndexAt(z, n), z.cfg), z.targets(n));
      && OrdersTraced(t) && SignalsTraced(z, t, n + 1) && t.fills == s.fills && t.flattened == s.flattened
      && s.signalled <= t.signalled
  {
    hide CancelUpTo, ExecuteIdx, EventIndex, SymbolEvents, HasOrigin, OrdersTraced, SignalsTraced;
    var e := z.ordered[n];
    var executeIdx := ExecuteIdx(SymbolEvents(z.ordered, e.symbol), IndexAt(z, n), z.cfg);
    var delta := z.targets(n) - Get(s.targets, e.symbol);
    var stale := Filter(s.pending, Stale(e.symbol, delta));
    CancelsTraced(z, s, stale, |stale|);
    CancelsKeep(z, s, stale, |stale|);
    SignalsLater(z, s, n);
    if Abs(delta) > DUST {
      var t := CancelUpTo(z, s, stale, |stale|);
      var o := Order(executeIdx, t.sequence, e.symbol, delta, e.close, e.ts);
      AddSignal(z, s, t, o, n);
    }
  }

  lemma SignalsLater(z: Setup, s: State, n: nat)
    requires SignalsTraced(z, s, n)
    ensures SignalsTraced(z, s, n + 1)
  {
    hide SignalledBy;
  }

  lemma AddSignal(z: Setup, s: State, t: State, o: Order, n: nat)
    requires SignalsTraced(z, s, n) && OrdersTraced(t) && t.signalled == s.signalled && t.sequence == s.sequence
    requires SignalledBy(z, o, n) && o.sequence == s.sequence
    ensures var u := t.(pending := t.pending + [o], sequence := t.sequence + 1, signalled := t.signalled + [o],
                        targets := t.targets[o.symbol := Get(t.targets, o.symbol) + o.qty]);
      OrdersTraced(u) && SignalsTraced(z, u, n + 1)
  {
    assert o.qty != 0.0;
    var longer := s.signalled + [o];
    assert o in longer && Origin(o, o);
    hide SignalledBy, Traced, Nonzero, Origin;
    TracedLater(s.signalled, o, t.pending);
    TracedLater(s.signalled, o, t.cancelled);
    TracedLater(s.signalled, o, t.dropped);
    TracedExtends(longer, t.pending, o);
    NonzeroExtends(t.pending, o);
    forall x | x in longer ensures x.sequence < s.sequence + 1 && exists m: nat :: m < n + 1 && SignalledBy(z, x, m) {
      if x in s.signalled {
        var m: nat :| m < n && SignalledBy(z, x, m);
      }
    }
    forall i, j | 0 <= i < j < |longer| ensures longer[i].sequence < longer[j].sequence {
      assert longer[i] in s.signalled;
    }
  }

  // ---------- liquidation ----------

  lemma LiquidationIsOne(z: Setup, s: State, symbol: string, ts: int)
    ensures Liquidation(LiquidationFill(z, s, symbol, ts))
  {
    FillAtLabels(LiquidationId(s.sequence, symbol), symbol, -Get(s.positions, symbol), Get(s.lastPrice, symbol),
                 z.cfg.liquidationPenaltyBps / 10000.0, FeeRate(z.cfg, false), ts);
    var id := LiquidationId(s.sequence, symbol);
    assert id[0] == 'l' by {
      hide Decimal;
      assert "liq-"[0] == 'l';
    }
  }

  /** Only liquidation fills added since. */
  ghost predicate LiquidationsSince(before: seq<Fill>, after: seq<Fill>) {
    before <= after && forall j :: |before| <= j < |after| ==> Liquidation(after[j])
  }

  lemma {:induction false} LiquidationsTraced(z: Setup, s: State, ts: int, n: nat)
    requires n <= |z.symbols|
    ensures var t := LiquidateUpTo(z, s, ts, n);
      && t.pending == s.pending && t.signalled == s.signalled && t.cancelled == s.cancelled && t.dropped == s.dropped
      && s.sequence <= t.sequence && LiquidationsSince(s.fills, t.fills) && LiquidationsSince(s.flattened, t.flattened)
  {
    hide LiquidationFill, Mul, Liquidation;
    if n > 0 {
      LiquidationsTraced(z, s, ts, n - 1);
      LiquidationIsOne(z, LiquidateUpTo(z, s, ts, n - 1), z.symbols[n - 1], ts);
    }
  }

  lemma LiquidateTraced(z: Setup, s: State, ts: int)
    ensures var t := Liquidate(z, s, ts);
      && t.pending == s.pending && t.signalled == s.signalled && t.cancelled == s.cancelled && t.dropped == s.dropped
      && s.sequence <= t.sequence && LiquidationsSince(s.fills, t.fills) && LiquidationsSince(s.flattened, t.flattened)
  {
    hide MustLiquidate, LiquidateUpTo, Liquidation;
    LiquidationsTraced(z, s.(liquidations := s.liquidations + 1), ts, |z.symbols|);
  }

  // ---------- whole runs ----------

  /** The fills of one event: of orders signalled before it that may execute there, or
      liquidations. */
  ghost predicate StepFills(z: Setup, s: State, t: State, n: nat)
    requires n < |z.ordered|
  {
    && s.fills <= t.fills
    && forall j :: |s.fills| <= j < |t.fills| ==>
         Timely(s.signalled, z.ordered[n], IndexAt(z, n), t.fills[j]) || Liquidation(t.fills[j])
  }

  lemma FillsJoin(z: Setup, s: State, filled: State, t: State, n: nat)
    requires n < |z.ordered| && TimelySince(s.fills, filled.fills, s.signalled, z.ordered[n], IndexAt(z, n))
    requires LiquidationsSince(filled.fills, t.fills)
    ensures StepFills(z, s, t, n)
  {
    hide Timely, Liquidation, IndexAt;
    forall j | |s.fills| <= j < |t.fills|
      ensures Timely(s.signalled, z.ordered[n], IndexAt(z, n), t.fills[j]) || Liquidation(t.fills[j])
    {
      assert j < |filled.fills| ==> t.fills[j] == filled.fills[j];
    }
  }

  /** What the tracing predicates read. */
  lemma SameOrders(z: Setup, s: State, t: State, n: nat)
    requires t.pending == s.pending && t.signalled == s.signalled && t.cancelled == s.cancelled
      && t.dropped == s.dropped
    requires s.sequence <= t.sequence
    ensures OrdersTraced(s) ==> OrdersTraced(t)
    ensures SignalsTraced(z, s, n) ==> SignalsTraced(z, t, n)
  {
    hide SignalledBy, Traced;
  }

  lemma StepTraced(z: Setup, s: State, n: nat)
    requires z.cfg.Valid() && n < |z.ordered| && OrdersTraced(s) && SignalsTraced(z, s, n)
    ensures var t := Step(z, s, n);
      && OrdersTraced(t) && SignalsTraced(z, t, n + 1) && StepFills(z, s, t, n)
      && s.signalled <= t.signalled && LiquidationsSince(s.flattened, t.flattened)
  {
    hide FillMatured, Signal, Liquidate, Filter, EventIndex, ExecuteIdx, AddTo, SumOver, Equity;
    hide OrdersTraced, SignalsTraced, TimelySince, LiquidationsSince, StepFills;
    var e := z.ordered[n];
    var es, idx := SymbolEvents(z.ordered, e.symbol), IndexAt(z, n);
    var marked := Marked(s, e);
    SameOrders(z, s, marked, n);
    FillMaturedTraced(z, marked, e, idx, n);
    var filled := FillMatured(z, marked, e, idx, |es| - 1);
    SignalsSame(z, marked, filled, n);
    SignalTraced(z, filled, n);
    var signalled := Signal(z, filled, e, ExecuteIdx(es, idx, z.cfg), z.targets(n));
    var funded := Fund(z, signalled);
    SameOrders(z, signalled, funded, n + 1);
    LiquidateTraced(z, funded, e.ts);
    SameOrders(z, funded, Liquidate(z, funded, e.ts), n + 1);
    SameOrders(z, Liquidate(z, funded, e.ts), Step(z, s, n), n + 1);
    FillsJoin(z, s, filled, Step(z, s, n), n);
  }

  lemma SignalsSame(z: Setup, s: State, t: State, n: nat)
    requires t.signalled == s.signalled && t.sequence == s.sequence
    ensures SignalsTraced(z, s, n) ==> SignalsTraced(z, t, n)
  {
    hide SignalledBy;
  }

  ghost predicate AllLiquidations(fills: seq<Fill>) {
    forall f :: f in fills ==> Liquidation(f)
  }

  /** Everything in the books after n events is traced to its signal. */
  ghost predicate RunIsTraced(z: Setup, s: State, n: nat) {
    OrdersTraced(s) && SignalsTraced(z, s, n) && FillsTraced(s.signalled, s.fills) && AllLiquidations(s.flattened)
  }

  lemma FillsTracedLater(z: Setup, s: State, t: State, n: nat)
    requires n < |z.ordered| && FillsTraced(s.signalled, s.fills) && StepFills(z, s, t, n) && s.signalled <= t.signalled
    ensures FillsTraced(t.signalled, t.fills)
  {
    hide IndexAt, Liquidation, OwnFill;
    forall f | f in t.fills ensures Liquidation(f) || exists o :: o in t.signalled && OwnFill(o, f) {
      var j :| 0 <= j < |t.fills| && t.fills[j] == f;
      if j < |s.fills| {
        assert f == s.fills[j] && f in s.fills;
      }
      if !Liquidation(f) {
        var o :| o in s.signalled && OwnFill(o, f);
        assert o in t.signalled;
      }
    }
  }

  lemma AllLiquidationsLater(before: seq<Fill>, after: seq<Fill>)
    requires AllLiquidations(before) && LiquidationsSince(before, after)
    ensures AllLiquidations(after)
  {
    hide Liquidation;
    forall f | f in after ensures Liquidation(f) {
      var j :| 0 <= j < |after| && after[j] == f;
      if j < |before| {
        assert f == before[j] && f in before;
      }
    }
  }

  lemma InitialTraced(z: Setup)
    ensures RunIsTraced(z, Initial(z), 0)
  {
    hide FirstClose, SignalledBy, HasOrigin;
  }

  lemma {:induction false} RunTraced(z: Setup, n: nat)
    requires z.cfg.Valid() && n <= |z.ordered|
    ensures RunIsTraced(z, StateAt(z, n), n)
  {
    hide Step, Initial, OrdersTraced, SignalsTraced, FillsTraced, AllLiquidations, StepFills;
    if n == 0 {
      InitialTraced(z);
    } else {
      RunTraced(z, n - 1);
      var s := StateAt(z, n - 1);
      StepTraced(z, s, n - 1);
      FillsTracedLater(z, s, Step(z, s, n - 1), n - 1);
      AllLiquidationsLater(s.flattened, Step(z, s, n - 1).flattened);
    }
  }

  // ---------- timing ----------

  ghost predicate TimeOrdered(es: seq<Event>) {
    forall i, j :: 0 <= i < j < |es| ==> es[i].ts <= es[j].ts
  }

  lemma {:induction false} SymbolEventsOrdered(es: seq<Event>, symbol: string)
    requires TimeOrdered(es)
    ensures TimeOrdered(SymbolEvents(es, symbol))
  {
    if |es| > 0 {
      var n := |es| - 1;
      SymbolEventsOrdered(es[..n], symbol);
      forall e | e in SymbolEvents(es[..n], symbol) ensures e.ts <= es[n].ts {
        assert e in es[..n];
      }
      var rest := SymbolEvents(es[..n], symbol);
      assert forall i :: 0 <= i < |rest| ==> rest[i] in rest;
    }
  }

  /** The bars at which an order signalled at bar i may execute are exactly those, from i on, that
      are late enough in bars, and late enough in time or the last one. */
  lemma ExecutableExactlyWhen(es: seq<Event>, i: nat, idx: nat, cfg: Config)
    requires TimeOrdered(es) && cfg.Valid() && i < |es| && idx < |es|
    ensures ExecuteIdx(es, i, cfg) <= idx <==>
      && i <= idx && idx >= IntMin(i + cfg.latencyBars, |es| - 1)
      && (es[idx].ts >= es[i].ts + cfg.latencySeconds || idx == |es| - 1)
  {
    if cfg.latencySeconds == 0 {
      assert i <= idx ==> es[i].ts <= es[idx].ts;
    } else {
      var first := FirstAtOrAfter(es, i, es[i].ts + cfg.latencySeconds);
      assert first <= idx ==> es[first].ts <= es[idx].ts;
    }
  }

  /** What a fill made by event n owes to the event m that signalled its order: m came before,
      the fill is on the order's side, the latency in bars has passed, and so has the latency
      in seconds unless it is the symbol's last bar. */
  ghost predicate FilledAfterLatency(z: Setup, m: nat, n: nat, o: Order, f: Fill)
    requires m < n < |z.ordered|
  {
    var last := |SymbolEvents(z.ordered, o.symbol)| - 1;
    && SignalledBy(z, o, m) && OwnFill(o, f) && f.symbol == z.ordered[n].symbol && f.ts == z.ordered[n].ts
    && IndexAt(z, n) >= IntMin(IndexAt(z, m) + z.cfg.latencyBars, last)
    && (z.ordered[n].ts >= z.ordered[m].ts + z.cfg.latencySeconds || IndexAt(z, n) == last)
    && (z.ordered[m].ts < z.ordered[n].ts ==> IndexAt(z, m) < IndexAt(z, n))
  }

  lemma TimelyIsLate(z: Setup, m: nat, n: nat, o: Order, f: Fill)
    requires z.cfg.Valid() && TimeOrdered(z.ordered) && m < n < |z.ordered|
    requires SignalledBy(z, o, m) && OwnFill(o, f) && o.executeIdx <= IndexAt(z, n)
    requires f.symbol == z.ordered[n].symbol && f.ts == z.ordered[n].ts
    ensures FilledAfterLatency(z, m, n, o, f)
  {
    hide ExecuteIdx, EventIndex, SymbolEvents, OwnFill;
    assert o.symbol == f.symbol by {
      SameSymbol(o, f);
    }
    var es := SymbolEvents(z.ordered, o.symbol);
    SymbolEventsOrdered(z.ordered, o.symbol);
    IndexIsOwn(z, m);
    IndexIsOwn(z, n);
    ExecutableExactlyWhen(es, IndexAt(z, m), IndexAt(z, n), z.cfg);
  }

  lemma SameSymbol(o: Order, f: Fill)
    requires OwnFill(o, f)
    ensures o.symbol == f.symbol
  {
  }

  lemma IndexIsOwn(z: Setup, n: nat)
    requires n < |z.ordered|
    ensures var es := SymbolEvents(z.ordered, z.ordered[n].symbol);
      0 <= IndexAt(z, n) < |es| && es[IndexAt(z, n)].ts == z.ordered[n].ts
  {
  }

  /** Every fill that event n makes, for every stream of targets and draws, is a liquidation or
      the fill of an order signalled by an earlier event whose latency has passed. */
  lemma FillsRespectLatency(z: Setup, n: nat, j: nat)
    requires z.cfg.Valid() && TimeOrdered(z.ordered) && n < |z.ordered|
    requires |StateAt(z, n).fills| <= j < |StateAt(z, n + 1).fills|
    ensures StateAt(z, n).fills <= StateAt(z, n + 1).fills
    ensures var f := StateAt(z, n + 1).fills[j];
      Liquidation(f) || exists m: nat, o ::
        m < n && o in StateAt(z, n).signalled && FilledAfterLatency(z, m, n, o, f)
  {
    hide Step, Liquidation, OwnFill, SignalledBy, FilledAfterLatency, IndexAt;
    var s := StateAt(z, n);
    RunTraced(z, n);
    StepTraced(z, s, n);
    var f := Step(z, s, n).fills[j];
    if !Liquidation(f) {
      assert Timely(s.signalled, z.ordered[n], IndexAt(z, n), f);
      var o :| o in s.signalled && OwnFill(o, f) && o.executeIdx <= IndexAt(z, n);
      var m: nat :| m < n && SignalledBy(z, o, m);
      TimelyIsLate(z, m, n, o, f);
    }
  }

  // ---------- one order ----------

  lemma OrderIdsDiffer(k: nat, f: Fill)
    requires Liquidation(f)
    ensures f.id != OrderFillId(k)
  {
    hide Decimal;
    assert OrderFillId(k)[0] == 'm' by {
      assert "mvp11-"[0] == 'm';
    }
  }

  lemma OrderIdInjective(j: nat, k: nat)
    requires OrderFillId(j) == OrderFillId(k)
    ensures j == k
  {
    hide Decimal;
    assert OrderFillId(j)[6..] == Decimal(j) && OrderFillId(k)[6..] == Decimal(k);
    DecimalInjective(j, k);
  }

  /** On a signed side, or nothing. */
  predicate OnSide(whole: real, part: real) {
    (whole > 0.0 ==> part >= 0.0) && (whole < 0.0 ==> part <= 0.0)
  }

  lemma {:induction false} SumOnSide<T>(xs: seq<T>, f: T -> real, whole: real)
    requires forall i :: 0 <= i < |xs| ==> OnSide(whole, f(xs[i]))
    ensures OnSide(whole, SumOver(xs, f))
  {
    if |xs| > 0 {
      SumOnSide(xs[..|xs| - 1], f, whole);
    }
  }

  lemma UniqueOrder(z: Setup, s: State, n: nat, o: Order, x: Order)
    requires SignalsTraced(z, s, n) && o in s.signalled && x in s.signalled && o.sequence == x.sequence
    ensures o == x
  {
    hide SignalledBy;
    var i :| 0 <= i < |s.signalled| && s.signalled[i] == o;
    var j :| 0 <= j < |s.signalled| && s.signalled[j] == x;
    assert i == j;
  }

  lemma OrdersOnSide(z: Setup, s: State, n: nat, o: Order, os: seq<Order>)
    requires SignalsTraced(z, s, n) && o in s.signalled && Traced(s.signalled, os)
    ensures OnSide(o.qty, OrderQty(os, ByOrder(o.sequence)))
  {
    hide SignalsTraced, OrderFillId;
    var sel := ByOrder(o.sequence);
    forall i | 0 <= i < |os| ensures OnSide(o.qty, OrderPart(sel)(os[i])) {
      if OrderFillId(os[i].sequence) == OrderFillId(o.sequence) {
        OrderIdInjective(os[i].sequence, o.sequence);
        assert os[i] in os;
        var x :| x in s.signalled && Origin(x, os[i]);
        UniqueOrder(z, s, n, o, x);
      }
    }
    SumOnSide(os, OrderPart(sel), o.qty);
  }

  lemma FillsOnSide(z: Setup, s: State, n: nat, o: Order)
    requires SignalsTraced(z, s, n) && o in s.signalled && FillsTraced(s.signalled, s.fills)
    ensures OnSide(o.qty, FillQty(s.fills, ByOrder(o.sequence)))
  {
    hide SignalsTraced, OrderFillId, Liquidation;
    var sel := ByOrder(o.sequence);
    forall i | 0 <= i < |s.fills| ensures OnSide(o.qty, FillPart(sel)(s.fills[i])) {
      var f := s.fills[i];
      assert f in s.fills;
      if f.id == OrderFillId(o.sequence) {
        if Liquidation(f) {
          OrderIdsDiffer(o.sequence, f);
        } else {
          var x :| x in s.signalled && OwnFill(x, f);
          OrderIdInjective(x.sequence, o.sequence);
          UniqueOrder(z, s, n, o, x);
        }
      }
    }
    SumOnSide(s.fills, FillPart(sel), o.qty);
  }

  lemma {:induction false} NoneFlattened(fills: seq<Fill>, k: nat)
    requires AllLiquidations(fills)
    ensures FillQty(fills, ByOrder(k)) == 0.0
  {
    hide OrderFillId, Liquidation;
    if |fills| > 0 {
      var n := |fills| - 1;
      assert fills[n] in fills;
      assert forall f :: f in fills[..n] ==> f in fills;
      NoneFlattened(fills[..n], k);
      OrderIdsDiffer(k, fills[n]);
    }
  }

  lemma SequencesDiffer(z: Setup, s: State, n: nat, i: nat, j: nat)
    requires SignalsTraced(z, s, n) && i < |s.signalled| && j < |s.signalled| && i != j
    ensures s.signalled[i].sequence != s.signalled[j].sequence
  {
    hide SignalledBy;
  }

  lemma SignalledQty(z: Setup, s: State, n: nat, o: Order)
    requires SignalsTraced(z, s, n) && o in s.signalled
    ensures OrderQty(s.signalled, ByOrder(o.sequence)) == o.qty
  {
    hide OrderFillId, SignalledBy;
    var at :| 0 <= at < |s.signalled| && s.signalled[at] == o;
    var f := OrderPart(ByOrder(o.sequence));
    var nothing := (x: Order) => 0.0;
    forall i | 0 <= i < |s.signalled| && i != at ensures nothing(s.signalled[i]) == f(s.signalled[i]) {
      SequencesDiffer(z, s, n, i, at);
      if OrderFillId(s.signalled[i].sequence) == OrderFillId(o.sequence) {
        OrderIdInjective(s.signalled[i].sequence, o.sequence);
      }
    }
    SumOverChange(s.signalled, at, nothing, f);
    SumOfNothing(s.signalled);
  }

  lemma {:induction false} SumOfNothing(os: seq<Order>)
    ensures SumOver(os, (x: Order) => 0.0) == 0.0
  {
    if |os| > 0 {
      SumOfNothing(os[..|os| - 1]);
    }
  }

  /** Of every order ever signalled: its fills, what is pending, cancelled and dropped of it add
      up to it, and its fills never exceed it nor change its side. */
  lemma OrderNeverOverfilled(z: Setup, n: nat, o: Order)
    requires z.cfg.Valid() && n <= |z.ordered| && o in StateAt(z, n).signalled
    ensures var s, own := StateAt(z, n), ByOrder(o.sequence);
      && o.qty == FillQty(s.fills, own) + OrderQty(s.pending, own) + OrderQty(s.cancelled, own) +
        OrderQty(s.dropped, own)
      && Within(o.qty, FillQty(s.fills, own))
      && Within(o.qty, OrderQty(s.pending, own))
  {
    hide StateAt, OrderQty, FillQty, SignalsTraced, FillsTraced, AllLiquidations, Traced;
    var s := StateAt(z, n);
    RunTraced(z, n);
    NothingUnaccounted(z, n, ByOrder(o.sequence));
    NoneFlattened(s.flattened, o.sequence);
    SignalledQty(z, s, n, o);
    OrdersOnSide(z, s, n, o, s.pending);
    OrdersOnSide(z, s, n, o, s.cancelled);
    OrdersOnSide(z, s, n, o, s.dropped);
    FillsOnSide(z, s, n, o);
    SignalNonzero(z, s, n, o);
  }

  lemma SignalNonzero(z: Setup, s: State, n: nat, o: Order)
    requires SignalsTraced(z, s, n) && o in s.signalled
    ensures o.qty != 0.0
  {
    hide ExecuteIdx, IndexAt, SymbolEvents;
  }

  // ---------- distinct sequence numbers ----------

  /** How many orders carry a sequence number. */
  function CountOf(os: seq<Order>, k: nat): nat {
    if |os| == 0 then 0 else CountOf(os[..|os| - 1], k) + if os[|os| - 1].sequence == k then 1 else 0
  }

  lemma CountOfSnoc(os: seq<Order>, o: Order, k: nat)
    ensures CountOf(os + [o], k) == CountOf(os, k) + if o.sequence == k then 1 else 0
  {
    assert (os + [o])[..|os|] == os;
  }

  lemma {:induction false} CountOfConcat(a: seq<Order>, b: seq<Order>, k: nat)
    ensures CountOf(a + b, k) == CountOf(a, k) + CountOf(b, k)
  {
    if |b| == 0 {
      assert a + b == a;
    } else {
      CountOfConcat(a, b[..|b| - 1], k);
      assert (a + b)[..|a + b| - 1] == a + b[..|b| - 1];
    }
  }

  lemma {:induction false} CountOfNone(os: seq<Order>, k: nat)
    ensures CountOf(os, k) == 0 <==> forall o :: o in os ==> o.sequence != k
  {
    if |os| > 0 {
      CountOfNone(os[..|os| - 1], k);
      assert os == os[..|os| - 1] + [os[|os| - 1]];
    }
  }

  lemma {:induction false} CountOfPartition(pending: seq<Order>, symbol: string, idx: int, k: nat)
    ensures CountOf(pending, k) ==
      CountOf(Filter(pending, Due(symbol, idx)), k) + CountOf(Filter(pending, NotDue(symbol, idx)), k)
  {
    if |pending| > 0 {
      var rest, o := pending[..|pending| - 1], pending[|pending| - 1];
      CountOfPartition(rest, symbol, idx, k);
      CountOfSnoc(Filter(rest, Due(symbol, idx)), o, k);
      CountOfSnoc(Filter(rest, NotDue(symbol, idx)), o, k);
    }
  }

  lemma FillOrderCount(z: Setup, s: State, o: Order, e: Event, idx: int, last: int, k: nat)
    ensures CountOf(FillOrder(z, s, o, e, idx, last).pending, k) <=
      CountOf(s.pending, k) + if o.sequence == k then 1 else 0
  {
    hide FilledQty, FillAt, SlippageRate, FeeRate, Mul, OrderFillId, CountOf;
    var filled := FilledQty(z.cfg, o, e.close);
    CountOfSnoc(s.pending, o, k);
    CountOfSnoc(s.pending, Residual(o, if o.qty > 0.0 then filled else -filled, e, idx, last), k);
  }

  lemma {:induction false} FillsCount(
      z: Setup, s: State, matured: seq<Order>, e: Event, idx: int, last: int, n: nat, k: nat)
    requires n <= |matured|
    ensures CountOf(FillUpTo(z, s, matured, e, idx, last, n).pending, k) <=
      CountOf(s.pending, k) + CountOf(matured[..n], k)
  {
    hide FillOrder;
    if n > 0 {
      FillsCount(z, s, matured, e, idx, last, n - 1, k);
      FillOrderCount(z, FillUpTo(z, s, matured, e, idx, last, n - 1), matured[n - 1], e, idx, last, k);
      assert matured[..n][..n - 1] == matured[..n - 1];
    }
  }

  lemma FillMaturedCount(z: Setup, s: State, e: Event, idx: int, last: int, k: nat)
    ensures CountOf(FillMatured(z, s, e, idx, last).pending, k) <= CountOf(s.pending, k)
  {
    hide Filter, FillUpTo, CountOf;
    var matured := Filter(s.pending, Due(e.symbol, idx));
    var kept := s.(pending := Filter(s.pending, NotDue(e.symbol, idx)));
    CountOfPartition(s.pending, e.symbol, idx, k);
    FillsCount(z, kept, matured, e, idx, last, |matured|, k);
    assert matured[..|matured|] == matured;
  }

  lemma {:induction false} RemoveCount(os: seq<Order>, x: Order, k: nat)
    ensures CountOf(Remove(os, x), k) <= CountOf(os, k)
  {
    if |os| > 0 {
      assert os == [os[0]] + os[1..];
      CountOfConcat([os[0]], os[1..], k);
      if os[0] != x {
        RemoveCount(os[1..], x, k);
        CountOfConcat([os[0]], Remove(os[1..], x), k);
      }
    }
  }

  lemma {:induction false} CancelsCount(z: Setup, s: State, stale: seq<Order>, n: nat, k: nat)
    requires n <= |stale|
    ensures CountOf(CancelUpTo(z, s, stale, n).pending, k) <= CountOf(s.pending, k)
  {
    hide Remove, CountOf;
    if n > 0 {
      CancelsCount(z, s, stale, n - 1, k);
      RemoveCount(CancelUpTo(z, s, stale, n - 1).pending, stale[n - 1], k);
    }
  }

  lemma SignalCount(z: Setup, s: State, e: Event, executeIdx: int, target: real, k: nat)
    requires CountOf(s.pending, k) <= 1 && CountOf(s.pending, s.sequence) == 0
    ensures CountOf(Signal(z, s, e, executeIdx, target).pending, k) <= 1
  {
    hide Filter, CancelUpTo, CountOf;
    var delta := target - Get(s.targets, e.symbol);
    var stale := Filter(s.pending, Stale(e.symbol, delta));
    CancelsCount(z, s, stale, |stale|, k);
    CancelsKeep(z, s, stale, |stale|);
    var t := CancelUpTo(z, s, stale, |stale|);
    CountOfSnoc(t.pending, Order(executeIdx, t.sequence, e.symbol, delta, e.close, e.ts), k);
  }

  lemma PendingBelowCounter(z: Setup, s: State, n: nat)
    requires OrdersTraced(s) && SignalsTraced(z, s, n)
    ensures CountOf(s.pending, s.sequence) == 0
  {
    hide SignalledBy;
    forall p | p in s.pending ensures p.sequence != s.sequence {
      assert HasOrigin(s.signalled, p);
    }
    CountOfNone(s.pending, s.sequence);
  }

  /** At no time do two pending orders share a sequence number. */
  lemma {:induction false} PendingNumbersDistinct(z: Setup, n: nat, k: nat)
    requires z.cfg.Valid() && n <= |z.ordered|
    ensures CountOf(StateAt(z, n).pending, k) <= 1
  {
    hide Step, Initial, CountOf, OrdersTraced, SignalsTraced, FillsTraced, AllLiquidations;
    if n == 0 {
      InitialCount(z, k);
    } else {
      PendingNumbersDistinct(z, n - 1, k);
      RunTraced(z, n - 1);
      StepCount(z, StateAt(z, n - 1), n - 1, k);
    }
  }

  lemma InitialCount(z: Setup, k: nat)
    ensures CountOf(Initial(z).pending, k) == 0
  {
  }

  lemma StepCount(z: Setup, s: State, n: nat, k: nat)
    requires z.cfg.Valid() && n < |z.ordered| && OrdersTraced(s) && SignalsTraced(z, s, n) && CountOf(s.pending, k) <= 1
    ensures CountOf(Step(z, s, n).pending, k) <= 1
  {
    hide FillMatured, Signal, Liquidate, Filter, EventIndex, ExecuteIdx, AddTo, SumOver, Equity, CountOf;
    hide OrdersTraced, SignalsTraced, TimelySince, LiquidationsSince;
    var e := z.ordered[n];
    var es, idx := SymbolEvents(z.ordered, e.symbol), IndexAt(z, n);
    var marked := Marked(s, e);
    SameOrders(z, s, marked, n);
    FillMaturedTraced(z, marked, e, idx, n);
    FillMaturedCount(z, marked, e, idx, |es| - 1, k);
    var filled := FillMatured(z, marked, e, idx, |es| - 1);
    SignalsSame(z, marked, filled, n);
    PendingBelowCounter(z, filled, n);
    var executeIdx := ExecuteIdx(es, idx, z.cfg);
    SignalCount(z, filled, e, executeIdx, z.targets(n), k);
    LiquidateTraced(z, Fund(z, Signal(z, filled, e, executeIdx, z.targets(n))), e.ts);
  }

  function OtherThan(sequence: nat): Order -> bool {
    (o: Order) => o.sequence != sequence
  }

  /** With distinct numbers, removing an order by value removes it and nothing else. */
  lemma {:induction false} RemovalIsExact(os: seq<Order>, x: Order)
    requires x in os && forall k :: CountOf(os, k) <= 1
    ensures Remove(os, x) == Filter(os, OtherThan(x.sequence))
  {
    hide CountOf;
    var rest := os[1..];
    assert os == [os[0]] + rest;
    FilterHead(os[0], rest, OtherThan(x.sequence));
    CountOfConcat([os[0]], rest, x.sequence);
    CountOfSnoc([], os[0], x.sequence);
    assert [] + [os[0]] == [os[0]];
    CountOfNone(rest, x.sequence);
    if os[0] == x {
      FilterAll(rest, OtherThan(x.sequence));
    } else {
      forall k ensures CountOf(rest, k) <= 1 {
        CountOfConcat([os[0]], rest, k);
      }
      RemovalIsExact(rest, x);
    }
  }

  lemma {:induction false} FilterHead(o: Order, rest: seq<Order>, p: Order -> bool)
    ensures Filter([o] + rest, p) == (if p(o) then [o] else []) + Filter(rest, p)
  {
    if |rest| == 0 {
      assert [o] + rest == [] + [o];
      FilterSnoc([], o, p);
    } else {
      var n := |rest| - 1;
      FilterHead(o, rest[..n], p);
      assert [o] + rest == [o] + rest[..n] + [rest[n]];
      FilterSnoc([o] + rest[..n], rest[n], p);
    }
  }

  lemma {:induction false} FilterAll(os: seq<Order>, p: Order -> bool)
    requires forall o :: o in os ==> p(o)
    ensures Filter(os, p) == os
  {
    if |os| > 0 {
      FilterAll(os[..|os| - 1], p);
      assert os[|os| - 1] in os;
    }
  }

  /** A run that raises no error is one that the theorems about StateAt speak of. */
  lemma RunsAreCovered(
      events: seq<Event>, symbols: seq<string>, cfg: Config, targets: nat -> real, regime: Option<nat -> string>,
      rng: nat -> real)
    requires Distinct(symbols) && Check(events, symbols, cfg).None?
    ensures var z := Setup(cfg, symbols, StableSort(events, Time), targets, regime, rng);
      z.cfg.Valid() && Configured(z) && TimeOrdered(z.ordered) && |z.ordered| == |events| > 0
  {
    hide StableSort;
    SortSorts(events, Time);
    var ordered := StableSort(events, Time);
    forall i, j | 0 <= i < j < |ordered| ensures ordered[i].ts <= ordered[j].ts {
      assert Time(ordered[i]) <= Time(ordered[j]);
    }
  }
}
