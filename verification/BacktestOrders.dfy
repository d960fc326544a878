/** Where the quantities of a backtest go: what was signalled is filled, pending, cancelled or
    dropped; what is held is what was filled. Then when, and on which side, orders fill. */
module BacktestOrders {
  import opened Backtest
  import opened Decimals
  import opened Market
  import opened RealMath
  import opened Sorting
  import opened Values

  // ---------- quantities, by any choice of orders ----------

  /** A choice of orders and fills, by fill identifier and symbol. */
  type Choice = (string, string) -> bool

  function BySymbol(symbol: string): Choice {
    (id: string, s: string) => s == symbol
  }

  function ByOrder(sequence: nat): Choice {
    (id: string, s: string) => id == OrderFillId(sequence)
  }

  function OrderPart(sel: Choice): Order -> real {
    (o: Order) => if sel(OrderFillId(o.sequence), o.symbol) then o.qty else 0.0
  }

  function FillPart(sel: Choice): Fill -> real {
    (f: Fill) => if sel(f.id, f.symbol) then f.qty else 0.0
  }

  function OrderQty(os: seq<Order>, sel: Choice): real {
    SumOver(os, OrderPart(sel))
  }

  function FillQty(fs: seq<Fill>, sel: Choice): real {
    SumOver(fs, FillPart(sel))
  }

  /** What was signalled and is not accounted for; liquidation fills are nobody's order. */
  function Gap(s: State, sel: Choice): real {
    OrderQty(s.signalled, sel) + FillQty(s.flattened, sel) - FillQty(s.fills, sel)
    - OrderQty(s.pending, sel) - OrderQty(s.cancelled, sel) - OrderQty(s.dropped, sel)
  }

  lemma OrderQtySnoc(os: seq<Order>, o: Order, sel: Choice)
    ensures OrderQty(os + [o], sel) == OrderQty(os, sel) + OrderPart(sel)(o)
  {
    SumOverSnoc(os, o, OrderPart(sel));
  }

  lemma FillQtySnoc(fs: seq<Fill>, f: Fill, sel: Choice)
    ensures FillQty(fs + [f], sel) == FillQty(fs, sel) + FillPart(sel)(f)
  {
    SumOverSnoc(fs, f, FillPart(sel));
  }

  // ---------- fills ----------

  lemma FillRatioProper(cfg: Config, close: real, qtyAbs: real)
    requires cfg.Valid() && qtyAbs > 0.0
    ensures 0.0 < FillRatio(cfg, close, qtyAbs) <= 1.0
  {
    var depth, queue := DepthQty(cfg, close), QueueQty(cfg, close);
    assert depth > 0.0 && queue >= 0.0;
    hide DepthQty, QueueQty;
    var deepest := Max(qtyAbs, depth);
    DivLe(depth, 0.0, depth + queue);
    DivLe(depth, 0.0, deepest);
    var factor, share := QueueFactor(depth, queue), depth / deepest;
    MulLt(0.0, cfg.baseFillRatio, factor);
    MulLt(0.0, cfg.baseFillRatio * factor, share);
  }

  lemma AbsPositive(x: real)
    requires x != 0.0
    ensures Abs(x) > 0.0
  {
  }

  lemma ShareOf(x: real, ratio: real)
    requires x > 0.0 && 0.0 < ratio <= 1.0
    ensures 0.0 < x * ratio <= x
  {
    MulLt(0.0, x, ratio);
    MulLe(ratio, 1.0, x);
  }

  /** A fill of an order is on its side, not nothing, and not more than all of it. */
  lemma FilledQtyProper(cfg: Config, o: Order, close: real)
    requires cfg.Valid() && o.qty != 0.0
    ensures 0.0 < FilledQty(cfg, o, close) <= Abs(o.qty)
  {
    hide FillRatio, Abs;
    assert Abs(o.qty) > 0.0 by {
      AbsPositive(o.qty);
    }
    FillRatioProper(cfg, close, Abs(o.qty));
    var x, ratio := Abs(o.qty), FillRatio(cfg, close, Abs(o.qty));
    ShareOf(x, ratio);
    assert FilledQty(cfg, o, close) == x * ratio;
  }

  lemma ShareOfDepth(x: real, depth: real, b: real, factor: real)
    requires x > 0.0 && depth > 0.0 && 0.0 < b <= 1.0 && 0.0 < factor <= 1.0
    ensures x * Min(1.0, b * factor * (depth / Max(x, depth))) == b * factor * Min(x, depth)
  {
    var deepest := Max(x, depth);
    var share, top := depth / deepest, b * factor;
    MulLt(0.0, b, factor);
    MulLe(b, 1.0, factor);
    assert 0.0 < top <= 1.0;
    DivLe(depth, 1.0, deepest);
    DivLe(depth, 0.0, deepest);
    assert 0.0 < share <= 1.0;
    MulLe(top, 1.0, share);
    DivMul(depth, deepest);
    if x <= depth {
      assert share == 1.0;
    } else {
      assert x * (top * share) == top * (share * x);
    }
  }

  /** The quantity filled at once: a fixed share of the order or of the displayed depth,
      whichever is smaller, the share falling with the queue ahead. */
  lemma FilledQtyIsShareOfDepth(cfg: Config, o: Order, close: real)
    requires cfg.Valid() && o.qty != 0.0
    ensures var depth, queue := DepthQty(cfg, close), QueueQty(cfg, close);
      depth > 0.0 && FilledQty(cfg, o, close) == cfg.baseFillRatio * QueueFactor(depth, queue) * Min(Abs(o.qty), depth)
  {
    hide DepthQty, QueueQty, QueueFactor, Abs;
    var depth, queue := DepthQty(cfg, close), QueueQty(cfg, close);
    BookProper(cfg, close);
    AbsPositive(o.qty);
    FactorProper(depth, queue);
    ShareOfDepth(Abs(o.qty), depth, cfg.baseFillRatio, QueueFactor(depth, queue));
  }

  lemma BookProper(cfg: Config, close: real)
    ensures DepthQty(cfg, close) > 0.0 && QueueQty(cfg, close) >= 0.0
  {
  }

  lemma FactorProper(depth: real, queue: real)
    requires depth > 0.0 && queue >= 0.0
    ensures 0.0 < QueueFactor(depth, queue) <= 1.0
  {
    DivLe(depth, 0.0, depth + queue);
    DivLe(depth, 1.0, depth + queue);
  }

  /** The fill of order o at event e, in the state with the draw taken. */
  function OrderFill(z: Setup, s: State, o: Order, e: Event): Fill {
    var filled := FilledQty(z.cfg, o, e.close);
    FillAt(OrderFillId(o.sequence), o.symbol, if o.qty > 0.0 then filled else -filled, e.close,
           SlippageRate(z.cfg, e.close, Abs(o.qty)), FeeRate(z.cfg, z.rng(s.draws) < z.cfg.makerProbability), e.ts)
  }

  /** Between nothing and the whole, on the same side. */
  predicate Within(whole: real, part: real) {
    (whole > 0.0 && 0.0 <= part <= whole) || (whole < 0.0 && whole <= part <= 0.0)
  }

  /** What filling a nonzero order does: a fill on its side, never of nothing, and a strictly
      smaller residual that is either pending again or dropped as dust. */
  lemma FillOrderEffect(z: Setup, s: State, o: Order, e: Event, idx: int, last: int)
    requires z.cfg.Valid() && o.qty != 0.0
    ensures var t, f := FillOrder(z, s, o, e, idx, last), OrderFill(z, s, o, e);
      var residual := Residual(o, f.qty, e, idx, last);
      && f.id == OrderFillId(o.sequence) && f.symbol == o.symbol && f.ts == e.ts && f.requested == e.close
      && f.qty != 0.0 && Within(o.qty, f.qty)
      && Abs(residual.qty) < Abs(o.qty) && Within(o.qty, residual.qty) && f.qty + residual.qty == o.qty
      && t.fills == s.fills + [f]
      && t.positions == s.positions[o.symbol := Get(s.positions, o.symbol) + f.qty]
      && t.pending == (if Abs(residual.qty) > DUST then s.pending + [residual] else s.pending)
      && t.dropped == (if Abs(residual.qty) > DUST then s.dropped else s.dropped + [residual])
      && t.signalled == s.signalled && t.cancelled == s.cancelled && t.flattened == s.flattened
      && t.targets == s.targets && t.sequence == s.sequence
  {
    hide FilledQty, FillAt, SlippageRate, FeeRate, Mul, OrderFillId;
    FilledQtyProper(z.cfg, o, e.close);
    var filled := FilledQty(z.cfg, o, e.close);
    FillAtLabels(OrderFillId(o.sequence), o.symbol, if o.qty > 0.0 then filled else -filled, e.close,
      SlippageRate(z.cfg, e.close, Abs(o.qty)), FeeRate(z.cfg, z.rng(s.draws) < z.cfg.makerProbability), e.ts);
  }

  lemma ZeroOrderSkipped(z: Setup, s: State, o: Order, e: Event, idx: int, last: int)
    requires o.qty == 0.0
    ensures FillOrder(z, s, o, e, idx, last) == s
  {
  }

  // ---------- conservation ----------

  /** Filling a matured order accounts for all of it. */
  lemma FillOrderGap(z: Setup, s: State, o: Order, e: Event, idx: int, last: int, sel: Choice)
    requires z.cfg.Valid()
    ensures Gap(FillOrder(z, s, o, e, idx, last), sel) == Gap(s, sel) - OrderPart(sel)(o)
  {
    hide FillOrder, SumOver, OrderFill, OrderFillId, Within;
    if o.qty == 0.0 {
      ZeroOrderSkipped(z, s, o, e, idx, last);
    } else {
      FillOrderEffect(z, s, o, e, idx, last);
      var f := OrderFill(z, s, o, e);
      var residual := Residual(o, f.qty, e, idx, last);
      FillQtySnoc(s.fills, f, sel);
      OrderQtySnoc(s.pending, residual, sel);
      OrderQtySnoc(s.dropped, residual, sel);
    }
  }

  lemma {:induction false} FillsGap(
      z: Setup, s: State, matured: seq<Order>, e: Event, idx: int, last: int, n: nat, sel: Choice)
    requires z.cfg.Valid() && n <= |matured|
    ensures Gap(FillUpTo(z, s, matured, e, idx, last, n), sel) == Gap(s, sel) - OrderQty(matured[..n], sel)
  {
    hide FillOrder, Gap, OrderPart;
    if n > 0 {
      FillsGap(z, s, matured, e, idx, last, n - 1, sel);
      FillOrderGap(z, FillUpTo(z, s, matured, e, idx, last, n - 1), matured[n - 1], e, idx, last, sel);
      OrderQtySnoc(matured[..n - 1], matured[n - 1], sel);
      assert matured[..n] == matured[..n - 1] + [matured[n - 1]];
    }
  }

  lemma {:induction false} PartitionQty(pending: seq<Order>, symbol: string, idx: int, sel: Choice)
    ensures OrderQty(pending, sel) ==
      OrderQty(Filter(pending, Due(symbol, idx)), sel) + OrderQty(Filter(pending, NotDue(symbol, idx)), sel)
  {
    hide OrderPart;
    if |pending| > 0 {
      var rest, o := pending[..|pending| - 1], pending[|pending| - 1];
      PartitionQty(rest, symbol, idx, sel);
      OrderQtySnoc(Filter(rest, Due(symbol, idx)), o, sel);
      OrderQtySnoc(Filter(rest, NotDue(symbol, idx)), o, sel);
    }
  }

  lemma FillMaturedGap(z: Setup, s: State, e: Event, idx: int, last: int, sel: Choice)
    requires z.cfg.Valid()
    ensures Gap(FillMatured(z, s, e, idx, last), sel) == Gap(s, sel)
  {
    hide Filter, FillUpTo, OrderQty, FillQty;
    var matured := Filter(s.pending, Due(e.symbol, idx));
    var kept := s.(pending := Filter(s.pending, NotDue(e.symbol, idx)));
    PartitionQty(s.pending, e.symbol, idx, sel);
    FillsGap(z, kept, matured, e, idx, last, |matured|, sel);
    assert matured[..|matured|] == matured;
  }

  lemma {:induction false} RemoveOne(os: seq<Order>, x: Order, sel: Choice)
    requires x in os
    ensures multiset(Remove(os, x)) == multiset(os) - multiset{x}
    ensures OrderQty(Remove(os, x), sel) == OrderQty(os, sel) - OrderPart(sel)(x)
  {
    hide OrderPart;
    var rest := os[1..];
    assert os == [os[0]] + rest;
    SumOverConcat([os[0]], rest, OrderPart(sel));
    assert [os[0]][..0] == [];
    if os[0] != x {
      RemoveOne(rest, x, sel);
      SumOverConcat([os[0]], Remove(rest, x), OrderPart(sel));
      assert multiset([os[0]] + Remove(rest, x)) == multiset{os[0]} + multiset(Remove(rest, x));
    }
  }

  lemma {:induction false} FilterIncluded(os: seq<Order>, p: Order -> bool)
    ensures multiset(Filter(os, p)) <= multiset(os)
  {
    if |os| > 0 {
      FilterIncluded(os[..|os| - 1], p);
      assert os == os[..|os| - 1] + [os[|os| - 1]];
    }
  }

  /** The stale orders not yet tried are all still pending, so `list.remove` never fails; and a
      cancelled order is accounted for. */
  lemma {:induction false} CancelsGap(z: Setup, s: State, stale: seq<Order>, n: nat, sel: Choice)
    requires n <= |stale| && multiset(stale) <= multiset(s.pending)
    ensures var t := CancelUpTo(z, s, stale, n);
      multiset(stale[n..]) <= multiset(t.pending) && Gap(t, sel) == Gap(s, sel)
  {
    hide OrderQty, FillQty, OrderPart, Remove;
    if n == 0 {
      assert stale[0..] == stale;
    } else {
      CancelsGap(z, s, stale, n - 1, sel);
      var t, x := CancelUpTo(z, s, stale, n - 1), stale[n - 1];
      assert stale[n - 1..] == [x] + stale[n..];
      assert x in multiset(stale[n - 1..]);
      assert x in t.pending;
      RemoveOne(t.pending, x, sel);
      OrderQtySnoc(t.cancelled, x, sel);
      RestIncluded(stale[n..], x, t.pending, Remove(t.pending, x));
    }
  }

  lemma RestIncluded(rest: seq<Order>, x: Order, os: seq<Order>, without: seq<Order>)
    requires multiset([x] + rest) <= multiset(os) && multiset(without) == multiset(os) - multiset{x}
    ensures multiset(rest) <= multiset(os) && multiset(rest) <= multiset(without)
  {
    assert multiset([x] + rest) == multiset{x} + multiset(rest);
  }

  lemma SignalGap(z: Setup, s: State, e: Event, executeIdx: int, target: real, sel: Choice)
    ensures Gap(Signal(z, s, e, executeIdx, target), sel) == Gap(s, sel)
  {
    hide Filter, CancelUpTo, SumOver, OrderPart;
    var delta := target - Get(s.targets, e.symbol);
    var stale := Filter(s.pending, Stale(e.symbol, delta));
    FilterIncluded(s.pending, Stale(e.symbol, delta));
    CancelsGap(z, s, stale, |stale|, sel);
    var t := CancelUpTo(z, s, stale, |stale|);
    var o := Order(executeIdx, t.sequence, e.symbol, delta, e.close, e.ts);
    OrderQtySnoc(t.pending, o, sel);
    OrderQtySnoc(t.signalled, o, sel);
  }

  lemma {:induction false} LiquidationsGap(z: Setup, s: State, ts: int, n: nat, sel: Choice)
    requires n <= |z.symbols|
    ensures Gap(LiquidateUpTo(z, s, ts, n), sel) == Gap(s, sel)
  {
    hide SumOver, FillPart, LiquidationFill, Mul;
    if n > 0 {
      LiquidationsGap(z, s, ts, n - 1, sel);
      var t, symbol := LiquidateUpTo(z, s, ts, n - 1), z.symbols[n - 1];
      FillQtySnoc(t.fills, LiquidationFill(z, t, symbol, ts), sel);
      FillQtySnoc(t.flattened, LiquidationFill(z, t, symbol, ts), sel);
    }
  }

  lemma LiquidateGap(z: Setup, s: State, ts: int, sel: Choice)
    ensures Gap(Liquidate(z, s, ts), sel) == Gap(s, sel)
  {
    hide MustLiquidate, LiquidateUpTo, OrderQty, FillQty;
    LiquidationsGap(z, s.(liquidations := s.liquidations + 1), ts, |z.symbols|, sel);
  }

  lemma StepGap(z: Setup, s: State, n: nat, sel: Choice)
    requires z.cfg.Valid() && n < |z.ordered|
    ensures Gap(Step(z, s, n), sel) == Gap(s, sel)
  {
    hide FillMatured, Signal, Liquidate, Filter, EventIndex, ExecuteIdx, AddTo, SumOver, Equity, OrderQty, FillQty;
    var e := z.ordered[n];
    var es, idx := SymbolEvents(z.ordered, e.symbol), IndexAt(z, n);
    FillMaturedGap(z, Marked(s, e), e, idx, |es| - 1, sel);
    var filled := FillMatured(z, Marked(s, e), e, idx, |es| - 1);
    var executeIdx := ExecuteIdx(es, idx, z.cfg);
    SignalGap(z, filled, e, executeIdx, z.targets(n), sel);
    LiquidateGap(z, Fund(z, Signal(z, filled, e, executeIdx, z.targets(n))), e.ts, sel);
  }

  /** After every event, for any choice of orders: what was signalled is what was filled without
      liquidation, is pending, was cancelled, or was dropped. */
  lemma {:induction false} NothingUnaccounted(z: Setup, n: nat, sel: Choice)
    requires z.cfg.Valid() && n <= |z.ordered|
    ensures Gap(StateAt(z, n), sel) == 0.0
  {
    hide Step, OrderPart, FillPart;
    if n > 0 {
      hide Gap;
      NothingUnaccounted(z, n - 1, sel);
      StepGap(z, StateAt(z, n - 1), n - 1, sel);
    }
  }

  // ---------- positions, targets and dust ----------

  /** Position and target of a symbol, against its fills and its signalled orders. */
  ghost predicate Balanced(s: State, symbol: string) {
    && Get(s.positions, symbol) == FillQty(s.fills, BySymbol(symbol))
    && Get(s.targets, symbol) == OrderQty(s.signalled, BySymbol(symbol))
    && forall o :: o in s.dropped ==> Abs(o.qty) <= DUST
  }

  lemma FillOrderBalanced(z: Setup, s: State, o: Order, e: Event, idx: int, last: int, symbol: string)
    requires z.cfg.Valid() && Balanced(s, symbol)
    ensures Balanced(FillOrder(z, s, o, e, idx, last), symbol)
  {
    hide FillOrder, FillQty, OrderQty, OrderFill, OrderFillId, Within, Abs;
    if o.qty == 0.0 {
      ZeroOrderSkipped(z, s, o, e, idx, last);
    } else {
      FillOrderEffect(z, s, o, e, idx, last);
      FillQtySnoc(s.fills, OrderFill(z, s, o, e), BySymbol(symbol));
    }
  }

  lemma {:induction false} FillsBalanced(
      z: Setup, s: State, matured: seq<Order>, e: Event, idx: int, last: int, n: nat, symbol: string)
    requires z.cfg.Valid() && n <= |matured| && Balanced(s, symbol)
    ensures Balanced(FillUpTo(z, s, matured, e, idx, last, n), symbol)
  {
    hide FillOrder, Balanced;
    if n > 0 {
      FillsBalanced(z, s, matured, e, idx, last, n - 1, symbol);
      FillOrderBalanced(z, FillUpTo(z, s, matured, e, idx, last, n - 1), matured[n - 1], e, idx, last, symbol);
    }
  }

  lemma {:induction false} CancelsKeep(z: Setup, s: State, stale: seq<Order>, n: nat)
    requires n <= |stale|
    ensures var t := CancelUpTo(z, s, stale, n);
      && t.positions == s.positions && t.fills == s.fills && t.targets == s.targets && t.signalled == s.signalled
      && t.dropped == s.dropped && t.sequence == s.sequence && t.flattened == s.flattened
  {
    hide Remove;
    if n > 0 {
      CancelsKeep(z, s, stale, n - 1);
    }
  }

  lemma SignalBalanced(z: Setup, s: State, e: Event, executeIdx: int, target: real, symbol: string)
    requires Balanced(s, symbol)
    ensures Balanced(Signal(z, s, e, executeIdx, target), symbol)
  {
    hide Filter, CancelUpTo, FillQty, OrderQty, OrderFillId;
    var delta := target - Get(s.targets, e.symbol);
    var stale := Filter(s.pending, Stale(e.symbol, delta));
    CancelsKeep(z, s, stale, |stale|);
    var t := CancelUpTo(z, s, stale, |stale|);
    OrderQtySnoc(s.signalled, Order(executeIdx, t.sequence, e.symbol, delta, e.close, e.ts), BySymbol(symbol));
  }

  lemma LiquidateSymbolBalanced(z: Setup, s: State, sold: string, ts: int, symbol: string)
    requires Balanced(s, symbol)
    ensures Balanced(LiquidateSymbol(z, s, sold, ts), symbol)
  {
    hide FillQty, OrderQty, FillAt, FeeRate, Mul, LiquidationId;
    FillAtLabels(LiquidationId(s.sequence, sold), sold, -Get(s.positions, sold), Get(s.lastPrice, sold),
                 z.cfg.liquidationPenaltyBps / 10000.0, FeeRate(z.cfg, false), ts);
    FillQtySnoc(s.fills, LiquidationFill(z, s, sold, ts), BySymbol(symbol));
  }

  lemma {:induction false} LiquidationsBalanced(z: Setup, s: State, ts: int, n: nat, symbol: string)
    requires n <= |z.symbols| && Balanced(s, symbol)
    ensures Balanced(LiquidateUpTo(z, s, ts, n), symbol)
  {
    hide LiquidateSymbol, Balanced;
    if n > 0 {
      LiquidationsBalanced(z, s, ts, n - 1, symbol);
      LiquidateSymbolBalanced(z, LiquidateUpTo(z, s, ts, n - 1), z.symbols[n - 1], ts, symbol);
    }
  }

  /** The balance reads only these fields. */
  lemma SameBooks(s: State, t: State, symbol: string)
    requires Balanced(s, symbol)
    ensures
      t.positions == s.positions && t.fills == s.fills && t.targets == s.targets && t.signalled == s.signalled
      && t.dropped == s.dropped
      ==> Balanced(t, symbol)
  {
  }

  lemma FillMaturedBalanced(z: Setup, s: State, e: Event, idx: int, last: int, symbol: string)
    requires z.cfg.Valid() && Balanced(s, symbol)
    ensures Balanced(FillMatured(z, s, e, idx, last), symbol)
  {
    hide Filter, FillUpTo, Balanced;
    var matured := Filter(s.pending, Due(e.symbol, idx));
    var kept := s.(pending := Filter(s.pending, NotDue(e.symbol, idx)));
    SameBooks(s, kept, symbol);
    FillsBalanced(z, kept, matured, e, idx, last, |matured|, symbol);
  }

  lemma LiquidateBalanced(z: Setup, s: State, ts: int, symbol: string)
    requires Balanced(s, symbol)
    ensures Balanced(Liquidate(z, s, ts), symbol)
  {
    hide MustLiquidate, LiquidateUpTo, Balanced;
    var counted := s.(liquidations := s.liquidations + 1);
    SameBooks(s, counted, symbol);
    LiquidationsBalanced(z, counted, ts, |z.symbols|, symbol);
  }

  lemma StepBalanced(z: Setup, s: State, n: nat, symbol: string)
    requires z.cfg.Valid() && n < |z.ordered| && Balanced(s, symbol)
    ensures Balanced(Step(z, s, n), symbol)
  {
    hide FillMatured, Signal, Liquidate, Filter, EventIndex, ExecuteIdx, AddTo, SumOver, Equity, Balanced;
    var e := z.ordered[n];
    var es, idx := SymbolEvents(z.ordered, e.symbol), IndexAt(z, n);
    SameBooks(s, Marked(s, e), symbol);
    FillMaturedBalanced(z, Marked(s, e), e, idx, |es| - 1, symbol);
    var filled := FillMatured(z, Marked(s, e), e, idx, |es| - 1);
    var executeIdx := ExecuteIdx(es, idx, z.cfg);
    SignalBalanced(z, filled, e, executeIdx, z.targets(n), symbol);
    var signalled := Signal(z, filled, e, executeIdx, z.targets(n));
    SameBooks(signalled, Fund(z, signalled), symbol);
    LiquidateBalanced(z, Fund(z, signalled), e.ts, symbol);
    SameBooks(Liquidate(z, Fund(z, signalled), e.ts), Step(z, s, n), symbol);
  }

  lemma {:induction false} RunBalanced(z: Setup, n: nat, symbol: string)
    requires z.cfg.Valid() && n <= |z.ordered|
    ensures Balanced(StateAt(z, n), symbol)
  {
    hide Step, FirstClose;
    if n > 0 {
      hide Balanced;
      RunBalanced(z, n - 1, symbol);
      StepBalanced(z, StateAt(z, n - 1), n - 1, symbol);
    }
  }

  lemma SignalFollowsTarget(z: Setup, s: State, e: Event, executeIdx: int, target: real)
    ensures Abs(target - Get(Signal(z, s, e, executeIdx, target).targets, e.symbol)) <= DUST
  {
    hide Filter, CancelUpTo;
    var stale := Filter(s.pending, Stale(e.symbol, target - Get(s.targets, e.symbol)));
    CancelsKeep(z, s, stale, |stale|);
  }

  lemma {:induction false} LiquidationsKeepTargets(z: Setup, s: State, ts: int, n: nat)
    requires n <= |z.symbols|
    ensures LiquidateUpTo(z, s, ts, n).targets == s.targets
  {
    hide LiquidationFill, Mul;
    if n > 0 {
      LiquidationsKeepTargets(z, s, ts, n - 1);
    }
  }

  lemma LiquidateKeepsTargets(z: Setup, s: State, ts: int)
    ensures Liquidate(z, s, ts).targets == s.targets
  {
    hide MustLiquidate, LiquidateUpTo;
    LiquidationsKeepTargets(z, s.(liquidations := s.liquidations + 1), ts, |z.symbols|);
  }

  /** The target kept for an event's symbol is the one just asked for, to within 1e-12. */
  lemma TargetFollowed(z: Setup, n: nat)
    requires n < |z.ordered|
    ensures Abs(z.targets(n) - Get(StateAt(z, n + 1).targets, z.ordered[n].symbol)) <= DUST
  {
    hide FillMatured, Signal, Filter, EventIndex, ExecuteIdx, AddTo, SumOver, Equity, Liquidate, Abs;
    var s, e := StateAt(z, n), z.ordered[n];
    var es, idx := SymbolEvents(z.ordered, e.symbol), IndexAt(z, n);
    var filled := FillMatured(z, Marked(s, e), e, idx, |es| - 1);
    var executeIdx := ExecuteIdx(es, idx, z.cfg);
    SignalFollowsTarget(z, filled, e, executeIdx, z.targets(n));
    LiquidateKeepsTargets(z, Fund(z, Signal(z, filled, e, executeIdx, z.targets(n))), e.ts);
  }

  /** After every event, for every symbol: the target is the position, plus what is pending, was
      cancelled, was flattened by liquidation, and was dropped, each drop at most 1e-12; and the
      position is the sum of the fills. */
  lemma TargetAccountedFor(z: Setup, n: nat, symbol: string)
    requires z.cfg.Valid() && n <= |z.ordered|
    ensures var s, mine := StateAt(z, n), BySymbol(symbol);
      && Get(s.targets, symbol) ==
         Get(s.positions, symbol) + OrderQty(s.pending, mine) + OrderQty(s.cancelled, mine)
         - FillQty(s.flattened, mine) + OrderQty(s.dropped, mine)
      && Get(s.positions, symbol) == FillQty(s.fills, mine)
      && forall o :: o in s.dropped ==> Abs(o.qty) <= DUST
  {
    hide StateAt, OrderQty, FillQty;
    NothingUnaccounted(z, n, BySymbol(symbol));
    RunBalanced(z, n, symbol);
  }
}
