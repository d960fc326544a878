/** RealTimePerformanceMonitor of monitoring/performance.py, up to net profit, drawdown and the
    list of equity changes. */
module Monitor {
  import opened Market
  import opened RealMath
  import opened Accounting
  import opened Values

  datatype Snapshot = Snapshot(realized: real, unrealized: real, fees: real, slippage: real, net: real,
    maxDrawdown: real)

  datatype Error = ZeroQty | NonPositivePrice | NegativeCost

  /** Highest of zero and the first n net values. */
  ghost function Peak(nets: seq<real>, n: nat): real
    requires n <= |nets|
  {
    if n == 0 then 0.0 else Max(Peak(nets, n - 1), nets[n - 1])
  }

  ghost function Last(nets: seq<real>): real {
    if |nets| == 0 then 0.0 else nets[|nets| - 1]
  }

  /** dd is the largest fall of the equity curve, which starts at zero, from an earlier value. */
  ghost predicate IsMaxDrawdown(nets: seq<real>, dd: real) {
    && 0.0 <= dd
    && (forall j :: 0 <= j < |nets| ==> -nets[j] <= dd)
    && (forall i, j :: 0 <= i <= j < |nets| ==> nets[i] - nets[j] <= dd)
    && Attained(nets, dd)
  }

  lemma {:induction false} PeakIsHighest(nets: seq<real>, n: nat)
    requires n <= |nets|
    ensures 0.0 <= Peak(nets, n)
    ensures forall i :: 0 <= i < n ==> nets[i] <= Peak(nets, n)
  {
    if n > 0 {
      PeakIsHighest(nets, n - 1);
    }
  }

  /** Where the peak is: at an earlier snapshot, or -1 for the zero the curve starts from. */
  lemma {:induction false} PeakAt(nets: seq<real>, n: nat) returns (i: int)
    requires n <= |nets|
    ensures (i == -1 && Peak(nets, n) == 0.0) || (0 <= i < n && Peak(nets, n) == nets[i])
  {
    i := -1;
    if n > 0 {
      i := PeakAt(nets, n - 1);
      if Peak(nets, n) == nets[n - 1] {
        i := n - 1;
      }
    }
  }

  lemma {:induction false} PeakPrefix(nets: seq<real>, x: real, n: nat)
    requires n <= |nets|
    ensures Peak(nets + [x], n) == Peak(nets, n)
  {
    if n > 0 {
      PeakPrefix(nets, x, n - 1);
    }
  }

  /** No fall of the longer curve exceeds the new maximum. */
  lemma {:induction false} DrawdownBounds(nets: seq<real>, x: real, dd: real)
    requires IsMaxDrawdown(nets, dd)
    ensures var longer, best := nets + [x], Max(dd, Peak(nets + [x], |nets| + 1) - x);
      && (forall j :: 0 <= j < |longer| ==> -longer[j] <= best)
      && (forall i, j :: 0 <= i <= j < |longer| ==> longer[i] - longer[j] <= best)
  {
    var longer, n := nets + [x], |nets|;
    PeakIsHighest(longer, n + 1);
    var best := Max(dd, Peak(longer, n + 1) - x);
    forall i, j | 0 <= i <= j < |longer| ensures longer[i] - longer[j] <= best {
      if j < n {
        assert longer[i] == nets[i] && longer[j] == nets[j];
      }
    }
    forall j | 0 <= j < |longer| ensures -longer[j] <= best {
      if j < n {
        assert longer[j] == nets[j];
      }
    }
  }

  ghost predicate Attained(nets: seq<real>, dd: real) {
    || dd == 0.0
    || (exists j :: 0 <= j < |nets| && dd == -nets[j])
    || (exists i, j :: 0 <= i <= j < |nets| && dd == nets[i] - nets[j])
  }

  lemma {:induction false} StillAttained(nets: seq<real>, x: real, dd: real)
    requires Attained(nets, dd)
    ensures Attained(nets + [x], dd)
  {
    var longer := nets + [x];
    if j :| 0 <= j < |nets| && dd == -nets[j] {
      assert dd == -longer[j];
    } else if i, j :| 0 <= i <= j < |nets| && dd == nets[i] - nets[j] {
      assert dd == longer[i] - longer[j];
    }
  }

  lemma {:induction false} NewFallAttained(nets: seq<real>, x: real)
    ensures Attained(nets + [x], Peak(nets + [x], |nets| + 1) - x)
  {
    var longer, n := nets + [x], |nets|;
    var i := PeakAt(longer, n + 1);
    assert longer[n] == x;
    if i == -1 {
      assert Peak(longer, n + 1) - x == -longer[n];
    } else {
      assert Peak(longer, n + 1) - x == longer[i] - longer[n];
    }
  }

  /** Comparing the new fall with the recorded one keeps the maximum. */
  lemma {:induction false} DrawdownExtends(nets: seq<real>, x: real, dd: real)
    requires IsMaxDrawdown(nets, dd)
    ensures IsMaxDrawdown(nets + [x], Max(dd, Peak(nets + [x], |nets| + 1) - x))
  {
    DrawdownBounds(nets, x, dd);
    StillAttained(nets, x, dd);
    NewFallAttained(nets, x);
  }

  /** What one more net value does to the curve's summary. */
  lemma {:induction false} CurveExtends(nets: seq<real>, net: real, changes: seq<real>, dd: real)
    requires IsMaxDrawdown(nets, dd) && Sum(changes) == Last(nets)
    ensures var peak := Max(Peak(nets, |nets|), net);
      && Peak(nets + [net], |nets| + 1) == peak
      && IsMaxDrawdown(nets + [net], Max(dd, peak - net))
    ensures Last(nets + [net]) == net && Sum(changes + [net - Last(nets)]) == net
  {
    DrawdownExtends(nets, net, dd);
    hide IsMaxDrawdown, Sum, Attained;
    assert Peak(nets + [net], |nets| + 1) == Max(Peak(nets + [net], |nets|), net);
    PeakPrefix(nets, net, |nets|);
    SumSnoc(changes, net - Last(nets));
  }

  /** Each change is a net value minus the one before, the first minus zero. */
  ghost predicate AreChanges(changes: seq<real>, nets: seq<real>) {
    |changes| == |nets| && forall k :: 0 <= k < |nets| ==> changes[k] == nets[k] - Last(nets[..k])
  }

  lemma ChangesExtend(changes: seq<real>, nets: seq<real>, net: real)
    requires AreChanges(changes, nets)
    ensures AreChanges(changes + [net - Last(nets)], nets + [net])
  {
    forall k | 0 <= k < |nets| + 1 ensures (nets + [net])[..k] == if k < |nets| then nets[..k] else nets {
    }
  }

  class RealTimePerformanceMonitor {
    /** `_positions`: its keys in insertion order, the positions and the last marks. */
    var symbols: seq<string>
    var positions: map<string, Position>
    var marks: map<string, Option<real>>
    var realized: real
    var feeTotal: real
    var slippageTotal: real
    var equityPeak: real
    var maxDrawdown: real
    var lastNet: real
    var returns_: seq<real>
    /** History: the accepted fills and the net value of every snapshot. */
    ghost var fills: seq<Fill>
    ghost var nets: seq<real>

    ghost predicate Books()
      reads this
    {
      && NonZero(fills)
      && Distinct(symbols)
      && (forall s :: s in symbols <==> s in positions) && positions.Keys == marks.Keys
      && (forall s :: s in positions ==> positions[s] == PositionOf(fills, s))
      && (forall k :: 0 <= k < |fills| ==> fills[k].symbol in positions)
      && realized == SumOver(symbols, RealizedBy(fills))
      && feeTotal == Fees(fills) && slippageTotal == Slippages(fills)
    }

    ghost predicate Curve()
      reads this
    {
      && lastNet == Last(nets) && Sum(returns_) == lastNet && |returns_| == |nets|
      && AreChanges(returns_, nets)
      && equityPeak == Peak(nets, |nets|)
      && IsMaxDrawdown(nets, maxDrawdown)
    }

    ghost predicate Valid()
      reads this
    {
      Books() && Curve()
    }

    constructor ()
      ensures Valid() && fills == [] && nets == []
    {
      symbols, positions, marks := [], map[], map[];
      realized, feeTotal, slippageTotal := 0.0, 0.0, 0.0;
      equityPeak, maxDrawdown, lastNet, returns_ := 0.0, 0.0, 0.0, [];
      fills, nets := [], [];
    }

    /** `setdefault` of a flat position. */
    method Touch(symbol: string)
      requires Valid()
      modifies this`symbols, this`positions, this`marks
      ensures Valid() && symbol in positions
      ensures forall s :: s in old(marks) ==> s in marks && marks[s] == old(marks[s])
      ensures forall s :: s in marks && s !in old(marks) ==> marks[s] == None
    {
      if symbol !in positions {
        Untraded(fills, symbol);
        SumOverSnoc(symbols, symbol, RealizedBy(fills));
        symbols := symbols + [symbol];
        positions := positions[symbol := FLAT];
        marks := marks[symbol := None];
      }
    }

    /** The sum over the open, marked positions. */
    method ComputeUnrealized() returns (u: real)
      requires Valid()
      ensures u == SumOver(symbols, UnrealizedBy(positions, marks))
    {
      hide AreChanges, IsMaxDrawdown, Sum, SumOver, RealizedBy, NonZero, Fees, Slippages, Distinct, Peak, PositionOf,
        Mul;
      u := 0.0;
      SumOverNone(symbols, UnrealizedBy(positions, marks));
      for i := 0 to |symbols|
        invariant u == SumOver(symbols[..i], UnrealizedBy(positions, marks))
      {
        SumOverNext(symbols, i, UnrealizedBy(positions, marks));
        assert symbols[i] in symbols;
        var pos, mark := positions[symbols[i]], marks[symbols[i]];
        var symbolUnrealized := 0.0;
        if mark.Some? && pos.qty != 0.0 {
          symbolUnrealized := Mul(pos.qty, mark.value - pos.avg);
        }
        u := u + symbolUnrealized;
      }
      assert symbols[..|symbols|] == symbols;
    }

    /** What a snapshot reports. */
    function Report(): Snapshot
      reads this
    {
      var unrealized := SumOver(symbols, UnrealizedBy(positions, marks));
      var net := realized + unrealized - feeTotal - slippageTotal;
      Snapshot(realized, unrealized, feeTotal, slippageTotal, net, maxDrawdown)
    }

    /** `_build_snapshot`: net profit, then the peak, the drawdown and the change. */
    method BuildSnapshot() returns (s: Snapshot)
      requires Valid()
      modifies this`equityPeak, this`maxDrawdown, this`lastNet, this`returns_, this`nets
      ensures Valid() && nets == old(nets) + [s.net] && s == Report()
    {
      hide AreChanges, IsMaxDrawdown, Sum, SumOver, RealizedBy, NonZero, Fees, Slippages, Distinct, Peak, PositionOf,
        UnrealizedBy;
      var unrealized := ComputeUnrealized();
      var net := realized + unrealized - feeTotal - slippageTotal;
      CurveExtends(nets, net, returns_, maxDrawdown);
      ChangesExtend(returns_, nets, net);
      if net > equityPeak {
        equityPeak := net;
      }
      var drawdown := equityPeak - net;
      if drawdown > maxDrawdown {
        maxDrawdown := drawdown;
      }
      var delta := net - lastNet;
      returns_ := returns_ + [delta];
      lastNet := net;
      nets := nets + [net];
      s := Snapshot(realized, unrealized, feeTotal, slippageTotal, net, maxDrawdown);
    }

    method SetMark(symbol: string, mark: real)
      requires Valid() && symbol in positions
      modifies this`marks
      ensures Valid() && marks == old(marks)[symbol := Some(mark)]
    {
      hide AreChanges, IsMaxDrawdown, Peak, Sum, SumOver, Distinct, PositionOf, Fees, Slippages, NonZero;
      marks := marks[symbol := Some(mark)];
    }

    method RecordMarkPrice(symbol: string, mark: real) returns (r: Result<Snapshot, Error>)
      requires Valid()
      modifies this
      ensures Valid() && fills == old(fills)
      ensures r.Err? <==> mark <= 0.0
      ensures r.Err? ==> unchanged(this)
      ensures r.Ok? ==> symbol in marks && marks[symbol] == Some(mark)
      ensures r.Ok? ==> nets == old(nets) + [r.value.net] && r.value == Report()
      ensures r.Ok? ==> forall s :: s in old(marks) && s != symbol ==> s in marks && marks[s] == old(marks[s])
    {
      if mark <= 0.0 {
        return Err(NonPositivePrice);
      }
      hide *;
      r := Price(symbol, mark);
    }

    /** `record_mark_price` after its check. */
    method Price(symbol: string, mark: real) returns (r: Result<Snapshot, Error>)
      requires Valid()
      modifies this
      ensures Valid() && fills == old(fills) && r.Ok? && r.value == Report()
      ensures nets == old(nets) + [r.value.net] && symbol in marks && marks[symbol] == Some(mark)
      ensures forall s :: s in old(marks) && s != symbol ==> s in marks && marks[s] == old(marks[s])
    {
      hide *;
      Touch(symbol);
      SetMark(symbol, mark);
      var s := BuildSnapshot();
      r := Ok(s);
    }

    /** `record_fill`: refuses the inputs the code refuses and changes nothing then; otherwise the
        books take the fill. */
    method RecordFill(f: Fill) returns (r: Result<Snapshot, Error>)
      requires Valid()
      modifies this
      ensures Valid()
      ensures r.Err? <==> f.qty == 0.0 || f.price <= 0.0 || f.fee < 0.0 || f.slippage < 0.0
      ensures r.Err? ==> unchanged(this)
      ensures r.Ok? ==> fills == old(fills) + [f] && nets == old(nets) + [r.value.net] && r.value == Report()
      ensures r.Ok? ==> forall s :: s in old(marks) ==> s in marks && marks[s] == old(marks[s])
    {
      if f.qty == 0.0 {
        return Err(ZeroQty);
      }
      if f.price <= 0.0 {
        return Err(NonPositivePrice);
      }
      if f.fee < 0.0 || f.slippage < 0.0 {
        return Err(NegativeCost);
      }
      hide *;
      r := Accept(f);
    }

    /** `record_fill` after its checks. */
    method Accept(f: Fill) returns (r: Result<Snapshot, Error>)
      requires Valid() && f.qty != 0.0
      modifies this
      ensures Valid() && r.Ok? && r.value == Report()
      ensures fills == old(fills) + [f] && nets == old(nets) + [r.value.net]
      ensures forall s :: s in old(marks) ==> s in marks && marks[s] == old(marks[s])
    {
      hide *;
      Touch(f.symbol);
      Book(f);
      var s := BuildSnapshot();
      r := Ok(s);
    }

    /** The position and cost updates of `record_fill`. */
    method Book(f: Fill)
      requires Valid() && f.qty != 0.0 && f.symbol in positions
      modifies this`positions, this`realized, this`feeTotal, this`slippageTotal, this`fills
      ensures Valid() && fills == old(fills) + [f]
    {
      var closePnl := UpdatePosition(f);
      Post(f, closePnl);
    }

    /** The branches of `record_fill` on the position. */
    method UpdatePosition(f: Fill) returns (closePnl: real)
      requires f.qty != 0.0 && f.symbol in positions
      modifies this`positions
      ensures var (next, pnl, closed) := Apply(old(positions[f.symbol]), f.qty, f.price);
        positions == old(positions)[f.symbol := next] && closePnl == pnl
    {
      hide Mul, SameSide;
      var pos := positions[f.symbol];
      var oldQty, oldAvg := pos.qty, pos.avg;
      SameSideMeansSigns(oldQty, f.qty);
      if oldQty == 0.0 || SameSide(oldQty, f.qty) {
        var totalCost := Mul(Abs(oldQty), oldAvg) + Mul(Abs(f.qty), f.price);
        positions := positions[f.symbol := Position(oldQty + f.qty, totalCost / Abs(oldQty + f.qty))];
        return 0.0;
      }
      var closeQty := Min(Abs(oldQty), Abs(f.qty));
      var side := if oldQty > 0.0 then 1.0 else -1.0;
      closePnl := Mul(Mul(closeQty, f.price - oldAvg), side);
      var newQty := oldQty + f.qty;
      if newQty == 0.0 {
        pos := Position(0.0, 0.0);
      } else if SameSide(oldQty, newQty) {
        pos := pos.(qty := newQty);
      } else {
        pos := Position(newQty, f.price);
      }
      positions := positions[f.symbol := pos];
    }

    /** The totals of `record_fill`; with them the books cover the fill. */
    method Post(f: Fill, closePnl: real)
      requires f.qty != 0.0 && f.symbol in positions && Curve()
      requires BooksBut(f, closePnl)
      modifies this`realized, this`feeTotal, this`slippageTotal, this`fills
      ensures Valid() && fills == old(fills) + [f]
    {
      hide AreChanges, Apply, IsMaxDrawdown, Sum;
      FillsExtend(fills, f);
      ghost var at :| 0 <= at < |symbols| && symbols[at] == f.symbol;
      SumOverChange(symbols, at, RealizedBy(fills), RealizedBy(fills + [f]));
      realized := realized + closePnl;
      feeTotal := feeTotal + f.fee;
      slippageTotal := slippageTotal + f.slippage;
      fills := fills + [f];
    }

    /** The books but for f, whose position update has been made. */
    ghost predicate BooksBut(f: Fill, closePnl: real)
      reads this
    {
      && NonZero(fills) && f.qty != 0.0
      && Distinct(symbols)
      && (forall s :: s in symbols <==> s in positions) && positions.Keys == marks.Keys
      && (forall s :: s in positions && s != f.symbol ==> positions[s] == PositionOf(fills, s))
      && f.symbol in positions
      && positions[f.symbol] == Apply(PositionOf(fills, f.symbol), f.qty, f.price).0
      && closePnl == Apply(PositionOf(fills, f.symbol), f.qty, f.price).1
      && (forall k :: 0 <= k < |fills| ==> fills[k].symbol in positions)
      && realized == SumOver(symbols, RealizedBy(fills))
      && feeTotal == Fees(fills) && slippageTotal == Slippages(fills)
    }
  }

  ghost function RealizedBy(fills: seq<Fill>): string -> real
    requires NonZero(fills)
  {
    s => RealizedOf(fills, s)
  }

  function UnrealizedBy(positions: map<string, Position>, marks: map<string, Option<real>>): string -> real {
    s => if s in positions && s in marks && marks[s].Some? then Unrealized(positions[s], marks[s].value) else 0.0
  }

  lemma {:induction false} Untraded(fills: seq<Fill>, symbol: string)
    requires NonZero(fills) && forall k :: 0 <= k < |fills| ==> fills[k].symbol != symbol
    ensures PositionOf(fills, symbol) == FLAT && RealizedOf(fills, symbol) == 0.0
    ensures CashOf(fills, symbol) == 0.0 && Traded(fills, symbol) == 0.0
  {
    if |fills| > 0 {
      Untraded(fills[..|fills| - 1], symbol);
    }
  }

  /** One more fill changes the books of its own symbol only. */
  lemma FillsExtend(fills: seq<Fill>, f: Fill)
    requires NonZero(fills) && f.qty != 0.0
    ensures NonZero(fills + [f])
    ensures Fees(fills + [f]) == Fees(fills) + f.fee && Slippages(fills + [f]) == Slippages(fills) + f.slippage
    ensures forall s :: s != f.symbol ==> PositionOf(fills + [f], s) == PositionOf(fills, s)
    ensures forall s :: s != f.symbol ==> RealizedOf(fills + [f], s) == RealizedOf(fills, s)
    ensures var (next, closePnl, closed) := Apply(PositionOf(fills, f.symbol), f.qty, f.price);
      && PositionOf(fills + [f], f.symbol) == next
      && RealizedOf(fills + [f], f.symbol) == RealizedOf(fills, f.symbol) + closePnl
  {
    hide Apply;
    assert (fills + [f])[..|fills|] == fills;
  }

  // ---------- net profit is cash flow ----------

  ghost function CashBy(fills: seq<Fill>): string -> real {
    s => CashOf(fills, s)
  }

  /** Value of the open position: at its mark, or at cost while it has none. */
  function ValueBy(positions: map<string, Position>, marks: map<string, Option<real>>): string -> real {
    s =>
      if s !in positions then 0.0
      else if s in marks && marks[s].Some? then Mul(positions[s].qty, marks[s].value)
      else Mul(positions[s].qty, positions[s].avg)
  }

  /** Cash paid for all fills together. */
  ghost function CashPaid(fills: seq<Fill>): real {
    if |fills| == 0 then 0.0
    else CashPaid(fills[..|fills| - 1]) + Mul(fills[|fills| - 1].qty, fills[|fills| - 1].price)
  }

  lemma {:induction false} CashAddsUp(fills: seq<Fill>, symbols: seq<string>)
    requires Distinct(symbols) && forall k :: 0 <= k < |fills| ==> fills[k].symbol in symbols
    ensures SumOver(symbols, CashBy(fills)) == -CashPaid(fills)
  {
    hide Mul;
    if |fills| == 0 {
      ZeroSum(symbols, CashBy(fills));
    } else {
      var n := |fills| - 1;
      CashAddsUp(fills[..n], symbols);
      assert fills[n].symbol in symbols;
      var at :| 0 <= at < |symbols| && symbols[at] == fills[n].symbol;
      SumOverChange(symbols, at, CashBy(fills[..n]), CashBy(fills));
    }
  }

  lemma {:induction false} ZeroSum(keys: seq<string>, f: string -> real)
    requires forall i :: 0 <= i < |keys| ==> f(keys[i]) == 0.0
    ensures SumOver(keys, f) == 0.0
  {
    if |keys| > 0 {
      ZeroSum(keys[..|keys| - 1], f);
    }
  }

  lemma {:induction false} SumOverAdds(
      keys: seq<string>, f: string -> real, g: string -> real, h: string -> real, e: string -> real)
    requires forall i :: 0 <= i < |keys| ==> f(keys[i]) + g(keys[i]) == h(keys[i]) + e(keys[i])
    ensures SumOver(keys, f) + SumOver(keys, g) == SumOver(keys, h) + SumOver(keys, e)
  {
    if |keys| > 0 {
      SumOverAdds(keys[..|keys| - 1], f, g, h, e);
    }
  }

  /** What every snapshot reports as net profit is the cash flow of the fills, fees and slippage
      costs deducted, plus the open positions at their marks (at cost while unmarked). */
  lemma NetIsCashFlow(m: RealTimePerformanceMonitor)
    requires m.Valid()
    ensures m.realized + SumOver(m.symbols, UnrealizedBy(m.positions, m.marks)) - m.feeTotal - m.slippageTotal
         == SumOver(m.symbols, ValueBy(m.positions, m.marks)) - CashPaid(m.fills) - Fees(m.fills) - Slippages(m.fills)
  {
    hide Mul, IsMaxDrawdown, Unrealized;
    forall i | 0 <= i < |m.symbols|
      ensures RealizedBy(m.fills)(m.symbols[i]) + UnrealizedBy(m.positions, m.marks)(m.symbols[i])
           == CashBy(m.fills)(m.symbols[i]) + ValueBy(m.positions, m.marks)(m.symbols[i])
    {
      var s := m.symbols[i];
      assert s in m.symbols;
      RealizedIsCashPlusCost(m.fills, s);
      if m.marks[s].Some? {
        UnrealizedSplits(m.positions[s], m.marks[s].value);
      }
    }
    SumOverAdds(m.symbols, RealizedBy(m.fills), UnrealizedBy(m.positions, m.marks), CashBy(m.fills),
      ValueBy(m.positions, m.marks));
    CashAddsUp(m.fills, m.symbols);
  }
}
