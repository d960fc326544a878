/** RiskManager of risk/manager.py: position caps, the daily stop and the trailing stop. The object
    keeps a few latches; its invariant says what they are in terms of every valid call so far. */
module RiskManager {
  import opened RealMath
  import opened Values

  datatype Limits = Limits(
    notionalCap: real, leverageCap: real, dailyStop: Option<real>, warn: real, trailing: Option<real>) {

    predicate Valid() {
      && notionalCap > 0.0 && leverageCap > 0.0 && 0.0 < warn < 1.0
      && (dailyStop.Some? ==> dailyStop.value > 0.0)
      && (trailing.Some? ==> 0.0 < trailing.value < 1.0)
    }
  }

  /** A RiskInput; `day` is the calendar day of `as_of`, or today's. */
  datatype Request = Request(price: real, equity: real, current: real, target: real, day: int) {
    predicate Valid() {
      price > 0.0 && equity > 0.0
    }
  }

  datatype Reason =
    InvalidPrice | NonPositiveEquity | DailyStop | Approved | NotionalClamp | LeverageClamp

  datatype Approval = Approval(qty: real, notional: real, leverage: real, reason: Reason)

  datatype Alert =
    DailyStopTriggered | DynamicStopTriggered | DynamicStopEnforced | NotionalNearCap | LeverageNearCap

  function Side(qty: real): int {
    if qty > 0.0 then 1 else if qty < 0.0 then -1 else 0
  }

  predicate OpeningNewRisk(current: real, target: real) {
    target != 0.0 && (current == 0.0 || current * target < 0.0 || Abs(target) > Abs(current))
  }

  predicate MaintainingOrAddingRisk(current: real, target: real) {
    current != 0.0 && target != 0.0 && !(current * target < 0.0) && Abs(target) >= Abs(current)
  }

  // ---------- runs: the calls since the side, or the day, last changed ----------

  function SideOf(r: Request): int {
    Side(r.current)
  }

  function DayOf(r: Request): int {
    r.day
  }

  /** The calls that end a history and agree on a key. */
  function Run(h: seq<Request>, key: Request -> int): (run: seq<Request>)
    ensures |run| <= |h| && (|h| > 0 ==> |run| > 0 && run[|run| - 1] == h[|h| - 1])
  {
    if |h| == 0 then []
    else
      var rest, last := h[..|h| - 1], h[|h| - 1];
      if |rest| > 0 && key(rest[|rest| - 1]) == key(last) then Run(rest, key) + [last] else [last]
  }

  /** It is the maximal such suffix. */
  lemma {:induction false} RunIsMaximalSuffix(h: seq<Request>, key: Request -> int)
    requires |h| > 0
    ensures var run := Run(h, key);
      var start := |h| - |run|;
      && run == h[start..]
      && (forall r :: r in run ==> key(r) == key(h[|h| - 1]))
      && (start > 0 ==> key(h[start - 1]) != key(h[|h| - 1]))
  {
    var n := |h| - 1;
    if n > 0 && key(h[n - 1]) == key(h[n]) {
      RunIsMaximalSuffix(h[..n], key);
    }
  }

  lemma RunExtends(h: seq<Request>, r: Request, key: Request -> int)
    ensures Run(h + [r], key) == if |h| > 0 && key(h[|h| - 1]) == key(r) then Run(h, key) + [r] else [r]
    ensures |h| > 0 ==> |Run(h, key)| > 0
  {
    assert (h + [r])[..|h|] == h;
  }

  // ---------- the daily stop ----------

  predicate AllValid(h: seq<Request>) {
    forall r :: r in h ==> r.Valid()
  }

  lemma {:induction false} RunValid(h: seq<Request>, key: Request -> int)
    requires AllValid(h)
    ensures AllValid(Run(h, key))
  {
    if |h| > 0 {
      RunIsMaximalSuffix(h, key);
      assert forall r :: r in h[|h| - |Run(h, key)|..] ==> r in h;
    }
  }

  /** The equity of the first call of the current day. */
  function Anchor(h: seq<Request>): (a: real)
    requires AllValid(h) && |h| > 0
    ensures a > 0.0
  {
    RunValid(h, DayOf);
    assert Run(h, DayOf)[0] in Run(h, DayOf);
    Run(h, DayOf)[0].equity
  }

  predicate Drawn(anchor: real, equity: real, pct: real)
    requires anchor > 0.0
  {
    (anchor - equity) / anchor >= pct
  }

  /** Some call of the current day saw equity down by the stop's share of that day's first. */
  ghost predicate DailyStopped(l: Limits, h: seq<Request>)
    requires AllValid(h)
  {
    && l.dailyStop.Some? && |h| > 0
    && exists r :: r in Run(h, DayOf) && Drawn(Anchor(h), r.equity, l.dailyStop.value)
  }

  /** The latch, one call on: it clears only with the day, and is set by a large enough loss. */
  lemma DailyStopExtends(l: Limits, h: seq<Request>, r: Request)
    requires l.Valid() && AllValid(h) && r.Valid()
    ensures AllValid(h + [r])
    ensures DailyStopped(l, h) ==> l.dailyStop.Some?
    ensures Anchor(h + [r]) == if |h| > 0 && h[|h| - 1].day == r.day then Anchor(h) else r.equity
    ensures DailyStopped(l, h + [r]) <==>
      && l.dailyStop.Some? && |h| > 0 && h[|h| - 1].day == r.day
      && (DailyStopped(l, h) || Drawn(Anchor(h), r.equity, l.dailyStop.value))
  {
    RunExtends(h, r, DayOf);
    var run, longer := Run(h, DayOf), Run(h + [r], DayOf);
    if |h| > 0 && h[|h| - 1].day == r.day {
      assert longer == run + [r];
      assert forall x :: x in longer <==> x in run || x == r;
    } else {
      assert longer == [r];
    }
  }

  // ---------- the trailing stop ----------

  function Better(side: int, x: real, y: real): real {
    if side > 0 then Max(x, y) else Min(x, y)
  }

  /** The most favourable price of a run: the highest for a long, the lowest for a short. */
  function Best(side: int, run: seq<Request>): real
    requires |run| > 0
  {
    var n := |run| - 1;
    if n == 0 then run[0].price else Better(side, Best(side, run[..n]), run[n].price)
  }

  lemma {:induction false} BestIsExtreme(side: int, run: seq<Request>)
    requires |run| > 0
    ensures exists i :: 0 <= i < |run| && run[i].price == Best(side, run)
    ensures forall i :: 0 <= i < |run| ==>
      if side > 0 then run[i].price <= Best(side, run) else Best(side, run) <= run[i].price
  {
    var n := |run| - 1;
    if n == 0 {
      assert run[0].price == Best(side, run);
    } else {
      BestIsExtreme(side, run[..n]);
      var i :| 0 <= i < n && run[..n][i].price == Best(side, run[..n]);
      assert run[i].price == Best(side, run) || run[n].price == Best(side, run);
    }
  }

  function StopPrice(side: int, extreme: real, trailing: real): real {
    Mul(extreme, if side > 0 then 1.0 - trailing else 1.0 + trailing)
  }

  /** Call k of a run retraced to the stop that the run's prices so far had set. */
  predicate Retraced(run: seq<Request>, k: int, trailing: real)
    requires 0 <= k < |run|
  {
    var side := SideOf(run[k]);
    var stop := StopPrice(side, Best(side, run[..k + 1]), trailing);
    if side > 0 then run[k].price <= stop else run[k].price >= stop
  }

  function CurrentSide(h: seq<Request>): int {
    if |h| == 0 then 0 else SideOf(h[|h| - 1])
  }

  /** Some call on the current side retraced to the trailing stop. */
  ghost predicate Stopped(l: Limits, h: seq<Request>) {
    var run := Run(h, SideOf);
    l.trailing.Some? && CurrentSide(h) != 0 && exists k :: 0 <= k < |run| && Retraced(run, k, l.trailing.value)
  }

  lemma FirstNeverRetraced(r: Request, trailing: real)
    requires r.Valid() && 0.0 < trailing < 1.0
    ensures !Retraced([r], 0, trailing)
  {
    assert [r][..1] == [r];
  }

  /** The latch, one call on: it clears only when the side changes. */
  lemma StopExtends(l: Limits, h: seq<Request>, r: Request)
    requires l.Valid() && r.Valid()
    ensures Stopped(l, h) ==> l.trailing.Some?
    ensures var run := Run(h, SideOf);
      Stopped(l, h + [r]) <==>
        && l.trailing.Some? && SideOf(r) != 0 && CurrentSide(h) == SideOf(r)
        && (Stopped(l, h) || Retraced(run + [r], |run|, l.trailing.value))
  {
    RunExtends(h, r, SideOf);
    if l.trailing.Some? {
      var run, longer, trailing := Run(h, SideOf), Run(h + [r], SideOf), l.trailing.value;
      if longer == [r] {
        FirstNeverRetraced(r, trailing);
        assert |h| > 0 && CurrentSide(h) == SideOf(r) ==> run + [r] == [r] && |run| == 0;
      } else {
        forall k | 0 <= k < |run| ensures Retraced(longer, k, trailing) == Retraced(run, k, trailing) {
          assert longer[..k + 1] == run[..k + 1];
        }
      }
    }
  }

  /** The stop of a history: none while flat or without a trailing stop. */
  function TrailingStop(l: Limits, h: seq<Request>): Option<real> {
    if l.trailing.None? || CurrentSide(h) == 0 then None
    else
      var side := CurrentSide(h);
      Some(StopPrice(side, Best(side, Run(h, SideOf)), l.trailing.value))
  }

  /** One more call on the same side moves the stop in the position's favour. */
  lemma StopStep(l: Limits, h: seq<Request>, r: Request)
    requires l.Valid() && l.trailing.Some? && SideOf(r) != 0 && CurrentSide(h) == SideOf(r)
    ensures TrailingStop(l, h).Some? && TrailingStop(l, h + [r]).Some?
    ensures var early, late := TrailingStop(l, h).value, TrailingStop(l, h + [r]).value;
      if SideOf(r) > 0 then early <= late else late <= early
  {
    RunExtends(h, r, SideOf);
    var side, run := SideOf(r), Run(h, SideOf);
    assert (run + [r])[..|run|] == run;
    StopOrder(side, Best(side, run), Best(side, run + [r]), l.trailing.value);
  }

  /** While the side lasts, the stop moves only in the position's favour: up for a long, down
      for a short. */
  lemma {:induction false} StopMovesFavourably(l: Limits, h: seq<Request>, a: nat)
    requires l.Valid() && l.trailing.Some? && CurrentSide(h) != 0
    requires |h| - |Run(h, SideOf)| < a <= |h|
    ensures CurrentSide(h[..a]) == CurrentSide(h)
    ensures TrailingStop(l, h[..a]).Some? && TrailingStop(l, h).Some?
    ensures var early, late := TrailingStop(l, h[..a]).value, TrailingStop(l, h).value;
      if CurrentSide(h) > 0 then early <= late else late <= early
  {
    var n := |h| - 1;
    if a == |h| {
      assert h[..a] == h;
    } else {
      var before := h[..n];
      assert h == before + [h[n]] && before[..a] == h[..a];
      RunExtends(before, h[n], SideOf);
      StopMovesFavourably(l, before, a);
      StopStep(l, before, h[n]);
    }
  }

  lemma StopOrder(side: int, was: real, now: real, trailing: real)
    requires 0.0 < trailing < 1.0
    requires if side > 0 then was <= now else now <= was
    ensures var early, late := StopPrice(side, was, trailing), StopPrice(side, now, trailing);
      if side > 0 then early <= late else late <= early
  {
    hide Mul;
    if side > 0 {
      MulMonotone(was, now, 1.0 - trailing);
    } else {
      MulMonotone(now, was, 1.0 + trailing);
    }
  }

  // ---------- what a call answers ----------

  function MaxQty(l: Limits, r: Request): real
    requires l.Valid() && r.Valid()
  {
    Min(l.notionalCap / r.price, Mul(l.leverageCap, r.equity) / r.price)
  }

  lemma MaxQtyIs(l: Limits, r: Request)
    requires l.Valid() && r.Valid()
    ensures MaxQty(l, r) == Min(l.notionalCap / r.price, Mul(l.leverageCap, r.equity) / r.price)
  {
  }

  function Clamped(q: real, cap: real): real {
    if Abs(q) > cap then if q > 0.0 then cap else -cap else q
  }

  /** A quantity after the caps, with its notional and leverage. */
  function Sized(l: Limits, r: Request, wanted: real): Approval
    requires l.Valid() && r.Valid()
  {
    var qty := Clamped(wanted, MaxQty(l, r));
    var notional := Mul(Abs(qty), r.price);
    Approval(qty, notional, notional / r.equity,
             if Abs(wanted) <= MaxQty(l, r) then Approved
             else if l.notionalCap / r.price <= Mul(l.leverageCap, r.equity) / r.price then NotionalClamp
             else LeverageClamp)
  }

  /** The answer to a valid request under the two latches. */
  function Decide(l: Limits, daily: bool, stopped: bool, r: Request): Approval
    requires l.Valid() && r.Valid()
  {
    if daily && OpeningNewRisk(r.current, r.target) then Approval(0.0, 0.0, 0.0, DailyStop)
    else
      Sized(l, r, if stopped && MaintainingOrAddingRisk(r.current, r.target) then 0.0 else r.target)
  }

  /** The answer to the last call of a history of valid calls. */
  ghost function Answer(l: Limits, h: seq<Request>): Approval
    requires l.Valid() && AllValid(h) && |h| > 0
  {
    Decide(l, DailyStopped(l, h), Stopped(l, h), h[|h| - 1])
  }

  /** A quantity is within MaxQty when it is within both caps. */
  lemma WithinMaxQty(l: Limits, r: Request, q: real)
    requires l.Valid() && r.Valid()
    ensures MaxQty(l, r) > 0.0
    ensures q <= MaxQty(l, r) <==> Mul(q, r.price) <= l.notionalCap && Mul(q, r.price) <= Mul(l.leverageCap, r.equity)
  {
    hide Mul;
    MulPositive(l.leverageCap, r.equity);
    var lev := Mul(l.leverageCap, r.equity);
    DivPositive(l.notionalCap, r.price);
    DivPositive(lev, r.price);
    DivLeMul(l.notionalCap, q, r.price);
    DivLeMul(lev, q, r.price);
  }

  lemma DivPositive(a: real, b: real)
    requires 0.0 < a && 0.0 < b
    ensures 0.0 < a / b
  {
    DivLe(a, 0.0, b);
  }

  lemma ClampedKeeps(q: real, cap: real)
    requires cap > 0.0
    ensures Abs(Clamped(q, cap)) <= cap && Abs(Clamped(q, cap)) <= Abs(q) && Side(Clamped(q, cap)) == Side(q)
    ensures Clamped(q, cap) == q <==> Abs(q) <= cap
  {
  }

  /** Every approval respects both caps, never opposes the target and never exceeds it. */
  lemma CapsRespected(l: Limits, daily: bool, stopped: bool, r: Request)
    requires l.Valid() && r.Valid()
    ensures var a := Decide(l, daily, stopped, r);
      && a.notional == Mul(Abs(a.qty), r.price) && a.notional == Mul(a.leverage, r.equity)
      && a.notional <= l.notionalCap && a.leverage <= l.leverageCap
      && (Side(a.qty) == Side(r.target) || a.qty == 0.0) && Abs(a.qty) <= Abs(r.target)
  {
    hide Mul, MaxQty, OpeningNewRisk, MaintainingOrAddingRisk, Clamped;
    var a := Decide(l, daily, stopped, r);
    WithinMaxQty(l, r, Abs(a.qty));
    ClampedKeeps(r.target, MaxQty(l, r));
    ClampedKeeps(0.0, MaxQty(l, r));
    DivLeMul(a.notional, l.leverageCap, r.equity);
    MulZero(r.price);
    MulZero(r.equity);
  }

  /** Exactly when the target goes through unchanged. */
  lemma TargetApprovedExactlyWhen(l: Limits, daily: bool, stopped: bool, r: Request)
    requires l.Valid() && r.Valid()
    ensures Decide(l, daily, stopped, r).qty == r.target <==>
      || r.target == 0.0
      || (&& !(daily && OpeningNewRisk(r.current, r.target))
          && !(stopped && MaintainingOrAddingRisk(r.current, r.target))
          && Mul(Abs(r.target), r.price) <= l.notionalCap
            && Mul(Abs(r.target), r.price) <= Mul(l.leverageCap, r.equity))
  {
    hide Mul, MaxQty, OpeningNewRisk, MaintainingOrAddingRisk, Clamped;
    WithinMaxQty(l, r, Abs(r.target));
    ClampedKeeps(r.target, MaxQty(l, r));
    ClampedKeeps(0.0, MaxQty(l, r));
  }

  /** Under the daily stop an approval stays on the current side and does not grow. */
  lemma DailyStopShrinks(l: Limits, stopped: bool, r: Request)
    requires l.Valid() && r.Valid()
    ensures var a := Decide(l, true, stopped, r);
      Shrunk(a.qty, r.current)
  {
    hide MaxQty, Mul;
    CapsRespected(l, true, stopped, r);
    if r.current > 0.0 > r.target || r.current < 0.0 < r.target {
      assert r.current * r.target < 0.0;
    }
    hide MaxQty;
  }

  /** Under the trailing stop no approval keeps or adds to the position: it is strictly smaller,
      flat, or on the other side. */
  lemma TrailingStopExits(l: Limits, h: seq<Request>)
    requires l.Valid() && AllValid(h) && |h| > 0 && Stopped(l, h)
    ensures var a, current := Answer(l, h), h[|h| - 1].current;
      !MaintainingOrAddingRisk(current, a.qty) && current != 0.0
  {
    var r := h[|h| - 1];
    CapsRespected(l, DailyStopped(l, h), true, r);
    hide MaxQty, DailyStopped, Mul;
    WithinMaxQty(l, r, 0.0);
    var q := Answer(l, h).qty;
    if q != 0.0 && q != r.target && r.current * r.target < 0.0 {
      OppositeSide(r.current, r.target, q);
    }
  }

  lemma OppositeSide(current: real, target: real, q: real)
    requires current * target < 0.0 && Side(q) == Side(target)
    ensures current * q < 0.0
  {
    assert current > 0.0 && target >= 0.0 ==> current * target >= 0.0;
    assert current < 0.0 && target <= 0.0 ==> current * target >= 0.0;
  }

  /** From call i on, each approval is the next call's position, all on one day. */
  ghost predicate FedBack(l: Limits, h: seq<Request>, i: nat)
    requires l.Valid() && AllValid(h) && i < |h|
  {
    forall k :: i < k < |h| ==>
      h[k].day == h[k - 1].day && AllValid(h[..k]) && h[k].current == Answer(l, h[..k]).qty
  }

  /** No larger, and on the same side unless flat. */
  predicate Shrunk(q: real, from: real) {
    Abs(q) <= Abs(from) && (q == 0.0 || Side(q) == Side(from))
  }

  lemma {:induction false} ShrunkChain(h: seq<Request>, j: nat, k: nat)
    requires j <= k < |h| && forall m :: j < m <= k ==> Shrunk(h[m].current, h[m - 1].current)
    ensures Shrunk(h[k].current, h[j].current)
  {
    if j < k {
      ShrunkChain(h, j, k - 1);
    }
  }

  lemma {:induction false} StopHoldsAndShrinks(l: Limits, h: seq<Request>, i: nat, k: nat)
    requires l.Valid() && AllValid(h) && i <= k < |h| && FedBack(l, h, i)
    requires AllValid(h[..i + 1]) && DailyStopped(l, h[..i + 1])
    ensures AllValid(h[..k + 1]) && DailyStopped(l, h[..k + 1])
    ensures i < k ==> Shrunk(h[k].current, h[k - 1].current)
  {
    hide Decide, Shrunk, DailyStopped, Stopped, Drawn, Anchor;
    if i < k {
      StopHoldsAndShrinks(l, h, i, k - 1);
      var before, last := h[..k], h[k];
      assert h[..k + 1] == before + [last] && before[k - 1] == h[k - 1];
      assert last in h && before[k - 1] in h;
      assert last.Valid() && before[k - 1].Valid();
      assert last.day == h[k - 1].day && last.current == Answer(l, before).qty;
      hide FedBack, AllValid;
      DailyStopExtends(l, before, last);
      DailyStopShrinks(l, Stopped(l, before), before[k - 1]);
    }
  }

  /** Once the daily stop holds, a day that feeds approvals back has exposure that never grows
      and never changes side; once flat it stays flat. */
  lemma DailyStopNeverReopens(l: Limits, h: seq<Request>, i: nat)
    requires l.Valid() && AllValid(h) && i < |h| && FedBack(l, h, i)
    requires AllValid(h[..i + 1]) && DailyStopped(l, h[..i + 1])
    ensures DailyStopped(l, h)
    ensures forall j, k :: i <= j <= k < |h| ==> Shrunk(h[k].current, h[j].current)
  {
    hide *;
    assert h[..|h| - 1 + 1] == h;
    StopHoldsAndShrinks(l, h, i, |h| - 1);
    forall k | i < k < |h| ensures Shrunk(h[k].current, h[k - 1].current) {
      StopHoldsAndShrinks(l, h, i, k);
    }
    forall j, k | i <= j <= k < |h| ensures Shrunk(h[k].current, h[j].current) {
      ShrunkChain(h, j, k);
    }
  }

  // ---------- alerts ----------

  /** Utilization at or above the warning share. */
  predicate NearCap(x: real, cap: real, warn: real)
    requires cap > 0.0
  {
    x / cap >= warn
  }

  ghost predicate Enforced(l: Limits, h: seq<Request>)
    requires |h| > 0
  {
    Stopped(l, h) && MaintainingOrAddingRisk(h[|h| - 1].current, h[|h| - 1].target)
  }

  ghost predicate NotionalHigh(l: Limits, h: seq<Request>)
    requires l.Valid() && AllValid(h) && |h| > 0
  {
    NearCap(Answer(l, h).notional, l.notionalCap, l.warn)
  }

  ghost predicate LeverageHigh(l: Limits, h: seq<Request>)
    requires l.Valid() && AllValid(h) && |h| > 0
  {
    NearCap(Answer(l, h).leverage, l.leverageCap, l.warn)
  }

  /** The calls up to the last one that the daily stop did not reject: a rejection returns
      before the other latches are looked at. */
  ghost function UpToLastChecked(l: Limits, h: seq<Request>): (g: seq<Request>)
    requires l.Valid() && AllValid(h)
    ensures AllValid(g)
  {
    if |h| == 0 || Answer(l, h).reason != DailyStop then h else UpToLastChecked(l, h[..|h| - 1])
  }

  /** A condition of the last call that was checked. */
  ghost predicate Held(l: Limits, h: seq<Request>, alert: Alert)
    requires l.Valid() && AllValid(h)
  {
    var g := UpToLastChecked(l, h);
    match alert
    case DailyStopTriggered => DailyStopped(l, h)
    case DynamicStopTriggered => Stopped(l, h)
    case DynamicStopEnforced => |g| > 0 && Enforced(l, g)
    case NotionalNearCap => |g| > 0 && NotionalHigh(l, g)
    case LeverageNearCap => |g| > 0 && LeverageHigh(l, g)
  }

  /** An alert is sent when its condition begins to hold. */
  function Rising(was: bool, now: bool, alert: Alert): seq<Alert> {
    if now && !was then [alert] else []
  }

  ghost function Edge(l: Limits, h: seq<Request>, r: Request, alert: Alert): seq<Alert>
    requires l.Valid() && AllValid(h) && AllValid(h + [r])
  {
    Rising(Held(l, h, alert), Held(l, h + [r], alert), alert)
  }

  /** The alerts of the three latches that only checked calls touch. */
  datatype Warnings = Warnings(enforced: bool, notional: bool, leverage: bool) {
    function Since(was: Warnings): seq<Alert> {
      Rising(was.enforced, enforced, DynamicStopEnforced) + Rising(was.notional, notional, NotionalNearCap)
      + Rising(was.leverage, leverage, LeverageNearCap)
    }
  }

  ghost function HeldWarnings(l: Limits, h: seq<Request>): Warnings
    requires l.Valid() && AllValid(h)
  {
    Warnings(Held(l, h, DynamicStopEnforced), Held(l, h, NotionalNearCap), Held(l, h, LeverageNearCap))
  }

  ghost function Edges(l: Limits, h: seq<Request>, r: Request): seq<Alert>
    requires l.Valid() && AllValid(h) && AllValid(h + [r])
  {
    Edge(l, h, r, DailyStopTriggered) + Edge(l, h, r, DynamicStopTriggered)
    + HeldWarnings(l, h + [r]).Since(HeldWarnings(l, h))
  }

  /** A rejection by the daily stop leaves the last three conditions as they were; any other
      answer decides them anew. */
  lemma HeldExtends(l: Limits, h: seq<Request>, r: Request)
    requires l.Valid() && AllValid(h) && AllValid(h + [r])
    ensures Held(l, h, DailyStopTriggered) == DailyStopped(l, h)
    ensures Held(l, h, DynamicStopTriggered) == Stopped(l, h)
    ensures Held(l, h + [r], DailyStopTriggered) == DailyStopped(l, h + [r])
    ensures Held(l, h + [r], DynamicStopTriggered) == Stopped(l, h + [r])
    ensures
      var rejected := DailyStopped(l, h + [r]) && OpeningNewRisk(r.current, r.target);
      HeldWarnings(l, h + [r]) ==
        if rejected then HeldWarnings(l, h)
        else Warnings(Stopped(l, h + [r]) && MaintainingOrAddingRisk(r.current, r.target),
                      NearCap(Answer(l, h + [r]).notional, l.notionalCap, l.warn),
                      NearCap(Answer(l, h + [r]).leverage, l.leverageCap, l.warn))
  {
    assert (h + [r])[..|h|] == h;
    hide DailyStopped, Stopped, OpeningNewRisk, MaintainingOrAddingRisk, Sized;
  }

  // ---------- the object ----------

  class RiskManager {
    const limits: Limits
    var anchorDay: Option<int>
    var anchorEquity: Option<real>
    var dailyStopTriggered: bool
    var trackedSide: int
    var trackedExtreme: Option<real>
    var dynamicStopTriggered: bool
    var enforcedAlertActive: bool
    var notionalWarnActive: bool
    var leverageWarnActive: bool
    var alerts: seq<Alert>
    /** The valid calls so far. */
    ghost var history: seq<Request>

    ghost predicate DailyState(h: seq<Request>)
      requires limits.Valid() && AllValid(h)
      reads this`anchorDay, this`anchorEquity, this`dailyStopTriggered
    {
      && dailyStopTriggered == DailyStopped(limits, h)
      && (if limits.dailyStop.None? || |h| == 0 then anchorDay.None? && anchorEquity.None?
          else anchorDay == Some(h[|h| - 1].day) && anchorEquity == Some(Anchor(h)))
    }

    ghost predicate StopState(h: seq<Request>)
      reads this`trackedSide, this`trackedExtreme, this`dynamicStopTriggered
    {
      && dynamicStopTriggered == Stopped(limits, h)
      && trackedSide == (if limits.trailing.None? then 0 else CurrentSide(h))
      && trackedExtreme == if trackedSide == 0 then None else Some(Best(trackedSide, Run(h, SideOf)))
    }

    function Active(): Warnings
      reads this`enforcedAlertActive, this`notionalWarnActive, this`leverageWarnActive
    {
      Warnings(enforcedAlertActive, notionalWarnActive, leverageWarnActive)
    }

    /** Every field is a function of the valid calls so far. */
    ghost predicate Valid()
      reads this
    {
      limits.Valid() && AllValid(history) && DailyState(history) && StopState(history)
      && Active() == HeldWarnings(limits, history)
    }

    constructor (limits: Limits)
      requires limits.Valid()
      ensures Valid() && this.limits == limits && history == [] && alerts == []
    {
      this.limits := limits;
      anchorDay, anchorEquity, dailyStopTriggered := None, None, false;
      trackedSide, trackedExtreme, dynamicStopTriggered := 0, None, false;
      enforcedAlertActive, notionalWarnActive, leverageWarnActive := false, false, false;
      alerts, history := [], [];
    }

    /** An invalid request is refused and changes nothing. A valid one extends the history, gets
        the answer the history calls for, and sends the alerts whose conditions begin. */
    method Apply(r: Request) returns (a: Approval)
      requires Valid()
      modifies this
      ensures Valid()
      ensures !r.Valid() ==>
        && history == old(history) && unchanged(this)
        && a == Approval(0.0, 0.0, 0.0, if r.price <= 0.0 then InvalidPrice else NonPositiveEquity)
      ensures r.Valid() ==>
        && history == old(history) + [r] && a == Answer(limits, history)
        && alerts == old(alerts) + Edges(limits, old(history), r)
    {
      hide DailyStopped, Stopped, Best, Run, Anchor, Held, OpeningNewRisk, MaintainingOrAddingRisk, Decide, AllValid;
      hide DailyState, StopState, NearCap, Warnings.Since, Active, HeldWarnings;
      if r.price <= 0.0 {
        return Approval(0.0, 0.0, 0.0, InvalidPrice);
      }
      if r.equity <= 0.0 {
        return Approval(0.0, 0.0, 0.0, NonPositiveEquity);
      }
      ghost var before := history;
      RefreshDailyState(r);
      RefreshDynamicStopState(r);
      history := before + [r];
      HeldExtends(limits, before, r);
      a := Decided(r);
    }

    /** The rest of `apply`, after the two refreshes. */
    method Decided(r: Request) returns (a: Approval)
      requires limits.Valid() && r.Valid()
      modifies this`enforcedAlertActive, this`notionalWarnActive, this`leverageWarnActive, this`alerts
      ensures a == Decide(limits, dailyStopTriggered, dynamicStopTriggered, r)
      ensures alerts == old(alerts) + Active().Since(old(Active()))
      ensures
        var rejected := dailyStopTriggered && OpeningNewRisk(r.current, r.target);
        Active() ==
          if rejected then old(Active())
          else Warnings(dynamicStopTriggered && MaintainingOrAddingRisk(r.current, r.target),
                        NearCap(a.notional, limits.notionalCap, limits.warn),
                        NearCap(a.leverage, limits.leverageCap, limits.warn))
    {
      hide OpeningNewRisk, MaintainingOrAddingRisk, Sized, NearCap, Limits.Valid, Request.Valid;
      var approved := r.target;
      if dailyStopTriggered && OpeningNewRisk(r.current, approved) {
        return Approval(0.0, 0.0, 0.0, DailyStop);
      }
      if dynamicStopTriggered && MaintainingOrAddingRisk(r.current, approved) {
        approved := 0.0;
        if !enforcedAlertActive {
          alerts := alerts + [DynamicStopEnforced];
        }
        enforcedAlertActive := true;
      } else {
        enforcedAlertActive := false;
      }
      a := Size(r, approved);
      EmitUtilizationAlerts(a.notional, a.leverage);
    }

    method Size(r: Request, wanted: real) returns (a: Approval)
      requires limits.Valid() && r.Valid()
      ensures a == Sized(limits, r, wanted)
    {
      hide MaxQty, Mul;
      MaxQtyIs(limits, r);
      var approved := wanted;
      var maxByNotional := limits.notionalCap / r.price;
      var maxByLeverage := Mul(limits.leverageCap, r.equity) / r.price;
      var maxAbsQty := Min(maxByNotional, maxByLeverage);
      var reason := Approved;
      if Abs(approved) > maxAbsQty {
        approved := if approved > 0.0 then maxAbsQty else -maxAbsQty;
        reason := if maxByNotional <= maxByLeverage then NotionalClamp else LeverageClamp;
      }
      var notional := Mul(Abs(approved), r.price);
      var leverage := notional / r.equity;
      a := Approval(approved, notional, leverage, reason);
    }

    method RefreshDailyState(r: Request)
      requires limits.Valid() && AllValid(history) && DailyState(history) && r.Valid()
      modifies this`anchorDay, this`anchorEquity, this`dailyStopTriggered, this`alerts
      ensures AllValid(history + [r]) && DailyState(history + [r])
      ensures dailyStopTriggered == DailyStopped(limits, history + [r])
      ensures alerts == old(alerts) + Edge(limits, history, r, DailyStopTriggered)
    {
      DailyStopExtends(limits, history, r);
      hide Stopped, UpToLastChecked, Run, DailyStopped, Anchor;
      if limits.dailyStop.Some? {
        if anchorDay != Some(r.day) {
          anchorDay, anchorEquity, dailyStopTriggered := Some(r.day), Some(r.equity), false;
        } else if anchorEquity.Some? && anchorEquity.value > 0.0 {
          assert Drawn(Anchor(history), r.equity, limits.dailyStop.value) ==
            ((anchorEquity.value - r.equity) / anchorEquity.value >= limits.dailyStop.value);
          var drawdown := (anchorEquity.value - r.equity) / anchorEquity.value;
          if drawdown >= limits.dailyStop.value && !dailyStopTriggered {
            dailyStopTriggered := true;
            alerts := alerts + [DailyStopTriggered];
          }
        }
      }
    }

    method RefreshDynamicStopState(r: Request)
      requires limits.Valid() && AllValid(history) && StopState(history) && r.Valid()
      modifies this`trackedSide, this`trackedExtreme, this`dynamicStopTriggered, this`alerts
      ensures StopState(history + [r])
      ensures dynamicStopTriggered == Stopped(limits, history + [r])
      ensures AllValid(history + [r])
      ensures alerts == old(alerts) + Edge(limits, history, r, DynamicStopTriggered)
    {
      hide DailyStopped, UpToLastChecked, Run, Stopped, Mul, NearCap, Answer, Drawn, Anchor, DailyState;
      StopExtends(limits, history, r);
      RunExtends(history, r, SideOf);
      assert CurrentSide(history + [r]) == SideOf(r);
      if limits.trailing.Some? {
        var side := Side(r.current);
        if side == 0 {
          trackedSide, trackedExtreme, dynamicStopTriggered := 0, None, false;
        } else if trackedSide != side {
          trackedSide, trackedExtreme, dynamicStopTriggered := side, Some(r.price), false;
        } else {
          ghost var run := Run(history, SideOf);
          assert (run + [r])[..|run| + 1] == run + [r] && (run + [r])[..|run|] == run;
          var first := trackedExtreme.None?;
          trackedExtreme := Some(if first then r.price
                                 else if side > 0 then Max(trackedExtreme.value, r.price)
                                 else Min(trackedExtreme.value, r.price));
          var stopPrice := StopPrice(side, trackedExtreme.value, limits.trailing.value);
          var hit := !first && if side > 0 then r.price <= stopPrice else r.price >= stopPrice;
          assert hit == Retraced(run + [r], |run|, limits.trailing.value);
          if hit && !dynamicStopTriggered {
            dynamicStopTriggered := true;
            alerts := alerts + [DynamicStopTriggered];
          }
        }
      }
    }

    method EmitUtilizationAlerts(notional: real, leverage: real)
      requires limits.Valid()
      modifies this`notionalWarnActive, this`leverageWarnActive, this`alerts
      ensures notionalWarnActive == NearCap(notional, limits.notionalCap, limits.warn)
      ensures leverageWarnActive == NearCap(leverage, limits.leverageCap, limits.warn)
      ensures alerts == old(alerts)
        + (if notionalWarnActive && !old(notionalWarnActive) then [NotionalNearCap] else [])
        + (if leverageWarnActive && !old(leverageWarnActive) then [LeverageNearCap] else [])
    {
      var notionalOver := notional / limits.notionalCap >= limits.warn;
      var leverageOver := leverage / limits.leverageCap >= limits.warn;
      if notionalOver && !notionalWarnActive {
        alerts := alerts + [NotionalNearCap];
      }
      notionalWarnActive := notionalOver;
      if leverageOver && !leverageWarnActive {
        alerts := alerts + [LeverageNearCap];
      }
      leverageWarnActive := leverageOver;
    }
  }
}
