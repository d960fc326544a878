/** `_project_weights` of portfolio/capital_allocator.py, and the capital split built on it. Scores are
    listed in name order. Unlike the optimizer's projection, every round here rescales the
    original base weights, and a final pass repairs a total that is off. */
module CapitalAllocator {
  import opened RealMath
  import opened WeightBounds
  import opened Sorting
  import opened Values

  const ROUNDS: nat := 16
  const TOLERANCE: real := 0.000000000001

  /** How the loop ended: nobody out of bounds, nobody free, or out of rounds. */
  datatype Exit = Settled | NobodyFree | Exhausted

  datatype Error = MinTooLarge | MaxTooSmall | NoPositiveSum

  function Positive(raw: seq<real>): (r: seq<real>)
    ensures |r| == |raw|
  {
    seq(|raw|, i requires 0 <= i < |raw| => Max(raw[i], 0.0))
  }

  /** Shares of `total` in proportion to the positive scores, equal shares if there are none. */
  function Base(raw: seq<real>, total: real): (r: seq<real>)
    ensures |r| == |raw|
  {
    var rawSum := Sum(Positive(raw));
    seq(|raw|, i requires 0 <= i < |raw| =>
      if rawSum <= 0.0 then total / |raw| as real else total * Positive(raw)[i] / rawSum)
  }

  /** The base weights at the free places, zero elsewhere. */
  function FreeBase(base: seq<real>, ws: seq<real>, b: Bounds): (r: seq<real>)
    requires |base| == |ws|
    ensures |r| == |ws|
  {
    seq(|ws|, i requires 0 <= i < |ws| => if Fixed(ws[i], b) then 0.0 else base[i])
  }

  function Shares(base: seq<real>, ws: seq<real>, b: Bounds): (r: seq<real>)
    requires |base| == |ws|
    ensures |r| == |ws|
  {
    if Sum(FreeBase(base, ws, b)) <= 0.0 then FreeOnes(ws, b) else FreeBase(base, ws, b)
  }

  lemma SharesPositive(base: seq<real>, ws: seq<real>, b: Bounds)
    requires |base| == |ws| && HasFree(ws, b)
    ensures Sum(Shares(base, ws, b)) > 0.0
  {
    FreeCountPositive(ws, b);
  }

  /** A round with somebody free: clamp the violators, rescale the others from their base. */
  function Round(base: seq<real>, ws: seq<real>, total: real, b: Bounds): (r: seq<real>)
    requires |base| == |ws| && HasFree(ws, b)
    ensures |r| == |ws|
  {
    SharesPositive(base, ws, b);
    Redistribute(ws, Shares(base, ws, b), total, b)
  }

  function Loop(base: seq<real>, ws: seq<real>, total: real, b: Bounds, rounds: nat): (r: (seq<real>, Exit))
    requires |base| == |ws|
    ensures |r.0| == |ws|
    decreases rounds
  {
    if rounds == 0 then (ws, Exhausted)
    else if InBounds(ws, b) then (ws, Settled)
    else if !HasFree(ws, b) then (ClampAll(ws, b), NobodyFree)
    else Loop(base, Round(base, ws, total, b), total, b, rounds - 1)
  }

  // ---------- the repair pass ----------

  /** Raise the weights listed in `order` towards the upper bound until `residual` is used up. */
  function Raise(ws: seq<real>, order: seq<nat>, residual: real, hi: real): (r: seq<real>)
    requires forall k :: 0 <= k < |order| ==> order[k] < |ws|
    ensures |r| == |ws|
    decreases |order|
  {
    if |order| == 0 then ws
    else
      var i := order[0];
      var room := hi - ws[i];
      if room <= 0.0 then Raise(ws, order[1..], residual, hi)
      else
        var delta := Min(room, residual);
        if residual - delta <= TOLERANCE then ws[i := ws[i] + delta]
        else Raise(ws[i := ws[i] + delta], order[1..], residual - delta, hi)
  }

  /** Lower the weights listed in `order` towards the lower bound until `needed` is used up. */
  function Lower(ws: seq<real>, order: seq<nat>, needed: real, lo: real): (r: seq<real>)
    requires forall k :: 0 <= k < |order| ==> order[k] < |ws|
    ensures |r| == |ws|
    decreases |order|
  {
    if |order| == 0 then ws
    else
      var i := order[0];
      var room := ws[i] - lo;
      if room <= 0.0 then Lower(ws, order[1..], needed, lo)
      else
        var delta := Min(room, needed);
        if needed - delta <= TOLERANCE then ws[i := ws[i] - delta]
        else Lower(ws[i := ws[i] - delta], order[1..], needed - delta, lo)
  }

  function Indices(n: nat): (r: seq<nat>)
    ensures |r| == n && forall i :: 0 <= i < n ==> r[i] == i
  {
    seq(n, i requires 0 <= i < n => i)
  }

  function At(ws: seq<real>, i: nat): real {
    if i < |ws| then ws[i] else 0.0
  }

  /** The places by rising, or falling, weight; ties in name order. */
  function Order(ws: seq<real>, falling: bool): (r: seq<nat>)
    ensures multiset(r) == multiset(Indices(|ws|))
  {
    StableSort(Indices(|ws|), (i: nat) => if falling then -At(ws, i) else At(ws, i))
  }

  ghost predicate Listed(order: seq<nat>, i: nat) {
    exists k :: 0 <= k < |order| && order[k] == i
  }

  lemma OrderCoversAll(ws: seq<real>, falling: bool)
    ensures forall k :: 0 <= k < |Order(ws, falling)| ==> Order(ws, falling)[k] < |ws|
    ensures forall i: nat :: i < |ws| ==> Listed(Order(ws, falling), i)
  {
    var order, all := Order(ws, falling), Indices(|ws|);
    forall k | 0 <= k < |order| ensures order[k] < |ws| {
      assert order[k] in multiset(order);
      assert order[k] in multiset(all);
    }
    forall i: nat | i < |ws| ensures Listed(order, i) {
      assert all[i] in multiset(all);
      assert i in multiset(order);
      assert i in order;
    }
  }

  /** Raising keeps every weight between its old value and the bound, never overspends the
      residual, and stops short only when every listed weight is on the bound. */
  lemma {:induction false} RaiseSpends(ws: seq<real>, order: seq<nat>, residual: real, hi: real)
    requires forall k :: 0 <= k < |order| ==> order[k] < |ws|
    requires residual > TOLERANCE && forall i :: 0 <= i < |ws| ==> ws[i] <= hi
    ensures var r := Raise(ws, order, residual, hi);
      && (forall i :: 0 <= i < |ws| ==> ws[i] <= r[i] <= hi)
      && Sum(r) <= Sum(ws) + residual
      && (Sum(ws) + residual - Sum(r) <= TOLERANCE || forall k :: 0 <= k < |order| ==> r[order[k]] == hi)
    decreases |order|
  {
    hide Sum;
    if |order| > 0 {
      var i := order[0];
      var room := hi - ws[i];
      var delta := Min(room, residual);
      SumUpdate(ws, i, ws[i] + delta);
      if room <= 0.0 {
        RaiseSpends(ws, order[1..], residual, hi);
      } else if residual - delta > TOLERANCE {
        RaiseSpends(ws[i := ws[i] + delta], order[1..], residual - delta, hi);
      }
      var r := Raise(ws, order, residual, hi);
      assert forall k :: 0 < k < |order| ==> order[k] == order[1..][k - 1];
    }
  }

  lemma {:induction false} LowerSpends(ws: seq<real>, order: seq<nat>, needed: real, lo: real)
    requires forall k :: 0 <= k < |order| ==> order[k] < |ws|
    requires needed > TOLERANCE && forall i :: 0 <= i < |ws| ==> lo <= ws[i]
    ensures var r := Lower(ws, order, needed, lo);
      && (forall i :: 0 <= i < |ws| ==> lo <= r[i] <= ws[i])
      && Sum(ws) - needed <= Sum(r)
      && (Sum(r) - (Sum(ws) - needed) <= TOLERANCE || forall k :: 0 <= k < |order| ==> r[order[k]] == lo)
    decreases |order|
  {
    hide Sum;
    if |order| > 0 {
      var i := order[0];
      var room := ws[i] - lo;
      var delta := Min(room, needed);
      SumUpdate(ws, i, ws[i] - delta);
      if room <= 0.0 {
        LowerSpends(ws, order[1..], needed, lo);
      } else if needed - delta > TOLERANCE {
        LowerSpends(ws[i := ws[i] - delta], order[1..], needed - delta, lo);
      }
      var r := Lower(ws, order, needed, lo);
      assert forall k :: 0 < k < |order| ==> order[k] == order[1..][k - 1];
    }
  }

  /** The last part of `_project_weights`. */
  function Repair(ws: seq<real>, total: real, b: Bounds): (r: seq<real>)
    ensures |r| == |ws|
  {
    var residual := total - Sum(ws);
    OrderCoversAll(ws, false);
    OrderCoversAll(ws, true);
    if Abs(residual) <= TOLERANCE then ws
    else if residual > 0.0 then Raise(ws, Order(ws, false), residual, b.hi)
    else Lower(ws, Order(ws, true), -residual, b.lo)
  }

  /** The sum of n copies of x. */
  function Copies(n: nat, x: real): real {
    n as real * x
  }

  predicate LowFits(n: nat, total: real, b: Bounds) {
    Copies(n, b.lo) <= total + TOLERANCE
  }

  predicate HighFits(n: nat, total: real, b: Bounds) {
    Copies(n, b.hi) >= total - TOLERANCE
  }

  function Project(raw: seq<real>, total: real, b: Bounds): (r: Result<seq<real>, Error>)
    ensures r.Ok? ==> |r.value| == |raw|
  {
    if !LowFits(|raw|, total, b) then Err(MinTooLarge)
    else if !HighFits(|raw|, total, b) then Err(MaxTooSmall)
    else
      var base := Base(raw, total);
      var projected := Loop(base, base, total, b, ROUNDS).0;
      if Sum(projected) <= 0.0 then Err(NoPositiveSum) else Ok(Repair(projected, total, b))
  }

  // ---------- the total ----------

  lemma BaseSum(raw: seq<real>, total: real)
    requires |raw| > 0
    ensures Sum(Base(raw, total)) == total
    ensures total >= 0.0 ==> forall i :: 0 <= i < |raw| ==> Base(raw, total)[i] >= 0.0
  {
    hide Sum;
    var rawSum := Sum(Positive(raw));
    if rawSum <= 0.0 {
      SumConst(Base(raw, total), total / |raw| as real);
      DivMul(total, |raw| as real);
    } else {
      forall i | 0 <= i < |raw| ensures Base(raw, total)[i] == total / rawSum * Positive(raw)[i] {
      }
      SumScaled(Positive(raw), Base(raw, total), total / rawSum);
      DivMul(total, rawSum);
    }
  }

  lemma RoundMeetsTotal(base: seq<real>, ws: seq<real>, total: real, b: Bounds)
    requires |base| == |ws| && HasFree(ws, b)
    ensures Sum(Round(base, ws, total, b)) == total
  {
    hide Sum;
    SharesPositive(base, ws, b);
    RedistributeMeetsTotal(ws, Shares(base, ws, b), total, b);
  }

  /** Unless everybody was clamped the loop's result meets the total; leaving by a break it is
      within bounds. */
  lemma {:induction false} LoopResult(base: seq<real>, ws: seq<real>, total: real, b: Bounds, rounds: nat)
    requires |base| == |ws| && Sum(ws) == total && b.lo <= b.hi
    ensures var (r, exit) := Loop(base, ws, total, b, rounds);
      && (exit != NobodyFree ==> Sum(r) == total)
      && (exit != Exhausted ==> InBounds(r, b))
    decreases rounds
  {
    hide Sum;
    if rounds > 0 && !InBounds(ws, b) && HasFree(ws, b) {
      RoundMeetsTotal(base, ws, total, b);
      LoopResult(base, Round(base, ws, total, b), total, b, rounds - 1);
    }
  }

  lemma AllListed(ws: seq<real>, order: seq<nat>, x: real)
    requires forall k :: 0 <= k < |order| ==> order[k] < |ws| && ws[order[k]] == x
    requires forall i: nat :: i < |ws| ==> Listed(order, i)
    ensures Sum(ws) == Copies(|ws|, x)
  {
    forall i: nat | i < |ws| ensures ws[i] == x {
      assert Listed(order, i);
    }
    SumConst(ws, x);
  }

  lemma RaisedMeetsTotal(ws: seq<real>, total: real, b: Bounds)
    requires InBounds(ws, b) && HighFits(|ws|, total, b) && total - Sum(ws) > TOLERANCE
    ensures InBounds(Repair(ws, total, b), b)
    ensures 0.0 <= total - Sum(Repair(ws, total, b)) <= TOLERANCE
  {
    hide Sum, Order, Copies, Lower, Raise;
    var order, r := Order(ws, false), Repair(ws, total, b);
    OrderCoversAll(ws, false);
    RaiseSpends(ws, order, total - Sum(ws), b.hi);
    if total - Sum(r) > TOLERANCE {
      AllListed(r, order, b.hi);
    }
  }

  lemma LoweredMeetsTotal(ws: seq<real>, total: real, b: Bounds)
    requires InBounds(ws, b) && LowFits(|ws|, total, b) && Sum(ws) - total > TOLERANCE
    ensures InBounds(Repair(ws, total, b), b)
    ensures 0.0 <= Sum(Repair(ws, total, b)) - total <= TOLERANCE
  {
    hide Sum, Order, Copies, Lower, Raise;
    var order, r := Order(ws, true), Repair(ws, total, b);
    OrderCoversAll(ws, true);
    LowerSpends(ws, order, Sum(ws) - total, b.lo);
    if Sum(r) - total > TOLERANCE {
      AllListed(r, order, b.lo);
    }
  }

  /** Repairing weights within bounds keeps them there and meets the total to the tolerance. */
  lemma RepairMeetsTotal(ws: seq<real>, total: real, b: Bounds)
    requires InBounds(ws, b) && LowFits(|ws|, total, b) && HighFits(|ws|, total, b)
    ensures InBounds(Repair(ws, total, b), b)
    ensures -TOLERANCE <= total - Sum(Repair(ws, total, b)) <= TOLERANCE
  {
    hide Sum, Order;
    if total - Sum(ws) > TOLERANCE {
      RaisedMeetsTotal(ws, total, b);
    } else if Sum(ws) - total > TOLERANCE {
      LoweredMeetsTotal(ws, total, b);
    }
  }

  /** For every score vector the weights meet the total to within 1e-12, and they respect the
      bounds whenever the loop left by one of its breaks. */
  lemma ProjectMeetsTotal(raw: seq<real>, total: real, b: Bounds)
    requires |raw| > 0 && b.lo <= b.hi && Project(raw, total, b).Ok?
    ensures -TOLERANCE <= total - Sum(Project(raw, total, b).value) <= TOLERANCE
    ensures
      Loop(Base(raw, total), Base(raw, total), total, b, ROUNDS).1 != Exhausted
      ==> InBounds(Project(raw, total, b).value, b)
  {
    hide Sum, Order, Loop;
    var base := Base(raw, total);
    BaseSum(raw, total);
    LoopResult(base, base, total, b, ROUNDS);
    var (projected, exit) := Loop(base, base, total, b, ROUNDS);
    if exit != Exhausted {
      RepairMeetsTotal(projected, total, b);
    }
  }

  // ---------- exactly when the bounds hold ----------

  /** The result is within bounds exactly when the loop left by a break or its last round ended
      within bounds: a loop that ran out of rounds meets the total already, and the repair
      returns its weights as they are. */
  lemma InBoundsExactlyWhenLoopIs(raw: seq<real>, total: real, b: Bounds)
    requires |raw| > 0 && b.lo <= b.hi && Project(raw, total, b).Ok?
    ensures var (r, exit) := Loop(Base(raw, total), Base(raw, total), total, b, ROUNDS);
      && (exit == Exhausted ==> Project(raw, total, b).value == r)
      && (InBounds(Project(raw, total, b).value, b) <==> exit != Exhausted || InBounds(r, b))
  {
    hide Sum, Loop, Base;
    BaseSum(raw, total);
    LoopResult(Base(raw, total), Base(raw, total), total, b, ROUNDS);
    ProjectMeetsTotal(raw, total, b);
  }

  /** What a round makes of ws: violators on their bound, the others f times their base. */
  ghost predicate Rescaled(base: seq<real>, ws: seq<real>, next: seq<real>, f: real, b: Bounds) {
    && |base| == |ws| == |next|
    && forall i :: 0 <= i < |ws| ==> next[i] == if Fixed(ws[i], b) then Clamp(ws[i], b) else Mul(f, base[i])
  }

  ghost predicate NoneOver(ws: seq<real>, b: Bounds) {
    forall i :: 0 <= i < |ws| ==> !Over(ws[i], b)
  }

  ghost predicate NoneUnder(ws: seq<real>, b: Bounds) {
    forall i :: 0 <= i < |ws| ==> !Under(ws[i], b)
  }

  /** Non-negative base weights meeting the total, and bounds that exact weights can meet. */
  ghost predicate Feasible(base: seq<real>, total: real, b: Bounds) {
    && 0.0 <= b.lo <= b.hi && 0.0 < total && Sum(base) == total
    && Copies(|base|, b.lo) <= total <= Copies(|base|, b.hi)
    && forall i :: 0 <= i < |base| ==> 0.0 <= base[i]
  }

  lemma FactorsCompare(f: real, g: real, x: real)
    requires 0.0 <= x
    ensures f <= g ==> Mul(f, x) <= Mul(g, x)
    ensures Mul(f, x) < Mul(g, x) ==> f < g && 0.0 < x
    ensures Mul(1.0, x) == x && Mul(f, 0.0) == 0.0
  {
    if f <= g {
      MulLe(f, g, x);
    } else {
      MulLe(g, f, x);
    }
  }

  lemma AllFactorsCompare(f: real, g: real, base: seq<real>)
    requires forall i :: 0 <= i < |base| ==> 0.0 <= base[i]
    ensures f <= g ==> forall i :: 0 <= i < |base| ==> Mul(f, base[i]) <= Mul(g, base[i])
    ensures forall i :: 0 <= i < |base| && Mul(f, base[i]) < Mul(g, base[i]) ==> f < g && 0.0 < base[i]
    ensures forall i :: 0 <= i < |base| ==> Mul(1.0, base[i]) == base[i] && (base[i] == 0.0 ==> Mul(f, base[i]) == 0.0)
  {
    hide Mul;
    forall i | 0 <= i < |base|
      ensures f <= g ==> Mul(f, base[i]) <= Mul(g, base[i])
      ensures Mul(f, base[i]) < Mul(g, base[i]) ==> f < g && 0.0 < base[i]
      ensures Mul(1.0, base[i]) == base[i] && (base[i] == 0.0 ==> Mul(f, base[i]) == 0.0)
    {
      FactorsCompare(f, g, base[i]);
    }
  }

  /** Three successive rounds, none of which starts with somebody under: when the first two end out
      of bounds, so does the third. Had it settled, its factor would lie below that of the first;
      then its weights would lie below those of the second, or of the first, and could not meet the
      same total. */
  lemma OversNeverSettle(
      base: seq<real>, v: seq<real>, x: seq<real>, y: seq<real>, z: seq<real>, f: real, g: real, h: real, b: Bounds)
    requires Rescaled(base, v, x, f, b) && Rescaled(base, x, y, g, b) && Rescaled(base, y, z, h, b)
    requires b.lo <= b.hi && forall i :: 0 <= i < |base| ==> 0.0 <= base[i]
    requires NoneUnder(v, b) && NoneUnder(x, b) && NoneUnder(y, b) && !InBounds(x, b) && !InBounds(y, b)
    requires Sum(x) == Sum(y) == Sum(z)
    ensures !InBounds(z, b)
  {
    hide Sum, Mul;
    if InBounds(z, b) {
      var i :| 0 <= i < |x| && Over(x[i], b);
      var j :| 0 <= j < |y| && Over(y[j], b);
      AllFactorsCompare(h, f, base);
      AllFactorsCompare(h, g, base);
      AllFactorsCompare(g, h, base);
      if h <= g {
        SumLt(z, y, j);
      } else {
        SumLt(z, x, i);
      }
    }
  }

  lemma UndersNeverSettle(
      base: seq<real>, v: seq<real>, x: seq<real>, y: seq<real>, z: seq<real>, f: real, g: real, h: real, b: Bounds)
    requires Rescaled(base, v, x, f, b) && Rescaled(base, x, y, g, b) && Rescaled(base, y, z, h, b)
    requires b.lo <= b.hi && forall i :: 0 <= i < |base| ==> 0.0 <= base[i]
    requires NoneOver(v, b) && NoneOver(x, b) && NoneOver(y, b) && !InBounds(x, b) && !InBounds(y, b)
    requires Sum(x) == Sum(y) == Sum(z)
    ensures !InBounds(z, b)
  {
    hide Sum, Mul;
    if InBounds(z, b) {
      var i :| 0 <= i < |x| && Under(x[i], b);
      var j :| 0 <= j < |y| && Under(y[j], b);
      AllFactorsCompare(f, h, base);
      AllFactorsCompare(g, h, base);
      AllFactorsCompare(h, g, base);
      if h >= g {
        SumLt(y, z, j);
      } else {
        SumLt(x, z, i);
      }
    }
  }

  // ---------- a round as a rescaling ----------

  /** The factor the free base weights are scaled by. */
  function Factor(base: seq<real>, ws: seq<real>, total: real, b: Bounds): real
    requires |base| == |ws|
  {
    var free := Sum(FreeBase(base, ws, b));
    if free == 0.0 then 0.0 else Remainder(ws, total, b) / free
  }

  lemma RoundRescales(base: seq<real>, ws: seq<real>, total: real, b: Bounds)
    requires |base| == |ws| && Sum(FreeBase(base, ws, b)) > 0.0
    ensures HasFree(ws, b) && Rescaled(base, ws, Round(base, ws, total, b), Factor(base, ws, total, b), b)
    ensures Sum(Round(base, ws, total, b)) == total
  {
    hide Sum, Remainder;
    if !HasFree(ws, b) {
      SumConst(FreeBase(base, ws, b), 0.0);
    }
    RoundMeetsTotal(base, ws, total, b);
  }

  /** The base weights themselves are scaled by one, after a round with nobody out of bounds. */
  function Inside(n: nat, b: Bounds): (r: seq<real>)
    ensures |r| == n
  {
    seq(n, i => b.lo)
  }

  lemma BaseIsRescaled(base: seq<real>, b: Bounds)
    requires b.lo <= b.hi
    ensures InBounds(Inside(|base|, b), b) && Rescaled(base, Inside(|base|, b), base, 1.0, b)
  {
  }

  lemma PartOfFree(base: seq<real>, ws: seq<real>, b: Bounds, at: nat)
    requires |base| == |ws| && at < |ws| && !Fixed(ws[at], b)
    requires forall i :: 0 <= i < |base| ==> 0.0 <= base[i]
    ensures base[at] <= Sum(FreeBase(base, ws, b))
  {
    hide Sum;
    var only := seq(|ws|, i => if i == at then base[at] else 0.0);
    OnePart(only, at, base[at]);
    SumLe(only, FreeBase(base, ws, b));
  }

  /** Weights meeting a feasible total with a violator among them are not all at the lower bound
      or under. */
  lemma NotAllLow(ws: seq<real>, total: real, b: Bounds)
    requires Sum(ws) == total && Copies(|ws|, b.lo) <= total && b.lo <= b.hi && !InBounds(ws, b)
    ensures exists i :: 0 <= i < |ws| && ws[i] > b.lo
  {
    hide Sum;
    var at :| 0 <= at < |ws| && Fixed(ws[at], b);
    if forall i :: 0 <= i < |ws| ==> ws[i] <= b.lo {
      var low := seq(|ws|, i => b.lo);
      SumConst(low, b.lo);
      SumLt(ws, low, at);
    }
  }

  /** After a round with violators, the places free in the next round carry base weight: a
      violator with a base weight, or one of the others, who are not all under. */
  lemma FreeBasePositive(base: seq<real>, ws: seq<real>, next: seq<real>, f: real, total: real, b: Bounds)
    requires Feasible(base, total, b) && Rescaled(base, ws, next, f, b) && Sum(next) == total
    requires
      || (exists i :: 0 <= i < |ws| && Fixed(ws[i], b) && 0.0 < base[i])
      || (!InBounds(next, b) && NoneOver(next, b))
    requires forall i :: 0 <= i < |ws| && Over(ws[i], b) ==> 0.0 < base[i]
    ensures Sum(FreeBase(base, next, b)) > 0.0
  {
    hide Sum, Mul;
    if i :| 0 <= i < |ws| && Fixed(ws[i], b) && 0.0 < base[i] {
      PartOfFree(base, next, b, i);
    } else {
      NotAllLow(next, total, b);
      var i :| 0 <= i < |next| && next[i] > b.lo;
      AllFactorsCompare(f, f, base);
      PartOfFree(base, next, b, i);
    }
  }

  /** What an even share of the first round's remainder is worth, nobody being under. */
  lemma EvenShareFits(base: seq<real>, total: real, b: Bounds)
    requires Feasible(base, total, b) && NoneUnder(base, b) && HasFree(base, b)
    ensures Sum(FreeOnes(base, b)) > 0.0
    ensures 0.0 <= Remainder(base, total, b) / Sum(FreeOnes(base, b)) <= b.hi
  {
    hide Sum;
    FreeCountPositive(base, b);
    var ones, fixed := FreeOnes(base, b), FixedPart(base, b);
    var scaled := seq(|base|, i requires 0 <= i < |base| => b.hi * ones[i]);
    var full := seq(|base|, i requires 0 <= i < |base| => b.hi);
    SumScaled(ones, scaled, b.hi);
    SumAdd(fixed, scaled, full);
    SumConst(full, b.hi);
    SumLe(fixed, base);
    DivLe(Remainder(base, total, b), b.hi, Sum(ones));
    DivLe(Remainder(base, total, b), 0.0, Sum(ones));
  }

  /** When the free base weights sum to nothing in the first round, equal shares fit. */
  lemma FirstRoundSpreads(base: seq<real>, total: real, b: Bounds)
    requires Feasible(base, total, b) && HasFree(base, b) && !InBounds(Round(base, base, total, b), b)
    ensures Sum(FreeBase(base, base, b)) > 0.0
  {
    hide Sum, Remainder, Copies;
    if Sum(FreeBase(base, base, b)) <= 0.0 {
      var at :| 0 <= at < |base| && !Fixed(base[at], b);
      PartOfFree(base, base, b, at);
      EvenShareFits(base, total, b);
    }
  }

  // ---------- one-sided bounds ----------

  /** A bound that nobody can violate: no lower bound, or an upper bound the total fits under. */
  ghost predicate OneSided(total: real, b: Bounds) {
    b.lo == 0.0 || total <= b.hi
  }

  ghost predicate Sided(ws: seq<real>, total: real, b: Bounds) {
    (b.lo == 0.0 ==> NoneUnder(ws, b)) && (total <= b.hi ==> NoneOver(ws, b))
  }

  ghost predicate NonNegative(ws: seq<real>) {
    forall i :: 0 <= i < |ws| ==> 0.0 <= ws[i]
  }

  lemma NonNegativeIsSided(ws: seq<real>, total: real, b: Bounds)
    requires NonNegative(ws) && Sum(ws) == total
    ensures Sided(ws, total, b)
  {
    hide Sum;
    forall i | 0 <= i < |ws| ensures ws[i] <= total {
      var only := seq(|ws|, k => if k == i then ws[i] else 0.0);
      OnePart(only, i, ws[i]);
      SumLe(only, ws);
    }
  }

  lemma RoundNonNegative(base: seq<real>, ws: seq<real>, total: real, b: Bounds)
    requires Feasible(base, total, b) && OneSided(total, b)
    requires |ws| == |base| && NonNegative(ws) && Sum(ws) == total && Sum(FreeBase(base, ws, b)) > 0.0
    ensures HasFree(ws, b) && NonNegative(Round(base, ws, total, b))
  {
    hide Sum, Round, Factor;
    RoundRescales(base, ws, total, b);
    NonNegativeIsSided(ws, total, b);
    var fixed := FixedPart(ws, b);
    if b.lo == 0.0 {
      SumLe(fixed, ws);
    } else {
      var low := seq(|ws|, i => b.lo);
      SumConst(low, b.lo);
      SumLe(fixed, low);
    }
    FactorNonNegative(base, ws, total, b);
    AllFactorsCompare(0.0, Factor(base, ws, total, b), base);
    assert forall i :: 0 <= i < |base| ==> Mul(0.0, base[i]) == 0.0;
  }

  lemma FactorNonNegative(base: seq<real>, ws: seq<real>, total: real, b: Bounds)
    requires |base| == |ws| && Sum(FreeBase(base, ws, b)) > 0.0 && Remainder(ws, total, b) >= 0.0
    ensures Factor(base, ws, total, b) >= 0.0
  {
    DivLe(Remainder(ws, total, b), 0.0, Sum(FreeBase(base, ws, b)));
  }

  /** x is what some round, or the base itself, left out of bounds; the next round is as well. */
  ghost predicate OutTwice(base: seq<real>, v: seq<real>, x: seq<real>, f: real, total: real, b: Bounds) {
    && Feasible(base, total, b) && OneSided(total, b)
    && Rescaled(base, v, x, f, b) && Sided(v, total, b) && NonNegative(x) && Sum(x) == total
    && !InBounds(x, b) && Sum(FreeBase(base, x, b)) > 0.0 && HasFree(x, b) && !InBounds(Round(base, x, total, b), b)
  }

  /** The places free after y carry base weight: a violator of x over the bound has some, and if
      nobody can be over, y's weights are not all under. */
  lemma NextSpreads(base: seq<real>, v: seq<real>, x: seq<real>, f: real, total: real, b: Bounds)
    requires OutTwice(base, v, x, f, total, b)
    ensures Sum(FreeBase(base, Round(base, x, total, b), b)) > 0.0
  {
    hide Sum, Round, Factor, Mul;
    var y, g := Round(base, x, total, b), Factor(base, x, total, b);
    RoundRescales(base, x, total, b);
    RoundNonNegative(base, x, total, b);
    NonNegativeIsSided(x, total, b);
    NonNegativeIsSided(y, total, b);
    AllFactorsCompare(f, f, base);
    var i :| 0 <= i < |x| && Fixed(x[i], b);
    assert forall k :: 0 <= k < |x| && Over(x[k], b) ==> 0.0 < base[k];
    FreeBasePositive(base, x, y, g, total, b);
  }

  lemma OutAgain(base: seq<real>, v: seq<real>, x: seq<real>, f: real, total: real, b: Bounds)
    requires OutTwice(base, v, x, f, total, b)
    ensures OutTwice(base, x, Round(base, x, total, b), Factor(base, x, total, b), total, b)
  {
    hide Sum, Round, Factor;
    NextSpreads(base, v, x, f, total, b);
    var y := Round(base, x, total, b);
    RoundRescales(base, x, total, b);
    RoundNonNegative(base, x, total, b);
    RoundRescales(base, y, total, b);
    NonNegativeIsSided(x, total, b);
    NonNegativeIsSided(y, total, b);
    var z, g, h := Round(base, y, total, b), Factor(base, x, total, b), Factor(base, y, total, b);
    if b.lo == 0.0 {
      OversNeverSettle(base, v, x, y, z, f, g, h, b);
    } else {
      UndersNeverSettle(base, v, x, y, z, f, g, h, b);
    }
  }

  /** Once a second round is needed under one-sided bounds, every later round ends out of bounds. */
  lemma {:induction false} NeverSettles(
      base: seq<real>, v: seq<real>, x: seq<real>, f: real, total: real, b: Bounds, rounds: nat)
    requires OutTwice(base, v, x, f, total, b)
    ensures var (r, exit) := Loop(base, Round(base, x, total, b), total, b, rounds);
      exit == Exhausted && !InBounds(r, b)
    decreases rounds
  {
    hide Sum, Round, Factor, InBounds;
    if rounds > 0 {
      OutAgain(base, v, x, f, total, b);
      NeverSettles(base, x, Round(base, x, total, b), Factor(base, x, total, b), total, b, rounds - 1);
    }
  }

  // ---------- the second and third round, for all bounds ----------

  /** The base, then three rounds with the factors f, g and h; the first two leave violators. */
  ghost predicate Unsettled(base: seq<real>, x: seq<real>, f: real, total: real, b: Bounds) {
    && Feasible(base, total, b) && Rescaled(base, base, x, f, b) && Sum(x) == total
    && !InBounds(base, b) && !InBounds(x, b)
  }

  /** Scaling up leaves nobody under, scaling down nobody over. */
  lemma FirstRoundSides(base: seq<real>, x: seq<real>, f: real, total: real, b: Bounds)
    requires Unsettled(base, x, f, total, b)
    ensures f >= 1.0 ==> NoneUnder(x, b)
    ensures f <= 1.0 ==> NoneOver(x, b)
  {
    hide Sum, Mul;
    AllFactorsCompare(1.0, f, base);
    AllFactorsCompare(f, 1.0, base);
  }

  /** Scaling up takes somebody over in the base, scaling down somebody under. */
  lemma FirstRoundCause(base: seq<real>, x: seq<real>, f: real, total: real, b: Bounds)
    requires Unsettled(base, x, f, total, b)
    ensures f >= 1.0 ==> !NoneOver(base, b)
    ensures f <= 1.0 ==> !NoneUnder(base, b)
  {
    hide Sum, Mul;
    AllFactorsCompare(1.0, f, base);
    AllFactorsCompare(f, 1.0, base);
    var i :| 0 <= i < |base| && Fixed(base[i], b);
    if f >= 1.0 && NoneOver(base, b) {
      SumLt(base, x, i);
    }
    if f <= 1.0 && NoneUnder(base, b) {
      SumLt(x, base, i);
    }
  }

  /** A violator freed by a settled round was over and the factor fell below one, or under and
      the factor rose: not both. */
  lemma SecondRoundOut(base: seq<real>, x: seq<real>, y: seq<real>, f: real, g: real, total: real, b: Bounds)
    requires Unsettled(base, x, f, total, b) && Rescaled(base, x, y, g, b) && Sum(y) == total
    ensures !InBounds(y, b)
  {
    hide Sum, Mul;
    if InBounds(y, b) {
      AllFactorsCompare(1.0, g, base);
      AllFactorsCompare(g, 1.0, base);
      BaseIsRescaled(base, b);
      FirstRoundSides(base, x, f, total, b);
      FirstRoundCause(base, x, f, total, b);
      if f >= 1.0 {
        OversNeverSettle(base, Inside(|base|, b), base, x, y, 1.0, f, g, b);
      } else {
        UndersNeverSettle(base, Inside(|base|, b), base, x, y, 1.0, f, g, b);
      }
    }
  }

  /** The second round scales the other way. */
  lemma SecondRoundTurnsDown(base: seq<real>, x: seq<real>, y: seq<real>, f: real, g: real, total: real, b: Bounds)
    requires Unsettled(base, x, f, total, b) && Rescaled(base, x, y, g, b) && Sum(y) == total && f >= 1.0
    ensures g <= 1.0
  {
    hide Sum, Mul, Copies;
    FirstRoundSides(base, x, f, total, b);
    FirstRoundCause(base, x, f, total, b);
    AllFactorsCompare(1.0, g, base);
    if g > 1.0 {
      var i :| 0 <= i < |base| && Over(base[i], b);
      FactorsDiffer(1.0, g, base[i]);
      SumLt(base, y, i);
    }
  }

  lemma SecondRoundTurnsUp(base: seq<real>, x: seq<real>, y: seq<real>, f: real, g: real, total: real, b: Bounds)
    requires Unsettled(base, x, f, total, b) && Rescaled(base, x, y, g, b) && Sum(y) == total && f <= 1.0
    ensures g >= 1.0
  {
    hide Sum, Mul, Copies;
    FirstRoundSides(base, x, f, total, b);
    AllFactorsCompare(g, 1.0, base);
    if g < 1.0 {
      SecondRoundOut(base, x, y, f, g, total, b);
      NotAllLow(y, total, b);
      var i :| 0 <= i < |y| && y[i] > b.lo;
      FactorsDiffer(g, 1.0, base[i]);
      SumLt(y, base, i);
    }
  }

  lemma FactorsDiffer(f: real, g: real, x: real)
    requires f < g && 0.0 <= x
    ensures 0.0 < x ==> Mul(f, x) < Mul(g, x)
    ensures Mul(f, x) > 0.0 ==> 0.0 < x
  {
    if 0.0 < x {
      MulLt(f, g, x);
    }
  }

  lemma ThirdRoundOut(
      base: seq<real>, x: seq<real>, y: seq<real>, z: seq<real>, f: real, g: real, h: real, total: real, b: Bounds)
    requires Unsettled(base, x, f, total, b) && Sum(y) == Sum(z) == total
    requires Rescaled(base, x, y, g, b) && Rescaled(base, y, z, h, b)
    ensures !InBounds(z, b)
  {
    hide Sum, Mul;
    FirstRoundSides(base, x, f, total, b);
    if f >= 1.0 {
      SecondRoundTurnsDown(base, x, y, f, g, total, b);
    } else {
      SecondRoundTurnsUp(base, x, y, f, g, total, b);
    }
    if InBounds(z, b) {
      var i :| 0 <= i < |x| && Fixed(x[i], b);
      AllFactorsCompare(f, h, base);
      AllFactorsCompare(h, f, base);
      AllFactorsCompare(f, g, base);
      AllFactorsCompare(g, f, base);
      AllFactorsCompare(1.0, g, base);
      AllFactorsCompare(g, 1.0, base);
      AllFactorsCompare(1.0, f, base);
      AllFactorsCompare(f, 1.0, base);
      if f >= 1.0 {
        SumLt(z, x, i);
      } else {
        SumLt(x, z, i);
      }
    }
  }

  /** One pass of the loop, whoever is free. */
  function Next(base: seq<real>, ws: seq<real>, total: real, b: Bounds): (r: seq<real>)
    requires |base| == |ws|
    ensures |r| == |ws|
  {
    if HasFree(ws, b) then Round(base, ws, total, b) else ws
  }

  lemma SecondAndThirdSpread(base: seq<real>, x: seq<real>, y: seq<real>, f: real, g: real, total: real, b: Bounds)
    requires Unsettled(base, x, f, total, b)
    ensures Sum(FreeBase(base, x, b)) > 0.0
    ensures Rescaled(base, x, y, g, b) && Sum(y) == total ==> Sum(FreeBase(base, y, b)) > 0.0
  {
    hide Sum, Mul, FreeBase, Copies;
    FirstRoundSides(base, x, f, total, b);
    FirstRoundCause(base, x, f, total, b);
    FreeBasePositive(base, base, x, f, total, b);
    if Rescaled(base, x, y, g, b) && Sum(y) == total {
      AllFactorsCompare(f, 1.0, base);
      AllFactorsCompare(f, f, base);
      var i :| 0 <= i < |x| && Fixed(x[i], b);
      assert 0.0 < base[i];
      FreeBasePositive(base, x, y, g, total, b);
    }
  }

  /** When the first round does not bring the base weights within bounds, the second and the third
      do not either, whatever the bounds. */
  lemma SecondAndThirdRoundOut(base: seq<real>, total: real, b: Bounds)
    requires Feasible(base, total, b) && HasFree(base, b) && !FirstRoundSuffices(base, total, b)
    ensures
      var x := Next(base, base, total, b);
      var y := Next(base, x, total, b);
      && HasFree(x, b) && !InBounds(y, b)
      && HasFree(y, b) && !InBounds(Next(base, y, total, b), b)
  {
    hide Sum, Round, Factor, Copies, FreeBase;
    FirstRoundSpreads(base, total, b);
    RoundRescales(base, base, total, b);
    var x, f := Round(base, base, total, b), Factor(base, base, total, b);
    SecondAndThirdSpread(base, x, x, f, f, total, b);
    RoundRescales(base, x, total, b);
    var y, g := Round(base, x, total, b), Factor(base, x, total, b);
    SecondAndThirdSpread(base, x, y, f, g, total, b);
    RoundRescales(base, y, total, b);
    SecondRoundOut(base, x, y, f, g, total, b);
    ThirdRoundOut(base, x, y, Round(base, y, total, b), f, g, Factor(base, y, total, b), total, b);
  }

  /** One round at most brings the base weights within bounds. */
  ghost predicate FirstRoundSuffices(base: seq<real>, total: real, b: Bounds) {
    InBounds(base, b) || (HasFree(base, b) && InBounds(Round(base, base, total, b), b))
  }

  lemma FeasibleBase(raw: seq<real>, total: real, b: Bounds)
    requires |raw| > 0 && 0.0 < total && 0.0 <= b.lo <= b.hi && Copies(|raw|, b.lo) <= total <= Copies(|raw|, b.hi)
    ensures Feasible(Base(raw, total), total, b)
  {
    hide Sum;
    BaseSum(raw, total);
  }

  lemma FeasibleProjects(raw: seq<real>, total: real, b: Bounds)
    requires |raw| > 0 && Feasible(Base(raw, total), total, b)
    ensures Project(raw, total, b).Ok?
  {
    hide Sum, Loop, Base, ClampAll, Copies;
    var base := Base(raw, total);
    assert LowFits(|raw|, total, b) && HighFits(|raw|, total, b);
    UpperBoundPositive(|base|, total, b);
    LoopPositive(base, base, total, b, ROUNDS);
  }

  lemma UpperBoundPositive(n: nat, total: real, b: Bounds)
    requires 0.0 < total <= Copies(n, b.hi) && 0.0 <= b.hi
    ensures 0.0 < b.hi
  {
  }

  /** For all bounds that exact weights can meet: the result is within them exactly when the first
      round suffices, or everybody is out of bounds at the start, or one of the rounds after the
      third happens to end within them. */
  lemma InBoundsExactlyWhen(raw: seq<real>, total: real, b: Bounds)
    requires |raw| > 0 && 0.0 < total && 0.0 <= b.lo <= b.hi && Copies(|raw|, b.lo) <= total <= Copies(|raw|, b.hi)
    ensures Project(raw, total, b).Ok?
    ensures
      var base := Base(raw, total);
      var third := Next(base, Next(base, Next(base, base, total, b), total, b), total, b);
      InBounds(Project(raw, total, b).value, b) <==>
        || FirstRoundSuffices(base, total, b)
        || !HasFree(base, b)
        || InBounds(Loop(base, third, total, b, ROUNDS - 3).0, b)
  {
    hide Sum, Round, InBounds, HasFree, Base, Copies, Repair;
    var base := Base(raw, total);
    FeasibleBase(raw, total, b);
    FeasibleProjects(raw, total, b);
    InBoundsExactlyWhenLoopIs(raw, total, b);
    LoopResult(base, base, total, b, ROUNDS);
    ThreeRounds(base, total, b);
  }

  lemma ThreeRounds(base: seq<real>, total: real, b: Bounds)
    requires Feasible(base, total, b)
    ensures
      var third := Next(base, Next(base, Next(base, base, total, b), total, b), total, b);
      var (r, exit) := Loop(base, base, total, b, ROUNDS);
      && (FirstRoundSuffices(base, total, b) || !HasFree(base, b) ==> exit != Exhausted || InBounds(r, b))
      && (!FirstRoundSuffices(base, total, b) && HasFree(base, b) ==>
            Loop(base, base, total, b, ROUNDS) == Loop(base, third, total, b, ROUNDS - 3))
  {
    hide Sum, Round, InBounds, HasFree;
    if HasFree(base, b) && !FirstRoundSuffices(base, total, b) {
      SecondAndThirdRoundOut(base, total, b);
    }
  }

  lemma SidedHasFree(base: seq<real>, total: real, b: Bounds)
    requires Feasible(base, total, b) && OneSided(total, b) && !InBounds(base, b)
    ensures HasFree(base, b)
  {
    hide Sum;
    NonNegativeIsSided(base, total, b);
    NotAllLow(base, total, b);
    var at :| 0 <= at < |base| && Fixed(base[at], b);
    if !HasFree(base, b) && b.lo == 0.0 {
      var high := seq(|base|, i => b.hi);
      SumConst(high, b.hi);
      SumLt(high, base, at);
    }
  }

  /** With one-sided bounds the result respects them if and only if one round brings the base
      weights within them: if a second round is needed, the violators of one round are freed by
      the next and displace those of the round before, until the sixteen rounds are spent. */
  lemma BoundExactlyAfterOneRound(raw: seq<real>, total: real, b: Bounds)
    requires |raw| > 0 && 0.0 < total && 0.0 <= b.lo <= b.hi && Copies(|raw|, b.lo) <= total <= Copies(|raw|, b.hi)
    requires OneSided(total, b)
    ensures Project(raw, total, b).Ok?
    ensures InBounds(Project(raw, total, b).value, b) <==> FirstRoundSuffices(Base(raw, total), total, b)
  {
    hide Sum, Round, InBounds, HasFree, Base, Copies, Repair;
    var base := Base(raw, total);
    FeasibleBase(raw, total, b);
    FeasibleProjects(raw, total, b);
    InBoundsExactlyWhenLoopIs(raw, total, b);
    if !FirstRoundSuffices(base, total, b) {
      SidedHasFree(base, total, b);
      FirstOutTwice(base, total, b);
      NeverSettles(base, Inside(|base|, b), base, 1.0, total, b, ROUNDS - 1);
    }
  }

  lemma FirstOutTwice(base: seq<real>, total: real, b: Bounds)
    requires Feasible(base, total, b) && OneSided(total, b) && HasFree(base, b) && !FirstRoundSuffices(base, total, b)
    ensures OutTwice(base, Inside(|base|, b), base, 1.0, total, b)
  {
    hide Sum, Round;
    FirstRoundSpreads(base, total, b);
    BaseIsRescaled(base, b);
  }

  /** Scores 0.7, 0.25 and 0.05 with bounds [0, 0.4], which three names can meet. */
  lemma BoundCanFail() returns (raw: seq<real>, b: Bounds)
    ensures b.Valid() && |raw| == 3 && b.lo == 0.0 && 1.0 <= Copies(3, b.hi)
    ensures Project(raw, 1.0, b).Ok? && !InBounds(Project(raw, 1.0, b).value, b)
  {
    raw, b := [0.7, 0.25, 0.05], Bounds(0.0, 0.4);
    assert Positive(raw) == raw;
    SumOfThree(raw);
    var base := Base(raw, 1.0);
    assert base == raw;
    assert Over(base[0], b) && !Fixed(base[1], b);
    assert FixedPart(base, b) == [0.4, 0.0, 0.0] && FreeBase(base, base, b) == [0.0, 0.25, 0.05];
    SumOfThree(FixedPart(base, b));
    SumOfThree(FreeBase(base, base, b));
    assert Round(base, base, 1.0, b)[1] == 0.5;
    BoundExactlyAfterOneRound(raw, 1.0, b);
  }

  /** Two rounds that lead to each other are repeated until the rounds are spent. */
  lemma {:induction false} Alternates(base: seq<real>, x: seq<real>, y: seq<real>, total: real, b: Bounds, rounds: nat)
    requires |base| == |x| == |y| && HasFree(x, b) && HasFree(y, b) && !InBounds(x, b) && !InBounds(y, b)
    requires Round(base, x, total, b) == y && Round(base, y, total, b) == x
    ensures var (r, exit) := Loop(base, x, total, b, rounds);
      exit == Exhausted && !InBounds(r, b)
    decreases rounds
  {
    hide Round;
    if rounds > 0 {
      Alternates(base, y, x, total, b, rounds - 1);
    }
  }

  lemma SumOfFour(xs: seq<real>)
    requires |xs| == 4
    ensures Sum(xs) == xs[0] + xs[1] + xs[2] + xs[3]
  {
    assert xs == [xs[0], xs[1], xs[2]] + [xs[3]];
    SumSnoc([xs[0], xs[1], xs[2]], xs[3]);
    SumOfThree([xs[0], xs[1], xs[2]]);
  }

  /** The default bounds of the configuration. */
  const DEFAULT := Bounds(0.05, 0.65)

  lemma OneUnderSums(base: seq<real>, ws: seq<real>, k: nat)
    requires |base| == |ws| == 4 && k < 4 && Under(ws[k], DEFAULT) && Sum(base) == 1.0
    requires forall i :: 0 <= i < 4 && i != k ==> !Fixed(ws[i], DEFAULT)
    ensures Sum(FixedPart(ws, DEFAULT)) == 0.05 && Sum(FreeBase(base, ws, DEFAULT)) == 1.0 - base[k]
  {
    hide Sum;
    SumOfFour(base);
    SumOfFour(FixedPart(ws, DEFAULT));
    SumOfFour(FreeBase(base, ws, DEFAULT));
  }

  /** One round for four names of which only the k-th is out of bounds, under. */
  lemma OneUnder(base: seq<real>, ws: seq<real>, k: nat)
    requires |base| == |ws| == 4 && k < 4 && Under(ws[k], DEFAULT) && Sum(base) == 1.0
    requires forall i :: 0 <= i < 4 && i != k ==> !Fixed(ws[i], DEFAULT)
    requires 0.0 < base[k] < 1.0
    ensures HasFree(ws, DEFAULT)
    ensures forall i :: 0 <= i < 4 ==>
      Round(base, ws, 1.0, DEFAULT)[i] == if i == k then 0.05 else Mul(0.95 / (1.0 - base[k]), base[i])
  {
    hide Sum, Mul, Round;
    OneUnderSums(base, ws, k);
    RoundRescales(base, ws, 1.0, DEFAULT);
  }

  /** Under the default bounds, 0.05 and 0.65, scores 0.6, 0.3095, 0.0505 and 0.04 end out of them:
      the last two names are raised to the lower bound in turns. */
  lemma DefaultBoundsCanFail() returns (raw: seq<real>)
    ensures |raw| == 4 && Copies(4, DEFAULT.lo) <= 1.0 <= Copies(4, DEFAULT.hi)
    ensures Project(raw, 1.0, DEFAULT).Ok? && !InBounds(Project(raw, 1.0, DEFAULT).value, DEFAULT)
  {
    hide Sum, Round, Loop;
    raw := [0.6, 0.3095, 0.0505, 0.04];
    var b := DEFAULT;
    assert Positive(raw) == raw;
    SumOfFour(raw);
    var base := Base(raw, 1.0);
    assert base == raw;
    OneUnder(base, base, 3);
    var x := Round(base, base, 1.0, b);
    assert Under(x[2], b);
    OneUnder(base, x, 2);
    var y := Round(base, x, 1.0, b);
    assert Under(y[3], b);
    OneUnder(base, y, 3);
    assert Round(base, y, 1.0, b) == x;
    Alternates(base, x, y, 1.0, b, ROUNDS - 1);
    FeasibleBase(raw, 1.0, b);
    FeasibleProjects(raw, 1.0, b);
    InBoundsExactlyWhenLoopIs(raw, 1.0, b);
    FirstPass(base, 1.0, b);
  }

  lemma FirstPass(base: seq<real>, total: real, b: Bounds)
    requires HasFree(base, b) && !InBounds(base, b)
    ensures Loop(base, base, total, b, ROUNDS) == Loop(base, Round(base, base, total, b), total, b, ROUNDS - 1)
  {
    hide Round;
  }

  // ---------- the code ----------

  /** One pass of the loop body: clamp in place, then rescale the free places from their base. */
  method Pass(base: seq<real>, projected: seq<real>, total: real, b: Bounds) returns (next: seq<real>, spread: bool)
    requires |base| == |projected|
    ensures spread == HasFree(projected, b)
    ensures next == if spread then Round(base, projected, total, b) else ClampAll(projected, b)
  {
    hide Sum;
    next := projected;
    for k := 0 to |projected|
      invariant |next| == |projected|
      invariant forall i :: 0 <= i < |next| ==> next[i] == if i < k then Clamp(projected[i], b) else projected[i]
    {
      next := next[k := Clamp(projected[k], b)];
    }
    spread := HasFree(projected, b);
    if spread {
      SharesPositive(base, projected, b);
      FreeCountPositive(projected, b);
      var remain, freeBase := Remainder(projected, total, b), Sum(FreeBase(base, projected, b));
      for k := 0 to |projected|
        invariant |next| == |projected|
        invariant forall i :: 0 <= i < k ==> next[i] == Round(base, projected, total, b)[i]
        invariant forall i :: k <= i < |next| ==> next[i] == Clamp(projected[i], b)
      {
        if !Fixed(projected[k], b) {
          next := next[k :=
            if freeBase <= 0.0 then remain / Sum(FreeOnes(projected, b)) else remain * base[k] / freeBase];
        }
      }
    }
  }

  /** The raising branch of the repair as the code runs it: along the order, skipping full
      places, until the residual is within tolerance. */
  method RaiseInPlace(projected: seq<real>, order: seq<nat>, residual: real, hi: real) returns (r: seq<real>)
    requires forall k :: 0 <= k < |order| ==> order[k] < |projected|
    ensures r == Raise(projected, order, residual, hi)
  {
    r := projected;
    var left := residual;
    for k := 0 to |order|
      invariant |r| == |projected|
      invariant Raise(projected, order, residual, hi) == Raise(r, order[k..], left, hi)
    {
      var i := order[k];
      assert order[k..][0] == i && order[k..][1..] == order[k + 1..];
      var room := hi - r[i];
      if room > 0.0 {
        var delta := Min(room, left);
        r := r[i := r[i] + delta];
        left := left - delta;
        if left <= TOLERANCE {
          return;
        }
      }
    }
  }

  method LowerInPlace(projected: seq<real>, order: seq<nat>, needed: real, lo: real) returns (r: seq<real>)
    requires forall k :: 0 <= k < |order| ==> order[k] < |projected|
    ensures r == Lower(projected, order, needed, lo)
  {
    r := projected;
    var left := needed;
    for k := 0 to |order|
      invariant |r| == |projected|
      invariant Lower(projected, order, needed, lo) == Lower(r, order[k..], left, lo)
    {
      var i := order[k];
      assert order[k..][0] == i && order[k..][1..] == order[k + 1..];
      var room := r[i] - lo;
      if room > 0.0 {
        var delta := Min(room, left);
        r := r[i := r[i] - delta];
        left := left - delta;
        if left <= TOLERANCE {
          return;
        }
      }
    }
  }

  method RepairInPlace(projected: seq<real>, total: real, b: Bounds) returns (r: seq<real>)
    ensures r == Repair(projected, total, b)
  {
    hide Sum, Raise, Lower, Order;
    r := projected;
    var residual := total - Sum(projected);
    OrderCoversAll(projected, false);
    OrderCoversAll(projected, true);
    if Abs(residual) > TOLERANCE {
      if residual > 0.0 {
        r := RaiseInPlace(projected, Order(projected, false), residual, b.hi);
      } else {
        r := LowerInPlace(projected, Order(projected, true), -residual, b.lo);
      }
    }
  }

  method ProjectWeights(raw: seq<real>, total: real, b: Bounds) returns (r: Result<seq<real>, Error>)
    ensures r == Project(raw, total, b)
  {
    hide Sum, Round, HasFree, InBounds, Repair, Copies;
    if !LowFits(|raw|, total, b) {
      return Err(MinTooLarge);
    }
    if !HighFits(|raw|, total, b) {
      return Err(MaxTooSmall);
    }
    var base := Base(raw, total);
    var projected := base;
    var round, again := 0, true;
    while round < ROUNDS && again && !InBounds(projected, b)
      invariant 0 <= round <= ROUNDS && |projected| == |base|
      invariant Loop(base, base, total, b, ROUNDS).0 ==
        if again then Loop(base, projected, total, b, ROUNDS - round).0 else projected
    {
      projected, again := Pass(base, projected, total, b);
      round := round + 1;
    }
    if Sum(projected) <= 0.0 {
      return Err(NoPositiveSum);
    }
    var repaired := RepairInPlace(projected, total, b);
    r := Ok(repaired);
  }

  datatype Signal = Signal(confidence: real, stability: real, drawdown: real, volatility: real, tradingCost: real) {
    predicate Valid() {
      volatility >= 0.0 && tradingCost >= 0.0 && drawdown >= 0.0
    }
  }

  datatype Config = Config(
    reserveRatio: real, maxDrawdown: real, targetVolatility: real, costBudget: real, bounds: Bounds,
    confidenceWeight: real, stabilityWeight: real, drawdownWeight: real, volatilityWeight: real, costWeight: real) {

    function FactorWeights(): seq<real> {
      [confidenceWeight, stabilityWeight, drawdownWeight, volatilityWeight, costWeight]
    }

    /** The checks the configuration makes when it is built. */
    predicate Valid() {
      && 0.0 <= reserveRatio < 1.0 && maxDrawdown > 0.0 && targetVolatility > 0.0 && costBudget > 0.0
      && bounds.Valid()
      && (forall i :: 0 <= i < 5 ==> FactorWeights()[i] >= 0.0)
      && Sum(FactorWeights()) > 0.0
    }
  }

  function Clamp01(x: real): real {
    if x < 0.0 then 0.0 else if x > 1.0 then 1.0 else x
  }

  /** The composite score of a valid signal, floored. */
  function Score(s: Signal, cfg: Config): real
    requires cfg.Valid() && s.Valid()
  {
    var values := [
      Clamp01(s.confidence), Clamp01(s.stability), 1.0 - Clamp01(s.drawdown / cfg.maxDrawdown),
      cfg.targetVolatility / (s.volatility + cfg.targetVolatility), cfg.costBudget / (s.tradingCost + cfg.costBudget)];
    var w := cfg.FactorWeights();
    var composite :=
      Sum([values[0] * w[0], values[1] * w[1], values[2] * w[2], values[3] * w[3], values[4] * w[4]]) / Sum(w);
    Max(composite, Max(cfg.bounds.lo * 0.5, 0.01))
  }

  ghost predicate AllValid(signals: seq<Signal>) {
    forall i :: 0 <= i < |signals| ==> signals[i].Valid()
  }

  ghost function Scores(signals: seq<Signal>, cfg: Config): (r: seq<real>)
    requires cfg.Valid() && AllValid(signals)
    ensures |r| == |signals|
  {
    seq(|signals|, i requires 0 <= i < |signals| => Score(signals[i], cfg))
  }

  /** The scoring loop, refusing the first invalid signal. */
  method ScoreAll(signals: seq<Signal>, cfg: Config) returns (ok: bool, scores: seq<real>)
    requires cfg.Valid()
    ensures ok <==> AllValid(signals)
    ensures ok ==> scores == Scores(signals, cfg)
  {
    hide Sum, Score;
    scores := [];
    for i := 0 to |signals|
      invariant |scores| == i
      invariant forall k :: 0 <= k < i ==> signals[k].Valid() && scores[k] == Score(signals[k], cfg)
    {
      if !signals[i].Valid() {
        return false, [];
      }
      scores := scores + [Score(signals[i], cfg)];
    }
    ok := true;
  }

  datatype Allocation = Allocation(reserve: real, investable: real, weights: seq<real>, capital: seq<real>)

  datatype AllocationError = NonPositiveCapital | NoSignals | BadSignal | Infeasible(error: Error)

  lemma LoTotal(n: nat, b: Bounds)
    requires b.Valid() && HighFits(n, 1.0, b)
    ensures b.hi > 0.0 && n > 0
  {
  }

  /** The projection of any scores to a total of one succeeds once the bounds are feasible. */
  lemma UnitProjectSucceeds(raw: seq<real>, b: Bounds)
    requires |raw| > 0 && b.Valid() && LowFits(|raw|, 1.0, b) && HighFits(|raw|, 1.0, b)
    ensures Project(raw, 1.0, b).Ok?
  {
    hide Sum, Loop, Copies, HighFits, LowFits;
    var base := Base(raw, 1.0);
    BaseSum(raw, 1.0);
    LoopResult(base, base, 1.0, b, ROUNDS);
    LoTotal(|raw|, b);
    LoopPositive(base, base, 1.0, b, ROUNDS);
  }

  lemma {:induction false} LoopPositive(base: seq<real>, ws: seq<real>, total: real, b: Bounds, rounds: nat)
    requires |base| == |ws| && Sum(ws) == total > 0.0 && 0.0 <= b.lo <= b.hi && 0.0 < b.hi
    ensures Sum(Loop(base, ws, total, b, rounds).0) > 0.0
    decreases rounds
  {
    hide Sum;
    if rounds > 0 && !InBounds(ws, b) {
      if HasFree(ws, b) {
        RoundMeetsTotal(base, ws, total, b);
        LoopPositive(base, Round(base, ws, total, b), total, b, rounds - 1);
      } else {
        ClampedPositive(ws, b);
      }
    }
  }

  /** A split of the capital by weights that sum to one within tolerance: reserve and strategy
      capital together return the total to within the investable part times 1e-12. */
  ghost predicate Returns(a: Allocation, totalCapital: real, ratio: real) {
    && a.reserve == Mul(totalCapital, ratio) && a.reserve + a.investable == totalCapital
      && 0.0 < a.investable <= totalCapital
    && |a.capital| == |a.weights|
    && (forall i :: 0 <= i < |a.capital| ==> a.capital[i] == Mul(a.investable, a.weights[i]))
    && Abs(totalCapital - (a.reserve + Sum(a.capital))) <= Mul(a.investable, TOLERANCE)
  }

  method Fund(totalCapital: real, ratio: real, weights: seq<real>) returns (a: Allocation)
    requires totalCapital > 0.0 && 0.0 <= ratio < 1.0
    requires -TOLERANCE <= 1.0 - Sum(weights) <= TOLERANCE
    ensures Returns(a, totalCapital, ratio) && a.weights == weights
  {
    InvestablePositive(totalCapital, ratio);
    hide Sum, Mul;
    var reserve := Mul(totalCapital, ratio);
    var investable := totalCapital - reserve;
    var capital := seq(|weights|, i requires 0 <= i < |weights| => Mul(investable, weights[i]));
    SumMul(weights, capital, investable);
    CapitalReturns(totalCapital, reserve, investable, Sum(weights));
    a := Allocation(reserve, investable, weights, capital);
  }

  /** `allocate_capital`: refuses exactly the inputs its checks name, and otherwise splits the
      capital by the projected scores. */
  method AllocateCapital(signals: seq<Signal>, totalCapital: real, cfg: Config)
      returns (r: Result<Allocation, AllocationError>)
    requires cfg.Valid()
    ensures r.Ok? <==>
      && totalCapital > 0.0 && |signals| > 0 && AllValid(signals)
      && LowFits(|signals|, 1.0, cfg.bounds) && HighFits(|signals|, 1.0, cfg.bounds)
    ensures r.Err? ==>
      match r.error
      case NonPositiveCapital => totalCapital <= 0.0
      case NoSignals => totalCapital > 0.0 && |signals| == 0
      case BadSignal => totalCapital > 0.0 && |signals| > 0 && !AllValid(signals)
      case Infeasible(error) =>
        totalCapital > 0.0 && |signals| > 0 && AllValid(signals)
          && Project(Scores(signals, cfg), 1.0, cfg.bounds) == Err(error)
    ensures r.Ok? ==>
      && Returns(r.value, totalCapital, cfg.reserveRatio)
      && Project(Scores(signals, cfg), 1.0, cfg.bounds) == Ok(r.value.weights)
  {
    hide Sum, Project, LowFits, HighFits, AllValid, Returns;
    if totalCapital <= 0.0 {
      return Err(NonPositiveCapital);
    }
    if |signals| < 1 {
      return Err(NoSignals);
    }
    var ok, scores := ScoreAll(signals, cfg);
    if !ok {
      return Err(BadSignal);
    }
    var weights := ProjectWeights(scores, 1.0, cfg.bounds);
    ProjectErrors(scores, cfg.bounds);
    if weights.Err? {
      return Err(Infeasible(weights.error));
    }
    ProjectMeetsTotal(scores, 1.0, cfg.bounds);
    var a := Fund(totalCapital, cfg.reserveRatio, weights.value);
    r := Ok(a);
  }

  lemma InvestablePositive(total: real, ratio: real)
    requires total > 0.0 && 0.0 <= ratio < 1.0
    ensures 0.0 < total - Mul(total, ratio) <= total
  {
    MulLt(ratio, 1.0, total);
    MulLe(0.0, ratio, total);
  }

  lemma ProjectErrors(raw: seq<real>, b: Bounds)
    requires |raw| > 0 && b.Valid()
    ensures Project(raw, 1.0, b).Ok? <==> LowFits(|raw|, 1.0, b) && HighFits(|raw|, 1.0, b)
  {
    hide Sum, Loop;
    if LowFits(|raw|, 1.0, b) && HighFits(|raw|, 1.0, b) {
      UnitProjectSucceeds(raw, b);
    }
  }

  lemma CapitalReturns(total: real, reserve: real, investable: real, weight: real)
    requires total == reserve + investable && 0.0 < investable && -TOLERANCE <= 1.0 - weight <= TOLERANCE
    ensures Abs(total - (reserve + Mul(investable, weight))) <= Mul(investable, TOLERANCE)
  {
    assert total - (reserve + investable * weight) == investable * (1.0 - weight);
    MulLe(1.0 - weight, TOLERANCE, investable);
    MulLe(-TOLERANCE, 1.0 - weight, investable);
  }
}
