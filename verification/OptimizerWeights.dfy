/** `_project_weights` of portfolio/optimizer.py: clip, normalise, then up to eight rounds that
    clamp whoever is out of bounds and spread the remainder over the others. */
module OptimizerWeights {
  import opened RealMath
  import opened WeightBounds

  const ROUNDS: nat := 8

  /** The values at the free places, zero elsewhere. */
  function FreePart(ws: seq<real>, b: Bounds): (r: seq<real>)
    ensures |r| == |ws|
  {
    seq(|ws|, i requires 0 <= i < |ws| => if Fixed(ws[i], b) then 0.0 else ws[i])
  }

  /** What each free place contributes to the denominator: its weight, or 1 each when the free
      weights sum to nothing. */
  function Shares(ws: seq<real>, b: Bounds): (r: seq<real>)
    ensures |r| == |ws|
  {
    if Sum(FreePart(ws, b)) <= 0.0 then FreeOnes(ws, b) else FreePart(ws, b)
  }

  /** A round with somebody free to receive the remainder. */
  function Rebalance(ws: seq<real>, b: Bounds): (r: seq<real>)
    requires HasFree(ws, b)
    ensures |r| == |ws|
  {
    FreeCountPositive(ws, b);
    Redistribute(ws, Shares(ws, b), 1.0, b)
  }

  /** The loop: stop when nobody is out of bounds, when nobody is free, or after `rounds`. */
  function Iterate(ws: seq<real>, b: Bounds, rounds: nat): (r: seq<real>)
    ensures |r| == |ws|
    decreases rounds
  {
    if rounds == 0 || InBounds(ws, b) then ws
    else if !HasFree(ws, b) then ClampAll(ws, b)
    else Iterate(Rebalance(ws, b), b, rounds - 1)
  }

  function Clipped(ws: seq<real>, b: Bounds): (r: seq<real>)
    ensures |r| == |ws|
  {
    seq(|ws|, i requires 0 <= i < |ws| => Min(Max(ws[i], b.lo), b.hi))
  }

  function Divided(ws: seq<real>, total: real): (r: seq<real>)
    requires total != 0.0
    ensures |r| == |ws|
  {
    seq(|ws|, i requires 0 <= i < |ws| => ws[i] / total)
  }

  lemma DividedSum(ws: seq<real>, total: real)
    requires total != 0.0
    ensures Sum(Divided(ws, total)) == Sum(ws) / total
  {
    SumScaled(ws, Divided(ws, total), 1.0 / total);
  }

  // ---------- one round ----------

  lemma RoundKeepsSum(ws: seq<real>, b: Bounds)
    requires HasFree(ws, b)
    ensures Sum(Rebalance(ws, b)) == 1.0
  {
    FreeCountPositive(ws, b);
    RedistributeMeetsTotal(ws, Shares(ws, b), 1.0, b);
  }

  lemma SplitSum(ws: seq<real>, b: Bounds)
    ensures Sum(ws) == Sum(Kept(ws, b)) + Sum(FreePart(ws, b))
  {
    SumAdd(Kept(ws, b), FreePart(ws, b), ws);
  }

  /** The values at the fixed places before clamping. */
  function Kept(ws: seq<real>, b: Bounds): (r: seq<real>)
    ensures |r| == |ws|
  {
    seq(|ws|, i requires 0 <= i < |ws| => if Fixed(ws[i], b) then ws[i] else 0.0)
  }

  /** When the violators are all over the upper bound, clamping frees weight for the others. */
  lemma OversFreeWeight(ws: seq<real>, b: Bounds, at: nat)
    requires Sum(ws) == 1.0 && at < |ws| && Over(ws[at], b)
    requires forall i :: 0 <= i < |ws| ==> !Under(ws[i], b)
    ensures Remainder(ws, 1.0, b) > Sum(FreePart(ws, b))
  {
    SplitSum(ws, b);
    SumLt(FixedPart(ws, b), Kept(ws, b), at);
  }

  /** When they are all under the lower bound, clamping takes weight from the others. */
  lemma UndersTakeWeight(ws: seq<real>, b: Bounds, at: nat)
    requires Sum(ws) == 1.0 && at < |ws| && Under(ws[at], b)
    requires forall i :: 0 <= i < |ws| ==> !Over(ws[i], b)
    ensures Remainder(ws, 1.0, b) < Sum(FreePart(ws, b))
  {
    SplitSum(ws, b);
    SumLt(Kept(ws, b), FixedPart(ws, b), at);
  }

  lemma PartNonNegative(ws: seq<real>, b: Bounds, at: nat)
    requires forall i :: 0 <= i < |ws| ==> 0.0 <= ws[i]
    requires at < |ws| && !Fixed(ws[at], b)
    ensures Sum(FreePart(ws, b)) >= ws[at]
  {
    var only := seq(|ws|, i => if i == at then ws[at] else 0.0);
    SumLe(only, FreePart(ws, b));
    OnePart(only, at, ws[at]);
  }

  lemma ScaledUp(r: real, f: real, w: real)
    requires r > f > 0.0 && 0.0 <= w
    ensures w <= r / f * w && (0.0 < w ==> w < r / f * w)
  {
    DivLe(r, 1.0, f);
    var scale := r / f;
    assert scale * w - w == (scale - 1.0) * w;
  }

  lemma ScaledDown(r: real, f: real, w: real)
    requires 0.0 <= r < f && 0.0 <= w
    ensures 0.0 <= r / f * w <= w && (0.0 < w ==> r / f * w < w)
  {
    DivLe(r, 1.0, f);
    DivLe(r, 0.0, f);
    var scale := r / f;
    assert w - scale * w == (1.0 - scale) * w;
  }

  /** A round raises the free weights when the remainder exceeds them, and lowers them, down to
      no less than zero, when it falls short. */
  lemma FreeScaled(ws: seq<real>, b: Bounds, at: nat)
    requires at < |ws| && !Fixed(ws[at], b) && 0.0 <= ws[at] && Sum(FreePart(ws, b)) > 0.0
    ensures var next := Rebalance(ws, b)[at];
      && (Remainder(ws, 1.0, b) > Sum(FreePart(ws, b)) ==> ws[at] <= next && (0.0 < ws[at] ==> ws[at] < next))
      && (0.0 <= Remainder(ws, 1.0, b) < Sum(FreePart(ws, b)) ==>
            0.0 <= next <= ws[at] && (0.0 < ws[at] ==> next < ws[at]))
  {
    hide Sum;
    var r, f, w := Remainder(ws, 1.0, b), Sum(FreePart(ws, b)), ws[at];
    FreeIsScaled(ws, b, at);
    hide *;
    if r > f {
      ScaledUp(r, f, w);
    } else if 0.0 <= r < f {
      ScaledDown(r, f, w);
    }
  }

  lemma FreeIsScaled(ws: seq<real>, b: Bounds, at: nat)
    requires at < |ws| && !Fixed(ws[at], b) && Sum(FreePart(ws, b)) > 0.0
    ensures Rebalance(ws, b)[at] == Remainder(ws, 1.0, b) / Sum(FreePart(ws, b)) * ws[at]
  {
    hide Sum, Remainder;
  }

  /** Someone is over the upper bound, someone else sits exactly on it, nobody is under. */
  ghost predicate Overshooting(ws: seq<real>, b: Bounds) {
    && Sum(ws) == 1.0
    && (forall i :: 0 <= i < |ws| ==> b.lo <= ws[i])
    && (exists i :: 0 <= i < |ws| && Over(ws[i], b))
    && (exists j :: 0 <= j < |ws| && ws[j] == b.hi)
  }

  /** Someone is under the lower bound, someone else sits exactly on it, nobody is over. */
  ghost predicate Undershooting(ws: seq<real>, b: Bounds) {
    && Sum(ws) == 1.0
    && LowFits(|ws|, b)
    && (forall i :: 0 <= i < |ws| ==> 0.0 <= ws[i] <= b.hi)
    && (exists i :: 0 <= i < |ws| && Under(ws[i], b))
    && (exists j :: 0 <= j < |ws| && ws[j] == b.lo)
  }

  /** A name clamped in one round is free in the next, and is pushed out again. */
  lemma OvershootingRepeats(ws: seq<real>, b: Bounds)
    requires 0.0 <= b.lo <= b.hi && 0.0 < b.hi && Overshooting(ws, b)
    ensures HasFree(ws, b) && Overshooting(Rebalance(ws, b), b)
  {
    hide Shares, Remainder, FreePart, Sum;
    var i :| 0 <= i < |ws| && Over(ws[i], b);
    var j :| 0 <= j < |ws| && ws[j] == b.hi;
    assert !Fixed(ws[j], b);
    OversFreeWeight(ws, b, i);
    PartNonNegative(ws, b, j);
    RoundKeepsSum(ws, b);
    var next := Rebalance(ws, b);
    assert next[i] == b.hi;
    FreeScaled(ws, b, j);
    assert Over(next[j], b);
    forall k | 0 <= k < |ws| ensures b.lo <= next[k] {
      if !Fixed(ws[k], b) {
        FreeScaled(ws, b, k);
      }
    }
  }

  lemma UndershootingRepeats(ws: seq<real>, b: Bounds)
    requires 0.0 < b.lo <= b.hi && Undershooting(ws, b)
    ensures HasFree(ws, b) && Undershooting(Rebalance(ws, b), b)
  {
    hide Shares, Remainder, FreePart, Sum;
    var i :| 0 <= i < |ws| && Under(ws[i], b);
    var j :| 0 <= j < |ws| && ws[j] == b.lo;
    assert !Fixed(ws[j], b);
    RemainderFeasible(ws, b);
    UndersTakeWeight(ws, b, i);
    PartNonNegative(ws, b, j);
    RoundKeepsSum(ws, b);
    var next := Rebalance(ws, b);
    assert next[i] == b.lo;
    FreeScaled(ws, b, j);
    assert Under(next[j], b);
    forall k | 0 <= k < |ws| ensures 0.0 <= next[k] <= b.hi {
      if !Fixed(ws[k], b) {
        FreeScaled(ws, b, k);
      }
    }
  }

  /** With nobody over and n * lo <= 1 the clamped unders leave a non-negative remainder. */
  lemma RemainderFeasible(ws: seq<real>, b: Bounds)
    requires 0.0 <= b.lo && LowFits(|ws|, b)
    requires forall i :: 0 <= i < |ws| ==> !Over(ws[i], b)
    ensures Remainder(ws, 1.0, b) >= 0.0
  {
    SumBetween(FixedPart(ws, b), 0.0, b.lo);
  }

  lemma {:induction false} NeverInBounds(ws: seq<real>, b: Bounds, rounds: nat)
    requires b.Valid() && 0.0 < b.hi
    requires Overshooting(ws, b) || (0.0 < b.lo && Undershooting(ws, b))
    ensures Sum(Iterate(ws, b, rounds)) == 1.0 && !InBounds(Iterate(ws, b, rounds), b)
    decreases rounds
  {
    if Overshooting(ws, b) {
      OvershootingRepeats(ws, b);
    } else {
      UndershootingRepeats(ws, b);
    }
    if rounds > 0 {
      NeverInBounds(Rebalance(ws, b), b, rounds - 1);
    }
  }

  // ---------- the whole projection ----------

  function Even(n: nat): (r: seq<real>)
    ensures |r| == n
  {
    seq(n, i requires 0 <= i < n => 1.0 / n as real)
  }

  lemma EvenSum(n: nat)
    requires n > 0
    ensures Sum(Even(n)) == 1.0
  {
    SumConst(Even(n), 1.0 / n as real);
  }

  lemma DividedSumsToOne(ws: seq<real>)
    requires Sum(ws) > 0.0
    ensures Sum(Divided(ws, Sum(ws))) == 1.0
  {
    DividedSum(ws, Sum(ws));
    DivMul(1.0, Sum(ws));
    assert Sum(ws) / Sum(ws) == 1.0;
  }

  lemma {:induction false} IteratePositive(ws: seq<real>, b: Bounds, rounds: nat)
    requires 0.0 <= b.lo <= b.hi && 0.0 < b.hi && Sum(ws) == 1.0
    ensures Sum(Iterate(ws, b, rounds)) > 0.0
    decreases rounds
  {
    if rounds > 0 && !InBounds(ws, b) {
      if HasFree(ws, b) {
        RoundKeepsSum(ws, b);
        IteratePositive(Rebalance(ws, b), b, rounds - 1);
      } else {
        ClampedPositive(ws, b);
      }
    }
  }

  lemma ClippedTotal(ws: seq<real>, b: Bounds)
    requires 0.0 <= b.lo <= b.hi && Sum(Clipped(ws, b)) > 0.0
    ensures 0.0 < b.hi && Sum(Divided(Clipped(ws, b), Sum(Clipped(ws, b)))) == 1.0
  {
    SumBetween(Clipped(ws, b), b.lo, b.hi);
    DividedSumsToOne(Clipped(ws, b));
  }

  /** The clipped weights over their total: where the loop starts. */
  function Start(ws: seq<real>, b: Bounds): seq<real>
    requires Sum(Clipped(ws, b)) > 0.0
  {
    Divided(Clipped(ws, b), Sum(Clipped(ws, b)))
  }

  function Project(ws: seq<real>, b: Bounds): (r: seq<real>)
    requires b.Valid()
    ensures |r| == |ws|
  {
    if Sum(Clipped(ws, b)) <= 0.0 then Even(|ws|)
    else
      ClippedTotal(ws, b);
      var last := Iterate(Start(ws, b), b, ROUNDS);
      IteratePositive(Start(ws, b), b, ROUNDS);
      Divided(last, Sum(last))
  }

  /** The projected weights always sum to exactly one; the final divisor is never zero. */
  lemma ProjectSumsToOne(ws: seq<real>, b: Bounds)
    requires b.Valid() && |ws| > 0
    ensures Sum(Project(ws, b)) == 1.0
  {
    if Sum(Clipped(ws, b)) <= 0.0 {
      EvenSum(|ws|);
    } else {
      ClippedTotal(ws, b);
      IteratePositive(Start(ws, b), b, ROUNDS);
      DividedSumsToOne(Iterate(Start(ws, b), b, ROUNDS));
    }
  }

  lemma FeasibleIfInBounds(ws: seq<real>, b: Bounds)
    requires Sum(ws) == 1.0 && InBounds(ws, b)
    ensures LowFits(|ws|, b) && HighFits(|ws|, b)
  {
    SumBetween(ws, b.lo, b.hi);
  }

  /** One round at most brings the starting weights within bounds. */
  ghost predicate FirstRoundSuffices(ws: seq<real>, b: Bounds) {
    if Sum(Clipped(ws, b)) <= 0.0 then HighFits(|ws|, b)
    else
      var start := Start(ws, b);
      InBounds(start, b) || (HasFree(start, b) && InBounds(Rebalance(start, b), b))
  }

  /** Clipped weights totalling less than one are never pushed under by the division,
      clipped weights totalling more than one never over. */
  lemma StartIsOneSided(ws: seq<real>, b: Bounds)
    requires b.Valid() && Sum(Clipped(ws, b)) > 0.0
    ensures Sum(Clipped(ws, b)) <= 1.0 ==> forall i :: 0 <= i < |ws| ==> b.lo <= Start(ws, b)[i]
    ensures Sum(Clipped(ws, b)) >= 1.0 ==> forall i :: 0 <= i < |ws| ==> 0.0 <= Start(ws, b)[i] <= b.hi
  {
    var t := Sum(Clipped(ws, b));
    forall i | 0 <= i < |ws|
      ensures t <= 1.0 ==> b.lo <= Start(ws, b)[i]
      ensures t >= 1.0 ==> 0.0 <= Start(ws, b)[i] <= b.hi
    {
      var x := Clipped(ws, b)[i];
      DivLe(x, x, t);
      DivLe(x, 0.0, t);
      if t <= 1.0 {
        MulLe(t, 1.0, x);
      } else {
        MulLe(1.0, t, x);
      }
    }
  }

  /** A first round that still leaves somebody over is followed by overshooting only. */
  lemma FirstRoundOvershoots(ws: seq<real>, b: Bounds)
    requires 0.0 <= b.lo <= b.hi && 0.0 < b.hi && Sum(ws) == 1.0
    requires forall i :: 0 <= i < |ws| ==> b.lo <= ws[i]
    requires !InBounds(ws, b) && HasFree(ws, b) && !InBounds(Rebalance(ws, b), b)
    ensures Overshooting(Rebalance(ws, b), b)
  {
    hide Shares, Remainder, FreePart, Sum;
    var i :| 0 <= i < |ws| && Fixed(ws[i], b);
    OversFreeWeight(ws, b, i);
    RoundKeepsSum(ws, b);
    var next := Rebalance(ws, b);
    assert next[i] == b.hi;
    forall k | 0 <= k < |ws| ensures b.lo <= next[k] {
      if !Fixed(ws[k], b) {
        PartNonNegative(ws, b, k);
        if Sum(FreePart(ws, b)) > 0.0 {
          FreeScaled(ws, b, k);
        } else {
          EvenShareNonNegative(ws, b, k);
        }
      }
    }
  }

  /** When the free weights are all zero, each gets an even part of a positive remainder. */
  lemma EvenShareNonNegative(ws: seq<real>, b: Bounds, at: nat)
    requires at < |ws| && !Fixed(ws[at], b)
    requires Sum(FreePart(ws, b)) <= 0.0 && ws[at] <= 0.0 && Remainder(ws, 1.0, b) > Sum(FreePart(ws, b)) >= 0.0
    ensures Rebalance(ws, b)[at] >= ws[at]
  {
    FreeCountPositive(ws, b);
    DivLe(Remainder(ws, 1.0, b), 0.0, Sum(FreeOnes(ws, b)));
  }

  lemma FirstRoundUndershoots(ws: seq<real>, b: Bounds)
    requires 0.0 <= b.lo <= b.hi && Sum(ws) == 1.0 && LowFits(|ws|, b)
    requires forall i :: 0 <= i < |ws| ==> 0.0 <= ws[i] <= b.hi
    requires !InBounds(ws, b) && HasFree(ws, b) && !InBounds(Rebalance(ws, b), b)
    ensures 0.0 < b.lo && Undershooting(Rebalance(ws, b), b)
  {
    hide Shares, Remainder, FreePart, Sum;
    var i :| 0 <= i < |ws| && Fixed(ws[i], b);
    RemainderFeasible(ws, b);
    UndersTakeWeight(ws, b, i);
    RoundKeepsSum(ws, b);
    var next := Rebalance(ws, b);
    assert next[i] == b.lo;
    forall k | 0 <= k < |ws| ensures 0.0 <= next[k] <= b.hi {
      if !Fixed(ws[k], b) {
        FreeScaled(ws, b, k);
      }
    }
  }

  lemma DividedByOne(ws: seq<real>)
    ensures Divided(ws, 1.0) == ws
  {
  }

  /** When everybody is clamped in the first round the bounds are infeasible. */
  lemma AllClampedInfeasible(ws: seq<real>, b: Bounds)
    requires b.lo <= b.hi && Sum(ws) == 1.0 && !InBounds(ws, b) && !HasFree(ws, b)
    requires (forall i :: 0 <= i < |ws| ==> b.lo <= ws[i]) || (forall i :: 0 <= i < |ws| ==> ws[i] <= b.hi)
    ensures !LowFits(|ws|, b) || !HighFits(|ws|, b)
  {
    hide Sum;
    var at :| 0 <= at < |ws| && Fixed(ws[at], b);
    var clamped := ClampAll(ws, b);
    assert forall i :: 0 <= i < |ws| ==> Fixed(ws[i], b);
    if forall i :: 0 <= i < |ws| ==> b.lo <= ws[i] {
      SumConst(clamped, b.hi);
      SumLt(clamped, ws, at);
    } else {
      SumConst(clamped, b.lo);
      SumLt(ws, clamped, at);
    }
  }

  /** Away from the equal-weights exit the projection is the loop's result when that sums to one. */
  lemma ProjectIsIterate(ws: seq<real>, b: Bounds)
    requires b.Valid() && Sum(Clipped(ws, b)) > 0.0
    requires Sum(Iterate(Start(ws, b), b, ROUNDS)) == 1.0
    ensures Project(ws, b) == Iterate(Start(ws, b), b, ROUNDS)
  {
    hide Sum, Clipped, Iterate;
    DividedByOne(Iterate(Start(ws, b), b, ROUNDS));
  }

  /** The result respects the bounds if and only if one round brings the starting weights
      within them: none of the seven further rounds ever repairs what the first left over. */
  lemma BoundsExactlyAfterOneRound(ws: seq<real>, b: Bounds)
    requires b.Valid() && |ws| > 0
    ensures InBounds(Project(ws, b), b) <==> FirstRoundSuffices(ws, b)
  {
    hide Sum, Clipped, Rebalance, InBounds, HasFree;
    if Sum(Clipped(ws, b)) <= 0.0 {
      EvenInBounds(ws, b);
    } else {
      var start := Start(ws, b);
      ClippedTotal(ws, b);
      if InBounds(start, b) {
        assert Iterate(start, b, ROUNDS) == start;
        ProjectIsIterate(ws, b);
      } else if !HasFree(start, b) {
        StartIsOneSided(ws, b);
        StartLength(ws, b);
        AllClampedInfeasible(start, b);
        OutIfInfeasible(ws, b);
      } else {
        AfterFirstRound(ws, b);
      }
    }
  }

  lemma OutIfInfeasible(ws: seq<real>, b: Bounds)
    requires b.Valid() && |ws| > 0
    requires !LowFits(|ws|, b) || !HighFits(|ws|, b)
    ensures !InBounds(Project(ws, b), b)
  {
    hide Sum, InBounds;
    ProjectSumsToOne(ws, b);
    if InBounds(Project(ws, b), b) {
      FeasibleIfInBounds(Project(ws, b), b);
    }
  }

  lemma AfterFirstRound(ws: seq<real>, b: Bounds)
    requires b.Valid() && |ws| > 0 && Sum(Clipped(ws, b)) > 0.0
    requires !InBounds(Start(ws, b), b) && HasFree(Start(ws, b), b)
    ensures InBounds(Project(ws, b), b) <==> InBounds(Rebalance(Start(ws, b), b), b)
  {
    hide Sum, Clipped, Rebalance, InBounds, HasFree, Start, Project, Overshooting, Undershooting;
    var start := Start(ws, b);
    var next := Rebalance(start, b);
    ClippedTotal(ws, b);
    StartIsOneSided(ws, b);
    StartLength(ws, b);
    RoundKeepsSum(start, b);
    assert Iterate(start, b, ROUNDS) == Iterate(next, b, ROUNDS - 1);
    if InBounds(next, b) {
      assert Iterate(next, b, ROUNDS - 1) == next;
      ProjectIsIterate(ws, b);
    } else if Sum(Clipped(ws, b)) <= 1.0 {
      FirstRoundOvershoots(start, b);
      NeverInBounds(next, b, ROUNDS - 1);
      ProjectIsIterate(ws, b);
    } else if LowFits(|ws|, b) {
      FirstRoundUndershoots(start, b);
      NeverInBounds(next, b, ROUNDS - 1);
      ProjectIsIterate(ws, b);
    } else {
      OutIfInfeasible(ws, b);
    }
  }

  lemma StartLength(ws: seq<real>, b: Bounds)
    requires b.Valid() && Sum(Clipped(ws, b)) > 0.0
    ensures |Start(ws, b)| == |ws|
    ensures Sum(Start(ws, b)) == 1.0 && 0.0 < b.hi
  {
    ClippedTotal(ws, b);
  }

  /** Everybody clipped to zero: equal weights, which the lower bound cannot exceed. */
  lemma EvenInBounds(ws: seq<real>, b: Bounds)
    requires b.Valid() && |ws| > 0 && Sum(Clipped(ws, b)) <= 0.0
    ensures InBounds(Even(|ws|), b) <==> HighFits(|ws|, b)
  {
    SumBetween(Clipped(ws, b), b.lo, b.hi);
    MulLe(0.0, b.lo, |ws| as real);
    assert b.lo <= 0.0;
    DivLe(1.0, b.hi, |ws| as real);
    DivLe(1.0, 0.0, |ws| as real);
    assert Even(|ws|)[0] == 1.0 / |ws| as real;
  }

  /** Three weights, feasible bounds [0, 0.4]: the second weight ends above the upper bound. */
  lemma BoundCanFail() returns (ws: seq<real>, b: Bounds)
    ensures b.Valid() && LowFits(|ws|, b) && HighFits(|ws|, b)
    ensures !InBounds(Project(ws, b), b)
  {
    ws, b := [0.4, 0.08, 0.02], Bounds(0.0, 0.4);
    assert Clipped(ws, b) == ws;
    SumOfThree(ws);
    var start := Start(ws, b);
    assert start == [0.8, 0.16, 0.04];
    assert !Fixed(start[1], b);
    assert FixedPart(start, b) == [0.4, 0.0, 0.0];
    assert FreePart(start, b) == [0.0, 0.16, 0.04];
    SumOfThree(FixedPart(start, b));
    SumOfThree(FreePart(start, b));
    assert Rebalance(start, b)[1] == 0.48;
    BoundsExactlyAfterOneRound(ws, b);
  }

  // ---------- the code ----------

  /** One pass of the loop body: clamp in place, then spread the remainder over the free places.
      `spread` is false when nobody is free, which ends the loop. */
  method Round(normalized: seq<real>, b: Bounds) returns (next: seq<real>, spread: bool)
    ensures spread == HasFree(normalized, b)
    ensures next == if spread then Rebalance(normalized, b) else ClampAll(normalized, b)
  {
    hide Sum;
    next := normalized;
    for idx := 0 to |normalized|
      invariant |next| == |normalized|
      invariant forall i :: 0 <= i < |next| ==> next[i] == if i < idx then Clamp(normalized[i], b) else normalized[i]
    {
      next := next[idx := Clamp(normalized[idx], b)];
    }
    spread := HasFree(normalized, b);
    if spread {
      FreeCountPositive(normalized, b);
      var remainder, freeTotal := Remainder(normalized, 1.0, b), Sum(FreePart(normalized, b));
      for idx := 0 to |normalized|
        invariant |next| == |normalized|
        invariant forall i :: 0 <= i < idx ==> next[i] == Rebalance(normalized, b)[i]
        invariant forall i :: idx <= i < |next| ==> next[i] == Clamp(normalized[i], b)
      {
        if !Fixed(normalized[idx], b) {
          next := next[idx := if freeTotal <= 0.0 then remainder / Sum(FreeOnes(normalized, b))
                              else next[idx] * (remainder / freeTotal)];
        }
      }
    }
  }

  method ProjectWeights(weights: seq<real>, b: Bounds) returns (r: seq<real>)
    requires b.Valid()
    ensures r == Project(weights, b)
  {
    hide Sum, InBounds, HasFree, Rebalance;
    var clipped := Clipped(weights, b);
    var total := Sum(clipped);
    if total <= 0.0 {
      return Even(|weights|);
    }
    var normalized := Divided(clipped, total);
    ghost var start := normalized;
    ClippedTotal(weights, b);
    IteratePositive(start, b, ROUNDS);
    var round, again := 0, true;
    while round < ROUNDS && again && !InBounds(normalized, b)
      invariant 0 <= round <= ROUNDS && |normalized| == |weights|
      invariant Iterate(start, b, ROUNDS) == if again then Iterate(normalized, b, ROUNDS - round) else normalized
    {
      normalized, again := Round(normalized, b);
      round := round + 1;
    }
    var last := Sum(normalized);
    r := Divided(normalized, last);
  }
}
