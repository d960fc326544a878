/** Weight vectors under per-weight bounds: who violates them, clamping, and the step both weight
    projections repeat - clamp the violators, spread what remains over the others. */
module WeightBounds {
  import opened RealMath

  /** Per-weight bounds, as both configurations restrict them. */
  datatype Bounds = Bounds(lo: real, hi: real) {
    predicate Valid() {
      0.0 <= lo <= hi <= 1.0
    }
  }

  /** n weights at the lower bound do not exceed one. */
  predicate LowFits(n: nat, b: Bounds) {
    n as real * b.lo <= 1.0
  }

  /** n weights at the upper bound reach one. */
  predicate HighFits(n: nat, b: Bounds) {
    1.0 <= n as real * b.hi
  }

  predicate Over(w: real, b: Bounds) {
    w > b.hi
  }

  predicate Under(w: real, b: Bounds) {
    w < b.lo
  }

  predicate Fixed(w: real, b: Bounds) {
    Over(w, b) || Under(w, b)
  }

  /** Nobody is over or under: the loop's break test, and the property wanted of the result. */
  predicate InBounds(ws: seq<real>, b: Bounds) {
    forall i :: 0 <= i < |ws| ==> !Fixed(ws[i], b)
  }

  predicate HasFree(ws: seq<real>, b: Bounds) {
    exists i :: 0 <= i < |ws| && !Fixed(ws[i], b)
  }

  function Clamp(w: real, b: Bounds): real {
    if Over(w, b) then b.hi else if Under(w, b) then b.lo else w
  }

  function ClampAll(ws: seq<real>, b: Bounds): (r: seq<real>)
    ensures |r| == |ws|
  {
    seq(|ws|, i requires 0 <= i < |ws| => Clamp(ws[i], b))
  }

  /** The clamped values at the fixed places, zero elsewhere. */
  function FixedPart(ws: seq<real>, b: Bounds): (r: seq<real>)
    ensures |r| == |ws|
  {
    seq(|ws|, i requires 0 <= i < |ws| => if Fixed(ws[i], b) then Clamp(ws[i], b) else 0.0)
  }

  /** One at each free place. */
  function FreeOnes(ws: seq<real>, b: Bounds): (r: seq<real>)
    ensures |r| == |ws|
  {
    seq(|ws|, i requires 0 <= i < |ws| => if Fixed(ws[i], b) then 0.0 else 1.0)
  }

  lemma {:induction false} FreeCountPositive(ws: seq<real>, b: Bounds)
    ensures HasFree(ws, b) ==> Sum(FreeOnes(ws, b)) >= 1.0
    ensures 0.0 <= Sum(FreeOnes(ws, b))
  {
    var n := |ws| - 1;
    if n >= 0 {
      FreeCountPositive(ws[..n], b);
      assert FreeOnes(ws, b)[..n] == FreeOnes(ws[..n], b);
      if HasFree(ws, b) && Fixed(ws[n], b) {
        var i :| 0 <= i < |ws| && !Fixed(ws[i], b);
        assert !Fixed(ws[..n][i], b);
      }
    }
  }

  /** Clamp the fixed places and give each free place its part of the rest of `total`, in
      proportion to `shares`. */
  function Redistribute(ws: seq<real>, shares: seq<real>, total: real, b: Bounds): (r: seq<real>)
    requires |shares| == |ws| && Sum(shares) != 0.0
    ensures |r| == |ws|
  {
    seq(|ws|, i requires 0 <= i < |ws| =>
      if Fixed(ws[i], b) then Clamp(ws[i], b) else Remainder(ws, total, b) / Sum(shares) * shares[i])
  }

  /** What is left of `total` once the fixed places are clamped. */
  function Remainder(ws: seq<real>, total: real, b: Bounds): real {
    total - Sum(FixedPart(ws, b))
  }

  /** Shares sit at free places only. */
  ghost predicate SharesOfFree(shares: seq<real>, ws: seq<real>, b: Bounds) {
    |shares| == |ws| && forall i :: 0 <= i < |ws| && Fixed(ws[i], b) ==> shares[i] == 0.0
  }

  /** Redistribution meets the total exactly, whatever the shares. */
  lemma RedistributeMeetsTotal(ws: seq<real>, shares: seq<real>, total: real, b: Bounds)
    requires SharesOfFree(shares, ws, b) && Sum(shares) != 0.0
    ensures Sum(Redistribute(ws, shares, total, b)) == total
  {
    hide Sum;
    var scale := Remainder(ws, total, b) / Sum(shares);
    var spread := seq(|ws|, i requires 0 <= i < |ws| => scale * shares[i]);
    SumScaled(shares, spread, scale);
    forall i | 0 <= i < |ws|
      ensures Redistribute(ws, shares, total, b)[i] == FixedPart(ws, b)[i] + spread[i]
    {
      if Fixed(ws[i], b) {
        assert shares[i] == 0.0;
      }
    }
    SumAdd(FixedPart(ws, b), spread, Redistribute(ws, shares, total, b));
    DivMul(Remainder(ws, total, b), Sum(shares));
  }

  lemma {:induction false} OnePart(xs: seq<real>, at: nat, x: real)
    requires at < |xs|
    requires forall i :: 0 <= i < |xs| ==> xs[i] == if i == at then x else 0.0
    ensures Sum(xs) == x
  {
    var n := |xs| - 1;
    if at == n {
      SumConst(xs[..n], 0.0);
    } else {
      OnePart(xs[..n], at, x);
    }
  }

  /** Clamping everybody leaves a positive total, so the final division is safe. */
  lemma ClampedPositive(ws: seq<real>, b: Bounds)
    requires 0.0 <= b.lo <= b.hi && 0.0 < b.hi
    requires Sum(ws) > 0.0 && !InBounds(ws, b) && !HasFree(ws, b)
    ensures Sum(ClampAll(ws, b)) > 0.0
  {
    var zeros := seq(|ws|, i => 0.0);
    SumConst(zeros, 0.0);
    if i :| 0 <= i < |ws| && Over(ws[i], b) {
      SumLt(zeros, ClampAll(ws, b), i);
    } else {
      var i :| 0 <= i < |ws| && Fixed(ws[i], b);
      SumLt(ws, ClampAll(ws, b), i);
    }
  }

  lemma SumOfThree(xs: seq<real>)
    requires |xs| == 3
    ensures Sum(xs) == xs[0] + xs[1] + xs[2]
  {
    assert xs == [] + [xs[0]] + [xs[1]] + [xs[2]];
    SumSnoc([], xs[0]);
    SumSnoc([xs[0]], xs[1]);
    SumSnoc([xs[0], xs[1]], xs[2]);
  }
}
