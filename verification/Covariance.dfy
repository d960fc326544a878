/** The covariance matrix and the quadratic form of portfolio/optimizer.py, and its gradient loop. */
module Covariance {
  import opened RealMath
  import W = OptimizerWeights
  import WeightBounds
  import opened Values

  type Matrix = seq<seq<real>>

  predicate Rectangular(m: Matrix) {
    |m| > 0 && |m[0]| > 0 && forall i :: 0 <= i < |m| ==> |m[i]| == |m[0]|
  }

  function Length(m: Matrix): nat
    requires |m| > 0
  {
    |m[0]|
  }

  /** Deviation of observation k of strategy i from its mean; zero outside the matrix. */
  function Dev(m: Matrix, i: int, k: int): real {
    if 0 <= i < |m| && 0 <= k < |m[i]| then m[i][k] - Mean(m[i]) else 0.0
  }

  function Denominator(m: Matrix): (d: real)
    requires |m| > 0
    ensures d >= 1.0
  {
    if Length(m) <= 2 then 1.0 else (Length(m) - 1) as real
  }

  function Product(m: Matrix, i: int, j: int): int -> real {
    k => Dev(m, i, k) * Dev(m, j, k)
  }

  /** Sample covariance of strategies i and j. */
  ghost function Cov(m: Matrix, i: int, j: int): real
    requires |m| > 0
  {
    SumTo(Length(m), Product(m, i, j)) / Denominator(m)
  }

  function Weight(w: seq<real>, i: int): real {
    if 0 <= i < |w| then w[i] else 0.0
  }

  function Entry(cov: Matrix, i: int, j: int): real {
    if 0 <= i < |cov| && 0 <= j < |cov[i]| then cov[i][j] else 0.0
  }

  function RowTerm(w: seq<real>, cov: Matrix, i: int): int -> real {
    j => Entry(cov, i, j) * Weight(w, j)
  }

  ghost function QuadraticTerm(w: seq<real>, cov: Matrix): int -> real {
    i => Weight(w, i) * SumTo(|w|, RowTerm(w, cov, i))
  }

  /** w' * cov * w, as `_quadratic` nests its two sums. */
  ghost function Quadratic(w: seq<real>, cov: Matrix): real {
    SumTo(|w|, QuadraticTerm(w, cov))
  }

  ghost predicate IsCovarianceOf(cov: Matrix, m: Matrix) {
    && |m| > 0
    && |cov| == |m|
    && (forall i :: 0 <= i < |cov| ==> |cov[i]| == |m|)
    && forall i, j :: 0 <= i < |m| && 0 <= j < |m| ==> cov[i][j] == Cov(m, i, j)
  }

  method CovarianceMatrix(m: Matrix) returns (cov: Matrix)
    requires Rectangular(m)
    ensures IsCovarianceOf(cov, m)
  {
    cov := [];
    for i := 0 to |m|
      invariant |cov| == i && forall a :: 0 <= a < i ==> |cov[a]| == |m|
      invariant forall a, c :: 0 <= a < i && 0 <= c < |m| ==> cov[a][c] == Cov(m, a, c)
    {
      var row: seq<real> := [];
      for j := 0 to |m|
        invariant |row| == j && forall c :: 0 <= c < j ==> row[c] == Cov(m, i, c)
      {
        var accum := 0.0;
        for k := 0 to |m[0]|
          invariant accum == SumTo(k, Product(m, i, j))
        {
          accum := accum + (m[i][k] - Mean(m[i])) * (m[j][k] - Mean(m[j]));
        }
        row := row + [accum / Denominator(m)];
      }
      cov := cov + [row];
    }
  }

  lemma CovarianceSymmetric(m: Matrix, i: int, j: int)
    requires |m| > 0
    ensures Cov(m, i, j) == Cov(m, j, i)
  {
    SumToEqual(Length(m), Product(m, i, j), Product(m, j, i));
  }

  // ---------- the double sum ----------

  function Cell(a: int -> real, f: (int, int) -> real, c: int -> real): (int, int) -> real {
    (i, k) => a(i) * f(i, k) * c(k)
  }

  function Times(f: int -> real, g: int -> real): int -> real {
    i => f(i) * g(i)
  }

  ghost function RowWeighted(m: nat, f: (int, int) -> real, c: int -> real): int -> real {
    i => SumTo(m, Times(Row(f, i), c))
  }

  ghost function ColumnWeighted(n: nat, f: (int, int) -> real, a: int -> real): int -> real {
    k => SumTo(n, Times(a, Column(f, k)))
  }

  lemma {:induction false} SumToScaled(n: nat, f: int -> real, g: int -> real, a: real)
    requires forall i :: 0 <= i < n ==> g(i) == a * f(i)
    ensures SumTo(n, g) == a * SumTo(n, f)
  {
    if n > 0 {
      SumToScaled(n - 1, f, g, a);
      assert a * (SumTo(n - 1, f) + f(n - 1)) == a * SumTo(n - 1, f) + a * f(n - 1);
    }
  }

  /** Sum_i a_i Sum_k f_ik c_k == Sum_k c_k Sum_i a_i f_ik. */
  lemma Exchange(n: nat, m: nat, a: int -> real, f: (int, int) -> real, c: int -> real)
    ensures SumTo(n, Times(a, RowWeighted(m, f, c))) == SumTo(m, Times(c, ColumnWeighted(n, f, a)))
  {
    hide SumTo;
    var cell := Cell(a, f, c);
    forall i ensures SumTo(m, Row(cell, i)) == a(i) * RowWeighted(m, f, c)(i) {
      SumToScaled(m, Times(Row(f, i), c), Row(cell, i), a(i));
    }
    forall k ensures SumTo(n, Column(cell, k)) == c(k) * ColumnWeighted(n, f, a)(k) {
      SumToScaled(n, Times(a, Column(f, k)), Column(cell, k), c(k));
    }
    SumToExchange(n, m, cell);
    SumToEqual(n, RowSums(m, cell), Times(a, RowWeighted(m, f, c)));
    SumToEqual(m, ColumnSums(n, cell), Times(c, ColumnWeighted(n, f, a)));
  }

  // ---------- the quadratic form is a variance ----------

  function Weights(w: seq<real>): int -> real {
    i => Weight(w, i)
  }

  function Deviations(m: Matrix): (int, int) -> real {
    (i, k) => Dev(m, i, k)
  }

  /** Deviation of the portfolio's return at observation k: Sum_i w_i Dev(i, k). */
  ghost function PortfolioDev(w: seq<real>, m: Matrix): int -> real {
    ColumnWeighted(|w|, Deviations(m), Weights(w))
  }

  lemma EntryIsProducts(m: Matrix, cov: Matrix, i: int, j: int)
    requires IsCovarianceOf(cov, m) && 0 <= i < |m| && 0 <= j < |m|
    ensures Entry(cov, i, j) == RowWeighted(Length(m), Deviations(m), Row(Deviations(m), i))(j) / Denominator(m)
  {
    hide SumTo, Dev;
    SumToEqual(Length(m), Product(m, i, j), Times(Row(Deviations(m), j), Row(Deviations(m), i)));
  }

  /** (cov * w)_i == 1/d Sum_k Dev(i, k) PortfolioDev(k). */
  lemma CovTimesWeights(w: seq<real>, m: Matrix, cov: Matrix, i: int)
    requires IsCovarianceOf(cov, m) && |w| == |m| && 0 <= i < |m|
    ensures SumTo(|w|, RowTerm(w, cov, i)) ==
      RowWeighted(Length(m), Deviations(m), PortfolioDev(w, m))(i) / Denominator(m)
  {
    hide SumTo, Dev, IsCovarianceOf, Entry;
    var d, len := Denominator(m), Length(m);
    var dev := Deviations(m);
    var products := RowWeighted(len, dev, Row(dev, i));
    forall j | 0 <= j < |w| ensures RowTerm(w, cov, i)(j) == 1.0 / d * Times(Weights(w), products)(j) {
      EntryIsProducts(m, cov, i, j);
    }
    SumToScaled(|w|, Times(Weights(w), products), RowTerm(w, cov, i), 1.0 / d);
    Exchange(|w|, len, Weights(w), dev, Row(dev, i));
    SumToEqual(len, Times(Row(dev, i), ColumnWeighted(|w|, dev, Weights(w))), Times(Row(dev, i), PortfolioDev(w, m)));
  }

  function Square(f: int -> real): int -> real {
    k => f(k) * f(k)
  }

  /** Return of the portfolio w at observation k. */
  ghost function PortfolioReturn(w: seq<real>, m: Matrix): int -> real {
    k => SumTo(|w|, Times(Weights(w), Column(Observations(m), k)))
  }

  function Observations(m: Matrix): (int, int) -> real {
    (i, k) => Entry(m, i, k)
  }

  function Means(m: Matrix): int -> real {
    i => if 0 <= i < |m| && |m[i]| > 0 then Mean(m[i]) else 0.0
  }

  ghost function PortfolioMean(w: seq<real>, m: Matrix): real
    requires Rectangular(m)
  {
    SumTo(Length(m), PortfolioReturn(w, m)) / Length(m) as real
  }

  /** The sample variance of the portfolio's return series. */
  ghost function PortfolioVariance(w: seq<real>, m: Matrix): real
    requires Rectangular(m)
  {
    SumTo(Length(m),
          k => (PortfolioReturn(w, m)(k) - PortfolioMean(w, m)) * (PortfolioReturn(w, m)(k) - PortfolioMean(w, m)))
      / Denominator(m)
  }

  lemma QuadraticIsSquares(w: seq<real>, m: Matrix, cov: Matrix)
    requires IsCovarianceOf(cov, m) && |w| == |m|
    ensures Quadratic(w, cov) == SumTo(Length(m), Square(PortfolioDev(w, m))) / Denominator(m)
  {
    hide SumTo;
    var d, len := Denominator(m), Length(m);
    var dev, p := Deviations(m), PortfolioDev(w, m);
    var spread := Times(Weights(w), RowWeighted(len, dev, p));
    forall i | 0 <= i < |w| ensures QuadraticTerm(w, cov)(i) == 1.0 / d * spread(i) {
      CovTimesWeights(w, m, cov, i);
    }
    SumToScaled(|w|, spread, QuadraticTerm(w, cov), 1.0 / d);
    Exchange(|w|, len, Weights(w), dev, p);
    SumToEqual(len, Times(p, ColumnWeighted(|w|, dev, Weights(w))), Square(p));
  }

  lemma {:induction false} SquaresNonNegative(n: nat, f: int -> real)
    ensures SumTo(n, Square(f)) >= 0.0
  {
    if n > 0 {
      SquaresNonNegative(n - 1, f);
    }
  }

  lemma MeanIsWeighted(w: seq<real>, m: Matrix)
    requires Rectangular(m) && |w| == |m|
    ensures PortfolioMean(w, m) == SumTo(|w|, Times(Weights(w), Means(m)))
  {
    hide SumTo, Sum;
    var len, obs, ones := Length(m), Observations(m), (k: int) => 1.0;
    Exchange(|w|, len, Weights(w), obs, ones);
    SumToEqual(len, Times(ones, ColumnWeighted(|w|, obs, Weights(w))), PortfolioReturn(w, m));
    forall i | 0 <= i < |w|
      ensures Times(Weights(w), Means(m))(i) == 1.0 / len as real * Times(Weights(w), RowWeighted(len, obs, ones))(i)
    {
      SumIsSumTo(m[i], Times(Row(obs, i), ones));
    }
    SumToScaled(|w|, Times(Weights(w), RowWeighted(len, obs, ones)), Times(Weights(w), Means(m)), 1.0 / len as real);
  }

  lemma DevIsDeviation(w: seq<real>, m: Matrix, k: int)
    requires Rectangular(m) && |w| == |m| && 0 <= k < Length(m)
    ensures PortfolioDev(w, m)(k) == PortfolioReturn(w, m)(k) - PortfolioMean(w, m)
  {
    hide SumTo;
    MeanIsWeighted(w, m);
    var f, g := Times(Weights(w), Column(Observations(m), k)), Times(Weights(w), Means(m));
    SumToLinear(|w|, f, g, Times(Weights(w), Column(Deviations(m), k)), 1.0, -1.0);
  }

  /** `_quadratic` of the covariance matrix is the sample variance of the weighted portfolio,
      hence never negative: the guards max(portfolio_var, 0) and max(cov[i][i], 0) never bite. */
  lemma QuadraticIsVariance(w: seq<real>, m: Matrix, cov: Matrix)
    requires Rectangular(m) && IsCovarianceOf(cov, m) && |w| == |m|
    ensures Quadratic(w, cov) == PortfolioVariance(w, m)
    ensures Quadratic(w, cov) >= 0.0
    ensures forall i :: 0 <= i < |m| ==> cov[i][i] >= 0.0
  {
    hide SumTo;
    QuadraticIsSquares(w, m, cov);
    SquaresNonNegative(Length(m), PortfolioDev(w, m));
    forall k | 0 <= k < Length(m) ensures PortfolioDev(w, m)(k) == PortfolioReturn(w, m)(k) - PortfolioMean(w, m) {
      DevIsDeviation(w, m, k);
    }
    SumToEqual(Length(m), Square(PortfolioDev(w, m)),
               k =>
                 (PortfolioReturn(w, m)(k) - PortfolioMean(w, m)) * (PortfolioReturn(w, m)(k) - PortfolioMean(w, m)));
    forall i | 0 <= i < |m| ensures cov[i][i] >= 0.0 {
      SquaresNonNegative(Length(m), Row(Deviations(m), i));
      SumToEqual(Length(m), Product(m, i, i), Square(Row(Deviations(m), i)));
    }
    DivNonNegative(SumTo(Length(m), Square(PortfolioDev(w, m))), Denominator(m));
  }

  lemma DivNonNegative(x: real, y: real)
    requires x >= 0.0 && y > 0.0
    ensures x / y >= 0.0
  {
  }

  // ---------- the gradient loop ----------

  function Entries(cov: Matrix): (int, int) -> real {
    (i, j) => Entry(cov, i, j)
  }

  /** u' * cov * v. */
  ghost function Bilinear(n: nat, e: (int, int) -> real, u: int -> real, v: int -> real): real {
    SumTo(n, Times(u, RowWeighted(n, e, v)))
  }

  ghost predicate Symmetric(n: nat, e: (int, int) -> real) {
    forall i, j :: 0 <= i < n && 0 <= j < n ==> e(i, j) == e(j, i)
  }

  lemma BilinearSymmetric(n: nat, e: (int, int) -> real, u: int -> real, v: int -> real)
    requires Symmetric(n, e)
    ensures Bilinear(n, e, u, v) == Bilinear(n, e, v, u)
  {
    hide SumTo;
    Exchange(n, n, u, e, v);
    forall k | 0 <= k < n ensures ColumnWeighted(n, e, u)(k) == RowWeighted(n, e, u)(k) {
      SumToEqual(n, Times(u, Column(e, k)), Times(Row(e, k), u));
    }
    SumToEqual(n, Times(v, ColumnWeighted(n, e, u)), Times(v, RowWeighted(n, e, u)));
  }

  lemma BilinearAdds(n: nat, e: (int, int) -> real, u: int -> real, v: int -> real, h: int -> real, vh: int -> real)
    requires forall i :: 0 <= i < n ==> vh(i) == v(i) + h(i)
    ensures Bilinear(n, e, u, vh) == Bilinear(n, e, u, v) + Bilinear(n, e, u, h)
  {
    hide SumTo;
    forall i | 0 <= i < n ensures RowWeighted(n, e, vh)(i) == RowWeighted(n, e, v)(i) + RowWeighted(n, e, h)(i) {
      SumToLinear(n, Times(Row(e, i), v), Times(Row(e, i), h), Times(Row(e, i), vh), 1.0, 1.0);
    }
    SumToLinear(n, Times(u, RowWeighted(n, e, v)), Times(u, RowWeighted(n, e, h)), Times(u, RowWeighted(n, e, vh)),
      1.0, 1.0);
  }

  lemma QuadraticIsBilinear(w: seq<real>, cov: Matrix)
    ensures Quadratic(w, cov) == Bilinear(|w|, Entries(cov), Weights(w), Weights(w))
  {
    hide SumTo;
    forall i | 0 <= i < |w| ensures SumTo(|w|, RowTerm(w, cov, i)) == RowWeighted(|w|, Entries(cov), Weights(w))(i) {
      SumToEqual(|w|, RowTerm(w, cov, i), Times(Row(Entries(cov), i), Weights(w)));
    }
    SumToEqual(|w|, QuadraticTerm(w, cov), Times(Weights(w), RowWeighted(|w|, Entries(cov), Weights(w))));
  }

  /** `_objective_gradient`. */
  ghost function Gradient(w: seq<real>, means: int -> real, cov: Matrix, aversion: real): int -> real {
    i => means(i) - 2.0 * aversion * SumTo(|w|, RowTerm(w, cov, i))
  }

  /** Expected return minus risk aversion times variance: what the loop climbs. */
  ghost function Objective(w: seq<real>, means: int -> real, cov: Matrix, aversion: real): real {
    SumTo(|w|, Times(Weights(w), means)) - aversion * Quadratic(w, cov)
  }

  lemma QuadraticExpands(w: seq<real>, h: seq<real>, wh: seq<real>, cov: Matrix)
    requires |w| == |h| == |wh| && (forall i :: 0 <= i < |w| ==> wh[i] == w[i] + h[i])
    requires Symmetric(|w|, Entries(cov))
    ensures Quadratic(wh, cov) ==
      Quadratic(w, cov) + 2.0 * Bilinear(|w|, Entries(cov), Weights(h), Weights(w)) + Quadratic(h, cov)
  {
    hide SumTo, Bilinear;
    var n, e, u, v, s := |w|, Entries(cov), Weights(w), Weights(h), Weights(wh);
    QuadraticIsBilinear(w, cov);
    QuadraticIsBilinear(h, cov);
    QuadraticIsBilinear(wh, cov);
    BilinearAdds(n, e, s, u, v, s);
    BilinearSymmetric(n, e, s, u);
    BilinearSymmetric(n, e, s, v);
    BilinearAdds(n, e, u, u, v, s);
    BilinearAdds(n, e, v, u, v, s);
    BilinearSymmetric(n, e, u, v);
  }

  /** The gradient is the linear part of the objective: a move by h changes it by gradient . h,
      less the aversion-weighted variance of h. So no move gains more than gradient . h. */
  lemma GradientIsLinearPart(
      w: seq<real>, h: seq<real>, wh: seq<real>, means: int -> real, m: Matrix, cov: Matrix, aversion: real)
    requires |w| == |h| == |wh| && (forall i :: 0 <= i < |w| ==> wh[i] == w[i] + h[i])
    requires Rectangular(m) && IsCovarianceOf(cov, m) && |w| == |m|
    ensures Objective(wh, means, cov, aversion)
         == Objective(w, means, cov, aversion) + SumTo(|w|, Times(Weights(h), Gradient(w, means, cov, aversion)))
            - aversion * Quadratic(h, cov)
    ensures aversion >= 0.0 ==>
      Objective(wh, means, cov, aversion)
        <= Objective(w, means, cov, aversion) + SumTo(|w|, Times(Weights(h), Gradient(w, means, cov, aversion)))
  {
    hide SumTo, Quadratic;
    var n, e := |w|, Entries(cov);
    forall i, j | 0 <= i < n && 0 <= j < n ensures e(i, j) == e(j, i) {
      CovarianceSymmetric(m, i, j);
    }
    QuadraticExpands(w, h, wh, cov);
    SumToLinear(n, Times(Weights(w), means), Times(Weights(h), means), Times(Weights(wh), means), 1.0, 1.0);
    forall i | 0 <= i < n ensures SumTo(n, RowTerm(w, cov, i)) == RowWeighted(n, e, Weights(w))(i) {
      SumToEqual(n, RowTerm(w, cov, i), Times(Row(e, i), Weights(w)));
    }
    SumToLinear(n, Times(Weights(h), means), Times(Weights(h), RowWeighted(n, e, Weights(w))),
                Times(Weights(h), Gradient(w, means, cov, aversion)), 1.0, -2.0 * aversion);
    QuadraticIsVariance(h, m, cov);
    ScaleNonNegative(aversion, Quadratic(h, cov));
    Distribute(aversion, Quadratic(w, cov), Bilinear(n, e, Weights(h), Weights(w)), Quadratic(h, cov));
  }

  lemma ScaleNonNegative(a: real, x: real)
    requires x >= 0.0
    ensures a >= 0.0 ==> a * x >= 0.0
  {
  }

  // ---------- the steps of the loop ----------

  ghost function GradientSeq(w: seq<real>, m: Matrix, cov: Matrix, aversion: real): seq<real>
    requires Rectangular(m)
  {
    seq(|w|, i => Gradient(w, Means(m), cov, aversion)(i))
  }

  ghost function Scaled(xs: seq<real>, a: real): seq<real> {
    seq(|xs|, i requires 0 <= i < |xs| => a * xs[i])
  }

  /** The candidate of one loop round: a step along the gradient. */
  ghost function Stepped(w: seq<real>, m: Matrix, cov: Matrix, cfg: OptimizationConfig): seq<real>
    requires Rectangular(m)
  {
    var g := GradientSeq(w, m, cov, cfg.aversion);
    seq(|w|, i requires 0 <= i < |w| => w[i] + cfg.learningRate * g[i])
  }

  /** The weights after k rounds, from equal ones. */
  ghost function Ascend(m: Matrix, cov: Matrix, cfg: OptimizationConfig, k: nat): (w: seq<real>)
    requires Rectangular(m) && cfg.bounds.Valid()
    ensures |w| == |m|
  {
    if k == 0 then W.Even(|m|) else W.Project(Stepped(Ascend(m, cov, cfg, k - 1), m, cov, cfg), cfg.bounds)
  }

  lemma ScaleTerm(a: real, x: real, y: real)
    ensures (a * x) * y == a * (x * y) && (a * x) * (a * y) == (a * a) * (x * y)
  {
    assert (a * x) * (a * y) == a * (x * (a * y)) == a * (a * (x * y));
  }

  lemma QuadraticScaled(g: seq<real>, cov: Matrix, a: real)
    ensures Quadratic(Scaled(g, a), cov) == a * a * Quadratic(g, cov)
  {
    hide SumTo;
    var n, h := |g|, Scaled(g, a);
    forall i | 0 <= i < n ensures QuadraticTerm(h, cov)(i) == a * a * QuadraticTerm(g, cov)(i) {
      forall j | 0 <= j < n ensures RowTerm(h, cov, i)(j) == a * RowTerm(g, cov, i)(j) {
        ScaleTerm(a, Entry(cov, i, j), g[j]);
      }
      SumToScaled(n, RowTerm(g, cov, i), RowTerm(h, cov, i), a);
      ScaleTerm(a, g[i], SumTo(n, RowTerm(g, cov, i)));
    }
    SumToScaled(n, QuadraticTerm(g, cov), QuadraticTerm(h, cov), a * a);
  }

  ghost function SquaredNorm(g: seq<real>): real {
    SumTo(|g|, Times(Weights(g), Weights(g)))
  }

  lemma StepGain(rate: real, norm: real, aversion: real, q: real)
    requires rate > 0.0
    ensures rate * norm - aversion * (rate * rate * q) == rate * (norm - aversion * rate * q)
    ensures rate * (norm - aversion * rate * q) >= 0.0 <==> aversion * rate * q <= norm
  {
    var x := norm - aversion * rate * q;
    assert aversion * (rate * rate * q) == rate * (aversion * rate * q);
    if x < 0.0 {
      MulLt(x, 0.0, rate);
    } else {
      MulLe(0.0, x, rate);
    }
  }

  /** A round's step, before its projection, raises the objective exactly when the learning rate
      is small enough against the variance along the gradient. */
  lemma StepClimbsExactlyWhen(w: seq<real>, m: Matrix, cov: Matrix, cfg: OptimizationConfig)
    requires Rectangular(m) && IsCovarianceOf(cov, m) && |w| == |m| && cfg.learningRate > 0.0
    ensures var g, next := GradientSeq(w, m, cov, cfg.aversion), Stepped(w, m, cov, cfg);
      var gain := Objective(next, Means(m), cov, cfg.aversion) - Objective(w, Means(m), cov, cfg.aversion);
      && gain == cfg.learningRate * (SquaredNorm(g) - cfg.aversion * cfg.learningRate * Quadratic(g, cov))
      && (gain >= 0.0 <==> cfg.aversion * cfg.learningRate * Quadratic(g, cov) <= SquaredNorm(g))
  {
    hide SumTo, Objective, Quadratic;
    var n, rate, means := |w|, cfg.learningRate, Means(m);
    var g := GradientSeq(w, m, cov, cfg.aversion);
    var h := Scaled(g, rate);
    GradientIsLinearPart(w, h, Stepped(w, m, cov, cfg), means, m, cov, cfg.aversion);
    forall i | 0 <= i < n
      ensures Times(Weights(h), Gradient(w, means, cov, cfg.aversion))(i) == rate * Times(Weights(g), Weights(g))(i)
    {
      ScaleTerm(rate, g[i], g[i]);
    }
    SumToScaled(n, Times(Weights(g), Weights(g)), Times(Weights(h), Gradient(w, means, cov, cfg.aversion)), rate);
    QuadraticScaled(g, cov, rate);
    StepGain(rate, SquaredNorm(g), cfg.aversion, Quadratic(g, cov));
  }

  datatype OptimizationConfig = OptimizationConfig(
    aversion: real, bounds: WeightBounds.Bounds, learningRate: real, iterations: int)

  datatype Error = TooFewStrategies | UnequalLengths | NoIterations | NoLearningRate | BadBounds

  /** The checks of `optimize_strategy_weights`, in their order. */
  function Check(m: Matrix, cfg: OptimizationConfig): Result<(), Error> {
    if |m| < 2 then Err(TooFewStrategies)
    else if !Rectangular(m) || |m[0]| < 2 then Err(UnequalLengths)
    else if cfg.iterations <= 0 then Err(NoIterations)
    else if cfg.learningRate <= 0.0 then Err(NoLearningRate)
    else if !cfg.bounds.Valid() then Err(BadBounds)
    else Ok(())
  }

  method GradientOf(w: seq<real>, m: Matrix, cov: Matrix, aversion: real) returns (g: seq<real>)
    requires |w| == |m| == |cov| && Rectangular(m) && forall i :: 0 <= i < |cov| ==> |cov[i]| == |m|
    ensures |g| == |w| && forall i :: 0 <= i < |w| ==> g[i] == Gradient(w, Means(m), cov, aversion)(i)
  {
    g := [];
    for i := 0 to |w|
      invariant |g| == i && forall a :: 0 <= a < i ==> g[a] == Gradient(w, Means(m), cov, aversion)(a)
    {
      var covW := 0.0;
      for j := 0 to |w|
        invariant covW == SumTo(j, RowTerm(w, cov, i))
      {
        covW := covW + cov[i][j] * w[j];
      }
      g := g + [Mean(m[i]) - 2.0 * aversion * covW];
    }
  }

  method QuadraticForm(w: seq<real>, cov: Matrix) returns (q: real)
    requires |cov| == |w| && forall i :: 0 <= i < |cov| ==> |cov[i]| == |w|
    ensures q == Quadratic(w, cov)
  {
    q := 0.0;
    for i := 0 to |w|
      invariant q == SumTo(i, QuadraticTerm(w, cov))
    {
      var inner := 0.0;
      for j := 0 to |w|
        invariant inner == SumTo(j, RowTerm(w, cov, i))
      {
        inner := inner + cov[i][j] * w[j];
      }
      q := q + w[i] * inner;
    }
  }

  /** One step of the loop. */
  method StepFrom(w: seq<real>, m: Matrix, cov: Matrix, cfg: OptimizationConfig) returns (candidate: seq<real>)
    requires |w| == |m| == |cov| && Rectangular(m) && forall i :: 0 <= i < |cov| ==> |cov[i]| == |m|
    ensures candidate == Stepped(w, m, cov, cfg)
  {
    hide Gradient;
    var gradient := GradientOf(w, m, cov, cfg.aversion);
    candidate := seq(|w|, i requires 0 <= i < |w| => w[i] + cfg.learningRate * gradient[i]);
    assert gradient == GradientSeq(w, m, cov, cfg.aversion);
  }

  /** The loop, and its last candidate. */
  method Climb(m: Matrix, cov: Matrix, cfg: OptimizationConfig) returns (weights: seq<real>, candidate: seq<real>)
    requires Rectangular(m) && IsCovarianceOf(cov, m) && cfg.bounds.Valid() && cfg.iterations > 0
    ensures weights == Ascend(m, cov, cfg, cfg.iterations) == W.Project(candidate, cfg.bounds)
    ensures candidate == Stepped(Ascend(m, cov, cfg, cfg.iterations - 1), m, cov, cfg)
  {
    hide Stepped, Cov;
    candidate := [];
    weights := W.Even(|m|);
    for k := 0 to cfg.iterations
      invariant weights == Ascend(m, cov, cfg, k)
      invariant k > 0 ==> candidate == Stepped(Ascend(m, cov, cfg, k - 1), m, cov, cfg)
    {
      candidate := StepFrom(weights, m, cov, cfg);
      weights := W.ProjectWeights(candidate, cfg.bounds);
    }
  }

  /** `optimize_strategy_weights` up to the square roots: whatever the returns, the weights sum
      to one and the reported variance is the portfolio's sample variance. They are what the
      projected gradient steps lead to from equal weights, and respect the bounds exactly when one
      projection round sufficed for the last candidate. */
  method OptimizeStrategyWeights(m: Matrix, cfg: OptimizationConfig)
    returns (r: Result<(seq<real>, real), Error>, candidate: seq<real>)
    ensures Check(m, cfg).Err? ==> r == Err(Check(m, cfg).error)
    ensures Check(m, cfg).Ok? ==>
      && r.Ok? && |r.value.0| == |candidate| == |m|
      && Sum(r.value.0) == 1.0
      && r.value.1 == PortfolioVariance(r.value.0, m) >= 0.0
      && (exists cov :: IsCovarianceOf(cov, m) && r.value.0 == Ascend(m, cov, cfg, cfg.iterations)
                       && candidate == Stepped(Ascend(m, cov, cfg, cfg.iterations - 1), m, cov, cfg))
      && (WeightBounds.InBounds(r.value.0, cfg.bounds) <==> W.FirstRoundSuffices(candidate, cfg.bounds))
  {
    hide Sum, SumTo, Ascend, Stepped, PortfolioVariance;
    candidate := [];
    if Check(m, cfg).Err? {
      return Err(Check(m, cfg).error), candidate;
    }
    var cov := CovarianceMatrix(m);
    var weights;
    weights, candidate := Climb(m, cov, cfg);
    W.ProjectSumsToOne(candidate, cfg.bounds);
    W.BoundsExactlyAfterOneRound(candidate, cfg.bounds);
    var variance := QuadraticForm(weights, cov);
    QuadraticIsVariance(weights, m, cov);
    r := Ok((weights, variance));
  }
}
