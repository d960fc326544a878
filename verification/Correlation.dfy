/** Pearson correlation and the correlation matrix of risk/portfolio_engine.py. Square roots are
    taken by a function `root` of which only "the non-negative r with r * r == x" is known. */
module Correlation {
  import opened RealMath
  import opened Values

  ghost predicate IsSqrt(root: real -> real) {
    forall x :: x >= 0.0 ==> root(x) >= 0.0 && Mul(root(x), root(x)) == x
  }

  /** The three accumulators of the `_pearson` loop. */
  datatype Sums = Sums(num: real, denX: real, denY: real)

  function Accumulate(x: seq<real>, y: seq<real>, xMean: real, yMean: real): Sums
    requires |x| == |y|
  {
    if |x| == 0 then Sums(0.0, 0.0, 0.0)
    else
      var n := |x| - 1;
      var s := Accumulate(x[..n], y[..n], xMean, yMean);
      var dx, dy := x[n] - xMean, y[n] - yMean;
      Sums(s.num + Mul(dx, dy), s.denX + Mul(dx, dx), s.denY + Mul(dy, dy))
  }

  function Pearson(x: seq<real>, y: seq<real>, xMean: real, yMean: real, root: real -> real): real
    requires |x| == |y|
  {
    var s := Accumulate(x, y, xMean, yMean);
    var denom := root(Mul(s.denX, s.denY));
    if denom == 0.0 then 0.0 else s.num / denom
  }

  method ComputePearson(x: seq<real>, y: seq<real>, xMean: real, yMean: real, root: real -> real) returns (r: real)
    requires |x| == |y|
    ensures r == Pearson(x, y, xMean, yMean, root)
  {
    hide Mul;
    var num, denX, denY := 0.0, 0.0, 0.0;
    for i := 0 to |x|
      invariant Sums(num, denX, denY) == Accumulate(x[..i], y[..i], xMean, yMean)
    {
      var dx, dy := x[i] - xMean, y[i] - yMean;
      assert x[..i + 1][..i] == x[..i] && y[..i + 1][..i] == y[..i];
      num := num + Mul(dx, dy);
      denX := denX + Mul(dx, dx);
      denY := denY + Mul(dy, dy);
    }
    assert x[..|x|] == x && y[..|x|] == y;
    var denom := root(Mul(denX, denY));
    r := if denom == 0.0 then 0.0 else num / denom;
  }

  /** One loop step keeps num^2 <= denX * denY. */
  lemma CauchySchwarzStep(n: real, x: real, y: real, a: real, b: real)
    requires Mul(n, n) <= Mul(x, y) && x >= 0.0 && y >= 0.0
    ensures Mul(n + Mul(a, b), n + Mul(a, b)) <= Mul(x + Mul(a, a), y + Mul(b, b))
    ensures Mul(a, a) >= 0.0 && Mul(b, b) >= 0.0
  {
    CrossTerm(n, x, y, a, b);
    calc {
      (x + a * a) * (y + b * b) - (n + a * b) * (n + a * b);
      x * y + x * (b * b) + (a * a) * y + (a * a) * (b * b) - n * n - 2.0 * (n * (a * b)) - (a * b) * (a * b);
      { assert (a * a) * (b * b) == (a * b) * (a * b); }
      x * y - n * n + (x * (b * b) + y * (a * a) - 2.0 * (n * (a * b)));
    }
  }

  lemma CrossTerm(n: real, x: real, y: real, a: real, b: real)
    requires n * n <= x * y && x >= 0.0 && y >= 0.0
    ensures 2.0 * (n * (a * b)) <= x * (b * b) + y * (a * a)
  {
    var t := x * (b * b) + y * (a * a) - 2.0 * (n * (a * b));
    if x == 0.0 {
      assert n * n <= 0.0;
      SquareZero(n);
      assert y * (a * a) >= 0.0;
    } else {
      var s := x * b - n * a;
      var e := (x * y - n * n) * (a * a);
      assert x * t == s * s + e by {
        assert s * s == x * x * (b * b) - 2.0 * (x * b * (n * a)) + n * n * (a * a);
      }
      assert s * s >= 0.0 && e >= 0.0;
      SignOfFactor(x, t);
    }
  }

  lemma SquareZero(n: real)
    requires n * n <= 0.0
    ensures n == 0.0
  {
    if n > 0.0 {
      SquareMonotone(0.0, n);
    } else if n < 0.0 {
      SquareMonotone(0.0, -n);
    }
  }

  lemma SignOfFactor(x: real, t: real)
    requires x > 0.0 && x * t >= 0.0
    ensures t >= 0.0
  {
  }

  lemma {:induction false} CauchySchwarz(x: seq<real>, y: seq<real>, xMean: real, yMean: real)
    requires |x| == |y|
    ensures var s := Accumulate(x, y, xMean, yMean);
      s.denX >= 0.0 && s.denY >= 0.0 && Mul(s.num, s.num) <= Mul(s.denX, s.denY)
  {
    assert Mul(0.0, 0.0) == 0.0;
    hide Mul;
    if |x| > 0 {
      var n := |x| - 1;
      CauchySchwarz(x[..n], y[..n], xMean, yMean);
      var s := Accumulate(x[..n], y[..n], xMean, yMean);
      CauchySchwarzStep(s.num, s.denX, s.denY, x[n] - xMean, y[n] - yMean);
    }
  }

  lemma QuotientWithinOne(num: real, denom: real)
    requires denom > 0.0 && Mul(num, num) <= Mul(denom, denom)
    ensures -1.0 <= num / denom <= 1.0
  {
    if num > denom {
      SquareMonotone(denom, num);
    }
    if num < -denom {
      SquareMonotone(denom, -num);
    }
    DivLe(num, 1.0, denom);
    DivLe(num, -1.0, denom);
  }

  /** Every correlation lies in [-1, 1], whatever means it is given. */
  lemma PearsonWithinOne(x: seq<real>, y: seq<real>, xMean: real, yMean: real, root: real -> real)
    requires |x| == |y| && IsSqrt(root)
    ensures -1.0 <= Pearson(x, y, xMean, yMean, root) <= 1.0
  {
    CauchySchwarz(x, y, xMean, yMean);
    var s := Accumulate(x, y, xMean, yMean);
    assert Mul(s.denX, s.denY) >= 0.0;
    hide Mul, Accumulate;
    var denom := root(Mul(s.denX, s.denY));
    if denom != 0.0 {
      QuotientWithinOne(s.num, denom);
    }
  }

  lemma {:induction false} AccumulateSwaps(x: seq<real>, y: seq<real>, xMean: real, yMean: real)
    requires |x| == |y|
    ensures var s, t := Accumulate(x, y, xMean, yMean), Accumulate(y, x, yMean, xMean);
      t == Sums(s.num, s.denY, s.denX)
  {
    hide Mul;
    if |x| > 0 {
      MulCommutes(x[|x| - 1] - xMean, y[|x| - 1] - yMean);
      AccumulateSwaps(x[..|x| - 1], y[..|x| - 1], xMean, yMean);
    }
  }

  lemma PearsonSymmetric(x: seq<real>, y: seq<real>, xMean: real, yMean: real, root: real -> real)
    requires |x| == |y|
    ensures Pearson(x, y, xMean, yMean, root) == Pearson(y, x, yMean, xMean, root)
  {
    hide Mul, Accumulate;
    AccumulateSwaps(x, y, xMean, yMean);
    var s := Accumulate(x, y, xMean, yMean);
    MulCommutes(s.denX, s.denY);
  }

  lemma SquarePositive(a: real)
    ensures Mul(a, a) >= 0.0 && (Mul(a, a) == 0.0 <==> a == 0.0)
  {
    if a != 0.0 {
      MulPositive(Abs(a), Abs(a));
    }
  }

  /** The deviations' squares sum to nothing exactly when no value deviates. */
  lemma {:induction false} ConstantExactlyWhen(x: seq<real>, mean: real)
    ensures var d := Accumulate(x, x, mean, mean).denX;
      d >= 0.0 && (d == 0.0 <==> forall i :: 0 <= i < |x| ==> x[i] == mean)
  {
    hide Mul;
    if |x| > 0 {
      var n := |x| - 1;
      ConstantExactlyWhen(x[..n], mean);
      SquarePositive(x[n] - mean);
    }
  }

  /** The mean of equal values is their value. */
  lemma ConstantMean(x: seq<real>)
    requires |x| > 0
    ensures (forall i :: 0 <= i < |x| ==> x[i] == Mean(x)) <==> (forall i :: 0 <= i < |x| ==> x[i] == x[0])
  {
    if forall i :: 0 <= i < |x| ==> x[i] == x[0] {
      SumConst(x, x[0]);
      assert Mean(x) == x[0];
    }
  }

  /** A series that moves correlates with itself by exactly one, so the matrix loop's shortcut
      for the diagonal computes the same value; a constant series would have given zero. */
  lemma SelfCorrelation(x: seq<real>, root: real -> real)
    requires |x| > 0 && IsSqrt(root)
    ensures Pearson(x, x, Mean(x), Mean(x), root) ==
      if forall i :: 0 <= i < |x| ==> x[i] == x[0] then 0.0 else 1.0
  {
    var mean := Mean(x);
    AccumulateSelf(x, mean);
    ConstantExactlyWhen(x, mean);
    ConstantMean(x);
    var d := Accumulate(x, x, mean, mean).denX;
    assert Mul(d, d) >= 0.0;
    hide Mul, Accumulate, Mean;
    RootOfSquare(root(Mul(d, d)), d);
  }

  lemma RootOfSquare(r: real, d: real)
    requires r >= 0.0 && d >= 0.0 && Mul(r, r) == Mul(d, d)
    ensures r == d && (d > 0.0 ==> d / d == 1.0)
  {
    if r < d {
      SquareMonotone(r, d);
    } else if d < r {
      SquareMonotone(d, r);
    }
  }

  lemma {:induction false} AccumulateSelf(x: seq<real>, mean: real)
    ensures var s := Accumulate(x, x, mean, mean); s.num == s.denX == s.denY
  {
    if |x| > 0 {
      AccumulateSelf(x[..|x| - 1], mean);
    }
  }

  datatype Limits = Limits(maxPair: real, maxAverage: real)

  datatype Assessment = Assessment(
    matrix: seq<seq<real>>, average: real, breached: seq<(nat, nat)>, approved: bool)

  datatype Error = TooFewStrategies | UnequalLengths | TooFewObservations

  function Check(series: seq<seq<real>>): Result<(), Error> {
    if |series| < 2 then Err(TooFewStrategies)
    else if exists i :: 0 <= i < |series| && |series[i]| != |series[0]| then Err(UnequalLengths)
    else if |series[0]| < 2 then Err(TooFewObservations)
    else Ok(())
  }

  /** The (i, j) entry: one on the diagonal, the correlation elsewhere. */
  function Entry(series: seq<seq<real>>, i: int, j: int, root: real -> real): real
    requires Check(series).Ok? && 0 <= i < |series| && 0 <= j < |series|
  {
    if i == j then 1.0 else Pearson(series[i], series[j], Mean(series[i]), Mean(series[j]), root)
  }

  lemma EntrySymmetricWithinOne(series: seq<seq<real>>, i: int, j: int, root: real -> real)
    requires Check(series).Ok? && IsSqrt(root) && 0 <= i < |series| && 0 <= j < |series|
    ensures Entry(series, i, j, root) == Entry(series, j, i, root)
    ensures -1.0 <= Entry(series, i, j, root) <= 1.0
    ensures i == j ==> Entry(series, i, j, root) == 1.0
  {
    hide Pearson, IsSqrt;
    PearsonSymmetric(series[i], series[j], Mean(series[i]), Mean(series[j]), root);
    PearsonWithinOne(series[i], series[j], Mean(series[i]), Mean(series[j]), root);
  }

  /** The matrix lists the entries. */
  ghost predicate Tabulates(m: seq<seq<real>>, series: seq<seq<real>>, root: real -> real)
    requires Check(series).Ok?
  {
    && |m| == |series|
    && (forall i :: 0 <= i < |m| ==> |m[i]| == |m|)
    && forall i, j :: 0 <= i < |m| && 0 <= j < |m| ==> m[i][j] == Entry(series, i, j, root)
  }

  ghost predicate IsCorrelationEntry(m: seq<seq<real>>, i: int, j: int)
    requires 0 <= i < |m| && 0 <= j < |m|
  {
    && |m[i]| == |m[j]| == |m|
    && m[i][j] == m[j][i] && -1.0 <= m[i][j] <= 1.0
    && (i == j ==> m[i][j] == 1.0)
  }

  /** Square, symmetric, ones on the diagonal, everything in [-1, 1]. */
  ghost predicate IsCorrelationMatrix(m: seq<seq<real>>) {
    forall i, j :: 0 <= i < |m| && 0 <= j < |m| ==> IsCorrelationEntry(m, i, j)
  }

  lemma TabulatedIsCorrelationMatrix(m: seq<seq<real>>, series: seq<seq<real>>, root: real -> real)
    requires Check(series).Ok? && IsSqrt(root) && Tabulates(m, series, root)
    ensures IsCorrelationMatrix(m)
  {
    hide Entry, IsSqrt, Check;
    forall i, j | 0 <= i < |m| && 0 <= j < |m| ensures IsCorrelationEntry(m, i, j) {
      EntrySymmetricWithinOne(series, i, j, root);
      assert m[i][j] == Entry(series, i, j, root);
      assert m[j][i] == Entry(series, j, i, root);
    }
  }

  lemma MeanBetween(xs: seq<real>, lo: real, hi: real)
    requires |xs| > 0 && forall i :: 0 <= i < |xs| ==> lo <= xs[i] <= hi
    ensures lo <= Mean(xs) <= hi
  {
    SumBetween(xs, lo, hi);
    DivLe(Sum(xs), hi, |xs| as real);
    DivLe(Sum(xs), lo, |xs| as real);
  }

  /** The absolute correlations of row i with the rows after it. */
  function RowPairs(row: seq<real>, i: nat): seq<real> {
    if |row| <= i + 1 then [] else seq(|row| - (i + 1), k requires 0 <= k < |row| - (i + 1) => Abs(row[i + 1 + k]))
  }

  /** The absolute correlations of all pairs, row by row. */
  function AbsPairs(m: seq<seq<real>>): seq<real> {
    if |m| == 0 then [] else AbsPairs(m[..|m| - 1]) + RowPairs(m[|m| - 1], |m| - 1)
  }

  lemma RowPairsSnoc(row: seq<real>, x: real, i: nat)
    ensures RowPairs(row + [x], i) == if i < |row| then RowPairs(row, i) + [Abs(x)] else []
  {
  }

  lemma NoRowPairsYet(row: seq<real>, i: nat)
    ensures |row| <= i + 1 ==> RowPairs(row, i) == []
  {
  }

  lemma NoPairs()
    ensures AbsPairs([]) == []
  {
  }

  lemma AbsWithinOne()
    ensures forall x :: -1.0 <= x <= 1.0 ==> 0.0 <= Abs(x) <= 1.0
  {
  }

  lemma AbsPairsSnoc(m: seq<seq<real>>, row: seq<real>)
    ensures AbsPairs(m + [row]) == AbsPairs(m) + RowPairs(row, |m|)
  {
    assert (m + [row])[..|m|] == m;
  }

  /** `evaluate_correlation_risk` on the return series in name order. */
  method EvaluateCorrelationRisk(series: seq<seq<real>>, limits: Limits, root: real -> real)
      returns (r: Result<Assessment, Error>)
    requires IsSqrt(root)
    ensures !Check(series).Ok? <==> !r.Ok?
    ensures r.Err? ==> Check(series) == Err(r.error)
    ensures r.Ok? ==>
      var m := r.value.matrix;
      && Tabulates(m, series, root) && IsCorrelationMatrix(m)
      && |AbsPairs(m)| > 0 && r.value.average == Mean(AbsPairs(m)) && 0.0 <= r.value.average <= 1.0
      && (forall i: nat, j: nat :: (i, j) in r.value.breached <==> i < j < |m| && Abs(m[i][j]) > limits.maxPair)
      && (r.value.approved <==> r.value.average <= limits.maxAverage
                                && forall i, j :: 0 <= i < j < |m| ==> Abs(m[i][j]) <= limits.maxPair)
  {
    hide Pearson, Sum, Mul, Mean, IsSqrt, AbsPairs, RowPairs, Abs;
    AbsWithinOne();
    NoPairs();
    match Check(series) {
      case Err(error) => return Err(error);
      case Ok(_) =>
    }
    var n := |series|;
    var matrix: seq<seq<real>> := [];
    var absValues: seq<real> := [];
    var breached: seq<(nat, nat)> := [];
    for i := 0 to n
      invariant |matrix| == i && forall a :: 0 <= a < i ==> |matrix[a]| == n
      invariant forall a, c :: 0 <= a < i && 0 <= c < n ==> matrix[a][c] == Entry(series, a, c, root)
      invariant forall k :: 0 <= k < |absValues| ==> 0.0 <= absValues[k] <= 1.0
      invariant (i > 0 ==> |absValues| > 0) && absValues == AbsPairs(matrix)
      invariant forall a: nat, c: nat ::
        (a, c) in breached <==> a < i && a < c < n && Abs(Entry(series, a, c, root)) > limits.maxPair
    {
      var row: seq<real> := [];
      NoRowPairsYet(row, i);
      assert AbsPairs(matrix) + [] == AbsPairs(matrix);
      for j := 0 to n
        invariant |row| == j && forall c :: 0 <= c < j ==> row[c] == Entry(series, i, c, root)
        invariant forall k :: 0 <= k < |absValues| ==> 0.0 <= absValues[k] <= 1.0
        invariant (i > 0 || j > 1 ==> |absValues| > 0) && absValues == AbsPairs(matrix) + RowPairs(row, i)
        invariant forall a: nat, c: nat ::
          (a, c) in breached <==>
            && a < c < n && Abs(Entry(series, a, c, root)) > limits.maxPair
            && (a < i || (a == i && c < j))
      {
        if i == j {
          RowPairsSnoc(row, 1.0, i);
          NoRowPairsYet(row, i);
          row := row + [1.0];
        } else {
          var corr := ComputePearson(series[i], series[j], Mean(series[i]), Mean(series[j]), root);
          PearsonWithinOne(series[i], series[j], Mean(series[i]), Mean(series[j]), root);
          RowPairsSnoc(row, corr, i);
          NoRowPairsYet(row, i);
          row := row + [corr];
          if i < j {
            absValues := absValues + [Abs(corr)];
            if Abs(corr) > limits.maxPair {
              breached := breached + [(i, j)];
            }
          }
        }
      }
      AbsPairsSnoc(matrix, row);
      matrix := matrix + [row];
    }
    var average := Mean(absValues);
    MeanBetween(absValues, 0.0, 1.0);
    TabulatedIsCorrelationMatrix(matrix, series, root);
    if |breached| > 0 {
      assert breached[0] in breached;
      assert Abs(matrix[breached[0].0][breached[0].1]) > limits.maxPair;
    } else {
      forall i: nat, j: nat | i < j < n ensures Abs(matrix[i][j]) <= limits.maxPair {
        assert (i, j) !in breached;
      }
    }
    r := Ok(Assessment(matrix, average, breached, |breached| == 0 && average <= limits.maxAverage));
  }
}
