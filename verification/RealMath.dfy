/** Sums over sequences of reals, and the few inequalities the numeric modules share.
    Floating point is modelled by exact reals throughout. */
module RealMath {

  function Abs(x: real): real {
    if x < 0.0 then -x else x
  }

  function Min(x: real, y: real): real {
    if x <= y then x else y
  }

  function Max(x: real, y: real): real {
    if x >= y then x else y
  }

  function Sum(xs: seq<real>): real {
    if |xs| == 0 then 0.0 else Sum(xs[..|xs| - 1]) + xs[|xs| - 1]
  }

  function Mean(xs: seq<real>): real
    requires |xs| > 0
  {
    Sum(xs) / |xs| as real
  }

  /** Sum of f over the indices 0..n-1. */
  ghost function SumTo(n: nat, f: int -> real): real {
    if n == 0 then 0.0 else SumTo(n - 1, f) + f(n - 1)
  }

  /** Sum of f over the elements of keys, in order. */
  function SumOver<T>(keys: seq<T>, f: T -> real): real {
    if |keys| == 0 then 0.0 else SumOver(keys[..|keys| - 1], f) + f(keys[|keys| - 1])
  }

  ghost predicate Distinct<T(!new)>(xs: seq<T>) {
    forall i, j :: 0 <= i < j < |xs| ==> xs[i] != xs[j]
  }

  lemma {:induction false} SumSnoc(xs: seq<real>, x: real)
    ensures Sum(xs + [x]) == Sum(xs) + x
  {
    assert (xs + [x])[..|xs|] == xs;
  }

  lemma {:induction false} SumOverSnoc<T>(keys: seq<T>, k: T, f: T -> real)
    ensures SumOver(keys + [k], f) == SumOver(keys, f) + f(k)
  {
    assert (keys + [k])[..|keys|] == keys;
  }

  lemma SumOverNone<T>(keys: seq<T>, f: T -> real)
    ensures SumOver(keys[..0], f) == 0.0
  {
  }

  lemma SumOverNext<T>(keys: seq<T>, i: nat, f: T -> real)
    requires i < |keys|
    ensures SumOver(keys[..i + 1], f) == SumOver(keys[..i], f) + f(keys[i])
  {
    assert keys[..i + 1] == keys[..i] + [keys[i]];
    SumOverSnoc(keys[..i], keys[i], f);
  }

  lemma {:induction false} SumOverConcat<T>(xs: seq<T>, ys: seq<T>, f: T -> real)
    ensures SumOver(xs + ys, f) == SumOver(xs, f) + SumOver(ys, f)
  {
    if |ys| == 0 {
      assert xs + ys == xs;
    } else {
      SumOverConcat(xs, ys[..|ys| - 1], f);
      assert (xs + ys)[..|xs + ys| - 1] == xs + ys[..|ys| - 1];
    }
  }

  lemma {:induction false} SumOverEqual<T>(keys: seq<T>, f: T -> real, g: T -> real)
    requires forall i :: 0 <= i < |keys| ==> f(keys[i]) == g(keys[i])
    ensures SumOver(keys, f) == SumOver(keys, g)
  {
    if |keys| > 0 {
      SumOverEqual(keys[..|keys| - 1], f, g);
    }
  }

  /** Changing a summand at one key of a duplicate-free list moves the sum by that change. */
  lemma {:induction false} SumOverChange<T>(keys: seq<T>, at: int, f: T -> real, g: T -> real)
    requires 0 <= at < |keys|
    requires forall i :: 0 <= i < |keys| && i != at ==> f(keys[i]) == g(keys[i])
    ensures SumOver(keys, g) == SumOver(keys, f) - f(keys[at]) + g(keys[at])
  {
    var n := |keys| - 1;
    if at == n {
      SumOverEqual(keys[..n], f, g);
    } else {
      SumOverChange(keys[..n], at, f, g);
    }
  }

  lemma {:induction false} SumToEqual(n: nat, f: int -> real, g: int -> real)
    requires forall i :: 0 <= i < n ==> f(i) == g(i)
    ensures SumTo(n, f) == SumTo(n, g)
  {
    if n > 0 {
      SumToEqual(n - 1, f, g);
    }
  }

  lemma {:induction false} SumToLinear(n: nat, f: int -> real, g: int -> real, h: int -> real, a: real, b: real)
    requires forall i :: 0 <= i < n ==> h(i) == a * f(i) + b * g(i)
    ensures SumTo(n, h) == a * SumTo(n, f) + b * SumTo(n, g)
  {
    if n > 0 {
      SumToLinear(n - 1, f, g, h, a, b);
    }
  }

  lemma {:induction false} SumToConst(n: nat, f: int -> real, c: real)
    requires forall i :: 0 <= i < n ==> f(i) == c
    ensures SumTo(n, f) == n as real * c
  {
    if n > 0 {
      SumToConst(n - 1, f, c);
      assert n as real * c == ((n - 1) as real + 1.0) * c;
    }
  }

  /** The sum of a sequence is the sum over its indices. */
  lemma {:induction false} SumIsSumTo(xs: seq<real>, f: int -> real)
    requires forall i :: 0 <= i < |xs| ==> f(i) == xs[i]
    ensures Sum(xs) == SumTo(|xs|, f)
  {
    if |xs| > 0 {
      SumIsSumTo(xs[..|xs| - 1], f);
    }
  }

  function Row(f: (int, int) -> real, i: int): int -> real {
    k => f(i, k)
  }

  function Column(f: (int, int) -> real, k: int): int -> real {
    i => f(i, k)
  }

  ghost function RowSums(m: nat, f: (int, int) -> real): int -> real {
    i => SumTo(m, Row(f, i))
  }

  ghost function ColumnSums(n: nat, f: (int, int) -> real): int -> real {
    k => SumTo(n, Column(f, k))
  }

  /** Exchanging the order of a finite double sum. */
  lemma {:induction false} SumToExchange(n: nat, m: nat, f: (int, int) -> real)
    ensures SumTo(n, RowSums(m, f)) == SumTo(m, ColumnSums(n, f))
  {
    if n == 0 {
      SumToConst(m, ColumnSums(0, f), 0.0);
    } else {
      SumToExchange(n - 1, m, f);
      SumToLinear(m, ColumnSums(n - 1, f), Row(f, n - 1), ColumnSums(n, f), 1.0, 1.0);
    }
  }

  lemma {:induction false} SumAdd(xs: seq<real>, ys: seq<real>, zs: seq<real>)
    requires |xs| == |ys| == |zs|
    requires forall i :: 0 <= i < |zs| ==> zs[i] == xs[i] + ys[i]
    ensures Sum(zs) == Sum(xs) + Sum(ys)
  {
    var n := |zs| - 1;
    if n >= 0 {
      SumAdd(xs[..n], ys[..n], zs[..n]);
    }
  }

  lemma {:induction false} SumScaled(xs: seq<real>, zs: seq<real>, a: real)
    requires |xs| == |zs|
    requires forall i :: 0 <= i < |zs| ==> zs[i] == a * xs[i]
    ensures Sum(zs) == a * Sum(xs)
  {
    var n := |zs| - 1;
    if n >= 0 {
      SumScaled(xs[..n], zs[..n], a);
      assert a * (Sum(xs[..n]) + xs[n]) == a * Sum(xs[..n]) + a * xs[n];
    }
  }

  lemma {:induction false} SumUpdate(xs: seq<real>, at: nat, x: real)
    requires at < |xs|
    ensures Sum(xs[at := x]) == Sum(xs) - xs[at] + x
  {
    var n := |xs| - 1;
    if at == n {
      assert xs[at := x][..n] == xs[..n];
    } else {
      SumUpdate(xs[..n], at, x);
      assert xs[at := x][..n] == xs[..n][at := x];
    }
  }

  lemma {:induction false} SumLe(xs: seq<real>, ys: seq<real>)
    requires |xs| == |ys|
    requires forall i :: 0 <= i < |xs| ==> xs[i] <= ys[i]
    ensures Sum(xs) <= Sum(ys)
  {
    var n := |xs| - 1;
    if n >= 0 {
      SumLe(xs[..n], ys[..n]);
    }
  }

  lemma {:induction false} SumLt(xs: seq<real>, ys: seq<real>, at: nat)
    requires |xs| == |ys| && at < |xs|
    requires forall i :: 0 <= i < |xs| ==> xs[i] <= ys[i]
    requires xs[at] < ys[at]
    ensures Sum(xs) < Sum(ys)
  {
    var n := |xs| - 1;
    if at == n {
      SumLe(xs[..n], ys[..n]);
    } else {
      SumLt(xs[..n], ys[..n], at);
    }
  }

  lemma {:induction false} SumConst(xs: seq<real>, c: real)
    requires forall i :: 0 <= i < |xs| ==> xs[i] == c
    ensures Sum(xs) == |xs| as real * c
  {
    if |xs| > 0 {
      SumConst(xs[..|xs| - 1], c);
    }
  }

  /** Elementwise bounds bound the sum. */
  lemma {:induction false} SumBetween(xs: seq<real>, lo: real, hi: real)
    requires forall i :: 0 <= i < |xs| ==> lo <= xs[i] <= hi
    ensures |xs| as real * lo <= Sum(xs) <= |xs| as real * hi
  {
    if |xs| > 0 {
      SumBetween(xs[..|xs| - 1], lo, hi);
    }
  }

  lemma MulLe(a: real, b: real, c: real)
    requires a <= b && 0.0 <= c
    ensures a * c <= b * c
  {
  }

  lemma MulLt(a: real, b: real, c: real)
    requires a < b && 0.0 < c
    ensures a * c < b * c
  {
  }

  /** A product kept out of the solver's sight by hiding this function. */
  function Mul(a: real, b: real): real {
    a * b
  }

  lemma MulMonotone(a: real, b: real, c: real)
    requires a <= b && 0.0 <= c
    ensures Mul(a, c) <= Mul(b, c)
  {
    MulLe(a, b, c);
  }

  lemma DivLeMul(a: real, b: real, c: real)
    requires 0.0 < c
    ensures a / c <= b <==> a <= Mul(b, c)
    ensures b <= a / c <==> Mul(b, c) <= a
    ensures Mul(a / c, c) == a
  {
    DivLe(a, b, c);
    DivMul(a, c);
  }

  lemma MulPositive(a: real, b: real)
    requires 0.0 < a && 0.0 < b
    ensures 0.0 < Mul(a, b)
  {
    MulLt(0.0, a, b);
  }

  lemma MulZero(a: real)
    ensures Mul(a, 0.0) == 0.0 && Mul(0.0, a) == 0.0
  {
  }

  lemma MulCommutes(a: real, b: real)
    ensures Mul(a, b) == Mul(b, a)
  {
  }

  lemma MulDistributes(a: real, b: real, c: real)
    ensures Mul(a + b, c) == Mul(a, c) + Mul(b, c)
    ensures Mul(a, b - c) == Mul(a, b) - Mul(a, c)
  {
  }

  lemma Distribute(a: real, x: real, y: real, z: real)
    ensures a * (x + 2.0 * y + z) == a * x + 2.0 * a * y + a * z
  {
  }

  lemma SumMul(xs: seq<real>, zs: seq<real>, a: real)
    requires |xs| == |zs|
    requires forall i :: 0 <= i < |zs| ==> zs[i] == Mul(a, xs[i])
    ensures Sum(zs) == Mul(a, Sum(xs))
  {
    SumScaled(xs, zs, a);
  }

  lemma SquareMonotone(a: real, b: real)
    requires 0.0 <= a < b
    ensures a * a < b * b
  {
    calc {
      a * a;
      <= { MulLe(a, b, a); }
      b * a;
      == a * b;
      < { MulLt(a, b, b); }
      b * b;
    }
  }

  lemma DivMul(x: real, y: real)
    requires y != 0.0
    ensures x / y * y == x
  {
  }

  lemma DivLe(a: real, b: real, c: real)
    requires 0.0 < c
    ensures a / c <= b <==> a <= b * c
    ensures a / c < b <==> a < b * c
    ensures b <= a / c <==> b * c <= a
    ensures b < a / c <==> b * c < a
  {
    assert a / c * c == a;
  }
}
