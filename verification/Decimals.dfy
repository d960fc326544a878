/** The decimal text of numbers, as order identifiers use it. */
module Decimals {
  function Digit(d: nat): char
    requires d < 10
  {
    (d + '0' as int) as char
  }

  /** The decimal text of a number. */
  function Decimal(n: nat): string {
    if n < 10 then [Digit(n)] else Decimal(n / 10) + [Digit(n % 10)]
  }

  lemma {:induction false} DecimalHasNoDash(n: nat)
    ensures |Decimal(n)| > 0 && (n >= 10 ==> |Decimal(n)| > 1)
    ensures forall i :: 0 <= i < |Decimal(n)| ==> Decimal(n)[i] != '-'
  {
    if n >= 10 {
      DecimalHasNoDash(n / 10);
    }
  }

  lemma {:induction false} DecimalInjective(m: nat, n: nat)
    requires Decimal(m) == Decimal(n)
    ensures m == n
  {
    var a, b := Decimal(m), Decimal(n);
    DecimalHasNoDash(m);
    DecimalHasNoDash(n);
    assert a[|a| - 1] == Digit(m % 10) && b[|b| - 1] == Digit(n % 10);
    if m >= 10 && n >= 10 {
      assert a[..|a| - 1] == Decimal(m / 10) && b[..|b| - 1] == Decimal(n / 10);
      DecimalInjective(m / 10, n / 10);
    }
  }

  lemma AfterPrefix(prefix: string, number: string, leg: string)
    ensures (prefix + "-" + number + leg)[|prefix| + 1..] == number + leg
  {
  }

  lemma AppendedAt(a: string, s: string, k: nat)
    ensures k < |a| ==> (a + s)[k] == a[k]
  {
  }

  lemma SplitAtDash(a: string, s: string, b: string, t: string)
    requires a + s == b + t && |s| > 0 && |t| > 0 && s[0] == t[0] == '-'
    requires (forall i :: 0 <= i < |a| ==> a[i] != '-') && forall i :: 0 <= i < |b| ==> b[i] != '-'
    ensures a == b
  {
    assert (a + s)[|a|] == '-' && (b + t)[|b|] == '-';
    AppendedAt(b, t, |a|);
    AppendedAt(a, s, |b|);
    assert |a| == |b|;
    assert a == (a + s)[..|a|] && b == (b + t)[..|b|];
  }
}
