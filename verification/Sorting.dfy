/** Python's `sorted(xs, key=...)`: a stable sort by a numeric key. */
module Sorting {

  ghost predicate SortedBy<T(!new)>(xs: seq<T>, key: T -> real) {
    forall i, j :: 0 <= i < j < |xs| ==> key(xs[i]) <= key(xs[j])
  }

  /** Place x after every element whose key is not larger. */
  function Insert<T(!new)>(xs: seq<T>, x: T, key: T -> real): (r: seq<T>)
    ensures multiset(r) == multiset(xs) + multiset{x}
  {
    if |xs| == 0 || key(xs[|xs| - 1]) <= key(x) then xs + [x]
    else
      assert xs == xs[..|xs| - 1] + [xs[|xs| - 1]];
      Insert(xs[..|xs| - 1], x, key) + [xs[|xs| - 1]]
  }

  function StableSort<T(!new)>(xs: seq<T>, key: T -> real): (r: seq<T>)
    ensures multiset(r) == multiset(xs)
  {
    if |xs| == 0 then []
    else
      assert xs == xs[..|xs| - 1] + [xs[|xs| - 1]];
      Insert(StableSort(xs[..|xs| - 1], key), xs[|xs| - 1], key)
  }

  lemma {:induction false} InsertSorts<T(!new)>(xs: seq<T>, x: T, key: T -> real)
    requires SortedBy(xs, key)
    ensures SortedBy(Insert(xs, x, key), key)
  {
    if |xs| > 0 && key(xs[|xs| - 1]) > key(x) {
      var rest, last := Insert(xs[..|xs| - 1], x, key), xs[|xs| - 1];
      InsertSorts(xs[..|xs| - 1], x, key);
      forall i | 0 <= i < |rest| ensures key(rest[i]) <= key(last) {
        assert rest[i] in multiset(rest);
        assert rest[i] in xs[..|xs| - 1] || rest[i] == x;
      }
    }
  }

  /** The result is in key order and has the same elements. */
  lemma {:induction false} SortSorts<T(!new)>(xs: seq<T>, key: T -> real)
    ensures SortedBy(StableSort(xs, key), key)
    ensures |StableSort(xs, key)| == |xs|
    ensures forall y :: y in StableSort(xs, key) <==> y in xs
  {
    var r := StableSort(xs, key);
    assert |multiset(r)| == |r| && |multiset(xs)| == |xs|;
    assert forall y :: y in r <==> y in multiset(r);
    if |xs| > 0 {
      SortSorts(xs[..|xs| - 1], key);
      InsertSorts(StableSort(xs[..|xs| - 1], key), xs[|xs| - 1], key);
    }
  }

  function Filter<T(!new)>(xs: seq<T>, p: T -> bool): (r: seq<T>)
    ensures forall y :: y in r <==> y in xs && p(y)
  {
    if |xs| == 0 then []
    else
      var rest := Filter(xs[..|xs| - 1], p);
      var last := xs[|xs| - 1];
      assert xs == xs[..|xs| - 1] + [last];
      if p(last) then rest + [last] else rest
  }

  lemma FilterSnoc<T(!new)>(xs: seq<T>, x: T, p: T -> bool)
    ensures Filter(xs + [x], p) == if p(x) then Filter(xs, p) + [x] else Filter(xs, p)
  {
    assert (xs + [x])[..|xs|] == xs;
  }

  function HasKey<T>(key: T -> real, k: real): T -> bool {
    y => key(y) == k
  }

  lemma {:induction false} InsertKeepsTies<T(!new)>(xs: seq<T>, x: T, key: T -> real, k: real)
    requires SortedBy(xs, key)
    ensures Filter(Insert(xs, x, key), HasKey(key, k)) == Filter(xs + [x], HasKey(key, k))
  {
    var p := HasKey(key, k);
    FilterSnoc(xs, x, p);
    if |xs| > 0 && key(xs[|xs| - 1]) > key(x) {
      var n := |xs| - 1;
      InsertKeepsTies(xs[..n], x, key, k);
      FilterSnoc(Insert(xs[..n], x, key), xs[n], p);
      FilterSnoc(xs[..n], x, p);
    }
  }

  /** Stability: elements with equal keys keep their original relative order. */
  lemma {:induction false} SortIsStable<T(!new)>(xs: seq<T>, key: T -> real, k: real)
    ensures Filter(StableSort(xs, key), HasKey(key, k)) == Filter(xs, HasKey(key, k))
  {
    if |xs| > 0 {
      var n := |xs| - 1;
      SortSorts(xs[..n], key);
      SortIsStable(xs[..n], key, k);
      InsertKeepsTies(StableSort(xs[..n], key), xs[n], key, k);
      FilterSnoc(StableSort(xs[..n], key), xs[n], HasKey(key, k));
    }
  }
}
