/** BarAggregator of aggregation/bar_aggregator.py: one pass over minute bars, optionally with the
    gaps filled, against a group-by specification. Timestamps count microseconds of wall-clock
    time, the resolution of a datetime. */
module BarAggregator {
  import opened RealMath
  import opened Sorting
  import opened Values

  const MINUTE: int := 60000000

  datatype Bar = Bar(
    symbol: string, timeframe: string, ts: int, open: real, high: real, low: real, close: real, volume: real) {

    predicate Valid() {
      low <= open <= high && low <= close <= high && volume >= 0.0
    }
  }

  datatype Target = Quarter | Hour {
    function Minutes(): int {
      if Quarter? then 15 else 60
    }

    function Width(): int {
      Minutes() * MINUTE
    }

    function Name(): string {
      if Quarter? then "15m" else "1h"
    }
  }

  datatype Error = NotOneMinute | MixedSymbols

  /** The minute of the hour rounded down to a multiple; seconds and microseconds cleared. */
  function FloorToBucket(ts: int, target: Target): int {
    var minuteOfHour := ts / MINUTE % 60;
    ts - ts % (60 * MINUTE) + minuteOfHour / target.Minutes() * target.Minutes() * MINUTE
  }

  /** Buckets tile time: each is Width long, and a timestamp belongs to the one around it. */
  lemma BucketsTile(ts: int, target: Target)
    ensures var start := FloorToBucket(ts, target);
      start <= ts < start + target.Width() && start % target.Width() == 0
  {
    var minutes, b := ts / MINUTE, target.Minutes();
    var hours, m := minutes / 60, minutes % 60;
    assert ts - ts % (60 * MINUTE) == hours * 60 * MINUTE by {
      assert ts / (60 * MINUTE) == hours;
    }
    assert FloorToBucket(ts, target) == (hours * (60 / b) + m / b) * target.Width();
  }

  lemma SameBucket(a: int, b: int, target: Target)
    requires a <= b
    ensures FloorToBucket(a, target) <= FloorToBucket(b, target)
    ensures b < a + target.Width() ==>
      FloorToBucket(b, target) == FloorToBucket(a, target)
      || FloorToBucket(b, target) == FloorToBucket(a, target) + target.Width()
  {
    BucketsTile(a, target);
    BucketsTile(b, target);
    hide FloorToBucket;
  }

  function Time(b: Bar): real {
    b.ts as real
  }

  ghost predicate InOrder(bars: seq<Bar>) {
    forall i, j :: 0 <= i < j < |bars| ==> bars[i].ts <= bars[j].ts
  }

  ghost predicate OneSymbol(bars: seq<Bar>) {
    forall b :: b in bars ==> b.symbol == bars[0].symbol
  }

  function Volume(bars: seq<Bar>): real {
    if |bars| == 0 then 0.0 else Volume(bars[..|bars| - 1]) + bars[|bars| - 1].volume
  }

  // ---------- gap fill ----------

  /** A flat bar without volume. */
  function Flat(symbol: string, ts: int, px: real): Bar {
    Bar(symbol, "1m", ts, px, px, px, px, 0.0)
  }

  function Missing(prev: Bar, bar: Bar): nat {
    var n := (bar.ts - prev.ts) / MINUTE - 1;
    if n < 0 then 0 else n
  }

  function Fillers(prev: Bar, n: nat): seq<Bar> {
    seq(n, i => Flat(prev.symbol, prev.ts + (i + 1) * MINUTE, prev.close))
  }

  /** The bars, with the whole minutes missing between neighbours filled in. */
  function Filled(bars: seq<Bar>): seq<Bar> {
    if |bars| == 0 then []
    else
      var rest, bar := bars[..|bars| - 1], bars[|bars| - 1];
      if |rest| == 0 then [bar]
      else Filled(rest) + Fillers(rest[|rest| - 1], Missing(rest[|rest| - 1], bar)) + [bar]
  }

  method FillGaps(bars: seq<Bar>) returns (out: seq<Bar>)
    ensures out == Filled(bars)
  {
    out := [];
    var prev: Option<Bar> := None;
    for k := 0 to |bars|
      invariant out == Filled(bars[..k])
      invariant prev == if k == 0 then None else Some(bars[k - 1])
    {
      var bar := bars[k];
      ghost var before := out;
      assert bars[..k + 1][..k] == bars[..k];
      if prev.Some? {
        var missing := (bar.ts - prev.value.ts) / MINUTE - 1;
        for i := 0 to if missing < 0 then 0 else missing
          invariant out == before + Fillers(prev.value, i)
        {
          var ts := prev.value.ts + (i + 1) * MINUTE;
          var px := prev.value.close;
          out := out + [Bar(prev.value.symbol, "1m", ts, px, px, px, px, 0.0)];
        }
      }
      out := out + [bar];
      prev := Some(bar);
    }
    assert bars[..|bars|] == bars;
  }

  /** A bar that gap fill made up between two neighbours. */
  ghost predicate IsFiller(x: Bar, prev: Bar, next: Bar) {
    prev.ts < x.ts < next.ts && x == Flat(prev.symbol, x.ts, prev.close)
  }

  /** Neighbours of the filled stream are in order and less than two minutes apart. */
  ghost predicate Close(bars: seq<Bar>) {
    forall i :: 0 < i < |bars| ==> bars[i - 1].ts <= bars[i].ts < bars[i - 1].ts + 2 * MINUTE
  }

  lemma FillersFit(prev: Bar, bar: Bar, i: int)
    requires prev.ts <= bar.ts && 0 <= i < Missing(prev, bar)
    ensures var x := Fillers(prev, Missing(prev, bar))[i];
      IsFiller(x, prev, bar) && x.ts == prev.ts + (i + 1) * MINUTE
  {
  }

  lemma {:induction false} FillersVolume(prev: Bar, n: nat)
    ensures Volume(Fillers(prev, n)) == 0.0
  {
    if n > 0 {
      FillersVolume(prev, n - 1);
      assert Fillers(prev, n)[..n - 1] == Fillers(prev, n - 1);
    }
  }

  lemma {:induction false} VolumeConcat(a: seq<Bar>, b: seq<Bar>)
    ensures Volume(a + b) == Volume(a) + Volume(b)
  {
    if |b| == 0 {
      assert a + b == a;
    } else {
      VolumeConcat(a, b[..|b| - 1]);
      assert (a + b)[..|a + b| - 1] == a + b[..|b| - 1];
    }
  }

  lemma FillersLength(prev: Bar, n: nat)
    ensures |Fillers(prev, n)| == n
  {
  }

  lemma VolumeOfOne(bar: Bar)
    ensures Volume([bar]) == bar.volume
  {
    assert [bar][..0] == [];
  }

  lemma OneIsClose(bars: seq<Bar>)
    requires |bars| == 1
    ensures Close(bars) && bars == [bars[0]]
  {
  }

  /** What gap fill does: ends kept, no gap of two minutes left, every bar kept, everything else
      a flat bar at the last close before it, and no volume added. */
  lemma {:induction false} FilledIsDense(bars: seq<Bar>)
    requires InOrder(bars) && |bars| > 0
    ensures var s := Filled(bars);
      && |s| > 0 && s[0] == bars[0] && s[|s| - 1] == bars[|bars| - 1] && Close(s)
      && Volume(s) == Volume(bars)
  {
    hide Fillers, Missing, Close, Volume;
    VolumeOfOne(bars[0]);
    var n := |bars| - 1;
    if n == 0 {
      OneIsClose(bars);
    } else {
      var rest, prev, bar := bars[..n], bars[n - 1], bars[n];
      FilledIsDense(rest);
      var m := Missing(prev, bar);
      var s, f := Filled(rest), Fillers(prev, m);
      FillersLength(prev, m);
      forall i | 0 <= i < m ensures f[i].ts == prev.ts + (i + 1) * MINUTE {
        FillersFit(prev, bar, i);
      }
      JoinClose(s, f, bar);
      FillersVolume(prev, m);
      VolumeConcat(s, f);
      VolumeConcat(s + f, [bar]);
      VolumeConcat(rest, [bar]);
      VolumeOfOne(bar);
      assert bars == rest + [bar];
    }
  }

  lemma JoinClose(s: seq<Bar>, f: seq<Bar>, bar: Bar)
    requires |s| > 0 && Close(s) && s[|s| - 1].ts <= bar.ts
    requires forall i :: 0 <= i < |f| ==> f[i].ts == s[|s| - 1].ts + (i + 1) * MINUTE
    requires |f| == Missing(s[|s| - 1], bar)
    ensures Close(s + f + [bar])
  {
    var all := s + f + [bar];
    forall i | 0 < i < |all| ensures all[i - 1].ts <= all[i].ts < all[i - 1].ts + 2 * MINUTE {
      if i < |s| {
        assert all[i] == s[i] && all[i - 1] == s[i - 1];
      } else if i == |s| {
        assert all[i - 1] == s[|s| - 1];
      } else {
        assert all[i - 1] == f[i - 1 - |s|];
      }
    }
  }

  lemma {:induction false} FilledMembers(bars: seq<Bar>, x: Bar)
    requires InOrder(bars)
    ensures x in bars ==> x in Filled(bars)
    ensures x in Filled(bars) ==> x in bars || exists j :: 0 <= j < |bars| - 1 && IsFiller(x, bars[j], bars[j + 1])
  {
    var n := |bars| - 1;
    if n > 0 {
      var rest, prev, bar := bars[..n], bars[n - 1], bars[n];
      FilledMembers(rest, x);
      assert x in bars <==> x in rest || x == bar;
      var f := Fillers(prev, Missing(prev, bar));
      if x in f {
        var i :| 0 <= i < |f| && f[i] == x;
        FillersFit(prev, bar, i);
        assert IsFiller(x, bars[n - 1], bars[n]);
      }
      if x in Filled(rest) && x !in rest {
        var j :| 0 <= j < |rest| - 1 && IsFiller(x, rest[j], rest[j + 1]);
        assert IsFiller(x, bars[j], bars[j + 1]);
      }
    }
  }

  // ---------- the streaming pass ----------

  function Opened(bar: Bar, target: Target): Bar {
    Bar(bar.symbol, target.Name(), FloorToBucket(bar.ts, target), bar.open, Max(bar.open, bar.high),
        Min(bar.open, bar.low), bar.close, bar.volume)
  }

  function Extended(agg: Bar, bar: Bar): Bar {
    agg.(high := Max(agg.high, bar.high), low := Min(agg.low, bar.low), close := bar.close,
         volume := agg.volume + bar.volume)
  }

  /** The bars built after a prefix of the stream, the last one still open. */
  function Streamed(stream: seq<Bar>, target: Target): (out: seq<Bar>)
    ensures |stream| > 0 ==> |out| > 0
  {
    if |stream| == 0 then []
    else
      var out, bar := Streamed(stream[..|stream| - 1], target), stream[|stream| - 1];
      var last := |out| - 1;
      if |out| > 0 && out[last].ts == FloorToBucket(bar.ts, target) then out[..last] + [Extended(out[last], bar)]
      else out + [Opened(bar, target)]
  }

  lemma {:induction false} StreamedSymbol(stream: seq<Bar>, target: Target)
    requires OneSymbol(stream)
    ensures forall b :: b in Streamed(stream, target)
              ==> |stream| > 0 && b.symbol == stream[0].symbol && b.timeframe == target.Name()
  {
    if |stream| > 0 {
      var n := |stream| - 1;
      assert forall b :: b in stream[..n] ==> b in stream;
      StreamedSymbol(stream[..n], target);
      assert stream[n] in stream;
      var out := Streamed(stream[..n], target);
      assert forall b :: b in out[..if |out| == 0 then 0 else |out| - 1] ==> b in out;
      assert |out| > 0 ==> out[|out| - 1] in out;
    }
  }

  lemma NothingStreamed(stream: seq<Bar>, target: Target)
    ensures Streamed(stream[..0], target) == []
  {
  }

  lemma AllOneSymbol(bars: seq<Bar>)
    requires OneSymbol(bars)
    ensures forall i :: 0 <= i < |bars| ==> bars[i].symbol == bars[0].symbol
  {
  }

  /** What one more bar does to what was built, the bar `current` being the open one. */
  lemma StreamedNext(stream: seq<Bar>, k: nat, target: Target, out: seq<Bar>, current: Bar)
    requires k < |stream|
    ensures k == 0 ==> Streamed(stream[..k + 1], target) == [Opened(stream[k], target)]
    ensures Streamed(stream[..k], target) == out + [current] ==>
      Streamed(stream[..k + 1], target) ==
        if current.ts == FloorToBucket(stream[k].ts, target) then out + [Extended(current, stream[k])]
        else out + [current] + [Opened(stream[k], target)]
  {
    hide FloorToBucket, Opened, Extended;
    assert stream[..k + 1][..k] == stream[..k];
    if Streamed(stream[..k], target) == out + [current] {
      assert (out + [current])[..|out|] == out;
    }
  }

  /** `_aggregate_stream`. */
  method AggregateStream(stream: seq<Bar>, target: Target) returns (out: seq<Bar>)
    requires OneSymbol(stream)
    ensures out == Streamed(stream, target)
  {
    hide FloorToBucket, Max, Min, OneSymbol, Streamed;
    AllOneSymbol(stream);
    NothingStreamed(stream, target);
    out := [];
    var currentStart: Option<int> := None;
    var currentSymbol := "";
    var o, h, l, c, v := 0.0, 0.0, 0.0, 0.0, 0.0;
    for k := 0 to |stream|
      invariant currentStart.Some? <==> k > 0
      invariant currentStart.Some? ==> currentSymbol == stream[0].symbol
      invariant Streamed(stream[..k], target) ==
        if currentStart.None? then out
        else out + [Bar(currentSymbol, target.Name(), currentStart.value, o, h, l, c, v)]
      invariant currentStart.None? ==> out == []
    {
      var bar := stream[k];
      assert bar.symbol == stream[0].symbol;
      StreamedNext(stream, k, target, out,
                   Bar(currentSymbol, target.Name(), if k == 0 then 0 else currentStart.value, o, h, l, c, v));
      var bucketStart := FloorToBucket(bar.ts, target);
      if currentStart == Some(bucketStart) {
        h, l, c, v := Max(h, bar.high), Min(l, bar.low), bar.close, v + bar.volume;
      } else {
        if currentStart.Some? {
          var symbol := if currentSymbol != "" then currentSymbol else bar.symbol;
          out := out + [Bar(symbol, target.Name(), currentStart.value, o, h, l, c, v)];
        }
        currentStart, currentSymbol := Some(bucketStart), bar.symbol;
        o, h, l, c, v := bar.open, Max(bar.open, bar.high), Min(bar.open, bar.low), bar.close, bar.volume;
      }
    }
    if currentStart.Some? {
      out := out + [Bar(currentSymbol, target.Name(), currentStart.value, o, h, l, c, v)];
    }
    assert stream[..|stream|] == stream;
  }

  // ---------- the group-by specification ----------

  function InBucket(target: Target, start: int): Bar -> bool {
    (b: Bar) => FloorToBucket(b.ts, target) == start
  }

  /** The bars of one bucket, in stream order. */
  function Group(stream: seq<Bar>, target: Target, start: int): seq<Bar> {
    Filter(stream, InBucket(target, start))
  }

  /** One bar summing up a group: first open, last close, the highest and lowest price, all the
      volume. */
  ghost predicate Summarizes(out: Bar, group: seq<Bar>, target: Target) {
    && |group| > 0
    && out.symbol == group[0].symbol && out.timeframe == target.Name()
    && out.open == group[0].open && out.close == group[|group| - 1].close && out.volume == Volume(group)
    && IsHighest(out.high, group) && IsLowest(out.low, group)
  }

  ghost predicate IsHighest(x: real, group: seq<Bar>)
    requires |group| > 0
  {
    && (forall b :: b in group ==> b.high <= x) && group[0].open <= x
    && (x == group[0].open || exists b :: b in group && b.high == x)
  }

  ghost predicate IsLowest(x: real, group: seq<Bar>)
    requires |group| > 0
  {
    && (forall b :: b in group ==> x <= b.low) && x <= group[0].open
    && (x == group[0].open || exists b :: b in group && b.low == x)
  }

  ghost predicate Increasing(out: seq<Bar>) {
    forall i, j :: 0 <= i < j < |out| ==> out[i].ts < out[j].ts
  }

  /** One bar for each bucket that has bars, in time order, summing up the bucket's bars. */
  ghost predicate IsGroupBy(out: seq<Bar>, stream: seq<Bar>, target: Target) {
    && Increasing(out)
    && (forall b :: b in stream ==> exists a :: a in out && a.ts == FloorToBucket(b.ts, target))
    && forall a :: a in out ==> Summarizes(a, Group(stream, target, a.ts), target)
  }

  lemma OpenedSummarizes(bar: Bar, target: Target)
    ensures Summarizes(Opened(bar, target), [bar], target)
  {
    VolumeOfOne(bar);
    assert bar in [bar];
  }

  lemma ExtendedSummarizes(a: Bar, group: seq<Bar>, bar: Bar, target: Target)
    requires Summarizes(a, group, target)
    ensures Summarizes(Extended(a, bar), group + [bar], target)
  {
    assert (group + [bar])[..|group|] == group;
    var longer := group + [bar];
    assert forall b :: b in longer <==> b in group || b == bar;
  }

  lemma GroupExtends(stream: seq<Bar>, bar: Bar, target: Target, start: int)
    ensures Group(stream + [bar], target, start) ==
      if FloorToBucket(bar.ts, target) == start
        then Group(stream, target, start) + [bar] else Group(stream, target, start)
  {
    FilterSnoc(stream, bar, InBucket(target, start));
  }

  lemma HeadIsMember(bars: seq<Bar>)
    ensures |bars| > 0 ==> bars[0] in bars
  {
  }

  lemma EmptyGroup(stream: seq<Bar>, target: Target, start: int)
    requires forall b :: b in stream ==> FloorToBucket(b.ts, target) != start
    ensures Group(stream, target, start) == []
  {
    HeadIsMember(Group(stream, target, start));
  }

  /** What the pass has after a prefix: a group-by whose last bar is the current bucket's. */
  ghost predicate Progress(out: seq<Bar>, stream: seq<Bar>, target: Target) {
    && IsGroupBy(out, stream, target)
    && (|stream| > 0 ==> |out| > 0 && out[|out| - 1].ts == FloorToBucket(stream[|stream| - 1].ts, target))
    && (|stream| == 0 ==> |out| == 0)
  }

  lemma BarExtends(out: seq<Bar>, stream: seq<Bar>, bar: Bar, target: Target)
    requires Progress(out, stream, target) && |stream| > 0
    requires FloorToBucket(bar.ts, target) == out[|out| - 1].ts
    ensures Progress(out[..|out| - 1] + [Extended(out[|out| - 1], bar)], stream + [bar], target)
  {
    hide FloorToBucket, Summarizes, Group;
    var last := |out| - 1;
    var now := out[..last] + [Extended(out[last], bar)];
    assert forall i :: 0 <= i < |out| ==> now[i].ts == out[i].ts;
    forall b | b in stream + [bar] ensures exists a :: a in now && a.ts == FloorToBucket(b.ts, target) {
      if b in stream {
        var a :| a in out && a.ts == FloorToBucket(b.ts, target);
        var i :| 0 <= i < |out| && out[i] == a;
        assert now[i] in now;
      } else {
        assert now[last] in now;
      }
    }
    forall a | a in now ensures Summarizes(a, Group(stream + [bar], target, a.ts), target) {
      GroupExtends(stream, bar, target, a.ts);
      var i :| 0 <= i < |now| && now[i] == a;
      assert out[i] in out;
      if i == last {
        ExtendedSummarizes(out[last], Group(stream, target, a.ts), bar, target);
      }
    }
  }

  lemma BarOpens(out: seq<Bar>, stream: seq<Bar>, bar: Bar, target: Target)
    requires Progress(out, stream, target) && (|out| > 0 ==> out[|out| - 1].ts < FloorToBucket(bar.ts, target))
    ensures Progress(out + [Opened(bar, target)], stream + [bar], target)
  {
    hide FloorToBucket, Summarizes, Group;
    var start := FloorToBucket(bar.ts, target);
    var now := out + [Opened(bar, target)];
    assert now[|out|] in now;
    forall b | b in stream ensures FloorToBucket(b.ts, target) != start {
      var a :| a in out && a.ts == FloorToBucket(b.ts, target);
      var i :| 0 <= i < |out| && out[i] == a;
      assert out[i].ts <= out[|out| - 1].ts;
    }
    EmptyGroup(stream, target, start);
    OpenedSummarizes(bar, target);
    forall b | b in stream + [bar] ensures exists a :: a in now && a.ts == FloorToBucket(b.ts, target) {
      if b in stream {
        var a :| a in out && a.ts == FloorToBucket(b.ts, target);
        assert a in now;
      }
    }
    forall a | a in now ensures Summarizes(a, Group(stream + [bar], target, a.ts), target) {
      GroupExtends(stream, bar, target, a.ts);
      assert [] + [bar] == [bar];
      if a in out {
        var i :| 0 <= i < |out| && out[i] == a;
        assert out[i].ts <= out[|out| - 1].ts;
      }
    }
  }

  /** The streaming pass computes the group-by of every stream in time order. */
  lemma {:induction false} StreamedIsGroupBy(stream: seq<Bar>, target: Target)
    requires InOrder(stream)
    ensures Progress(Streamed(stream, target), stream, target)
  {
    hide FloorToBucket, Summarizes, Group;
    if |stream| > 0 {
      var n := |stream| - 1;
      StreamedIsGroupBy(stream[..n], target);
      var out := Streamed(stream[..n], target);
      assert stream == stream[..n] + [stream[n]];
      if n > 0 {
        SameBucket(stream[n - 1].ts, stream[n].ts, target);
      }
      if n > 0 && out[|out| - 1].ts == FloorToBucket(stream[n].ts, target) {
        BarExtends(out, stream[..n], stream[n], target);
      } else {
        BarOpens(out, stream[..n], stream[n], target);
      }
    }
  }

  lemma SummaryUnique(a: Bar, b: Bar, group: seq<Bar>, target: Target)
    requires Summarizes(a, group, target) && Summarizes(b, group, target) && a.ts == b.ts
    ensures a == b
  {
  }

  /** There is only one group-by: the relation determines its result. */
  lemma GroupByUnique(out: seq<Bar>, other: seq<Bar>, stream: seq<Bar>, target: Target)
    requires IsGroupBy(out, stream, target) && IsGroupBy(other, stream, target)
    ensures out == other
  {
    hide FloorToBucket, Summarizes;
    forall a | a in out ensures a in other {
      GroupByIncludes(out, other, stream, target, a);
    }
    forall a | a in other ensures a in out {
      GroupByIncludes(other, out, stream, target, a);
    }
    hide IsGroupBy;
    IncreasingUnique(out, other);
  }

  lemma GroupByIncludes(out: seq<Bar>, other: seq<Bar>, stream: seq<Bar>, target: Target, a: Bar)
    requires IsGroupBy(out, stream, target) && IsGroupBy(other, stream, target) && a in out
    ensures a in other
  {
    var group := Group(stream, target, a.ts);
    assert group[0] in group;
    var b :| b in other && b.ts == FloorToBucket(group[0].ts, target);
    SummaryUnique(a, b, group, target);
  }

  lemma {:induction false} IncreasingUnique(a: seq<Bar>, b: seq<Bar>)
    requires Increasing(a) && Increasing(b)
    requires (forall x :: x in a ==> x in b) && forall x :: x in b ==> x in a
    ensures a == b
  {
    HeadIsMember(b);
    if |a| > 0 {
      var m, n := |a| - 1, |b| - 1;
      assert a[m] in b && (n >= 0 ==> b[n] in a);
      assert a[m] == b[n];
      forall x | x in a[..m] ensures x in b[..n] {
        assert x in a && x.ts < a[m].ts;
      }
      forall x | x in b[..n] ensures x in a[..m] {
        assert x in b && x.ts < b[n].ts;
      }
      IncreasingUnique(a[..m], b[..n]);
    }
  }

  // ---------- what aggregation promises ----------

  /** No volume is lost or made up. */
  lemma {:induction false} StreamedVolume(stream: seq<Bar>, target: Target)
    ensures Volume(Streamed(stream, target)) == Volume(stream)
  {
    hide FloorToBucket;
    if |stream| > 0 {
      var n := |stream| - 1;
      StreamedVolume(stream[..n], target);
      var out, bar := Streamed(stream[..n], target), stream[n];
      VolumeConcat(out, [Opened(bar, target)]);
      VolumeOfOne(Opened(bar, target));
      if |out| > 0 {
        var last := |out| - 1;
        VolumeConcat(out[..last], [Extended(out[last], bar)]);
        VolumeOfOne(Extended(out[last], bar));
      }
    }
  }

  ghost predicate AllValid(bars: seq<Bar>) {
    forall b :: b in bars ==> b.Valid()
  }

  /** Bars whose prices are consistent aggregate to bars whose prices are consistent. */
  lemma {:induction false} StreamedValid(stream: seq<Bar>, target: Target)
    requires AllValid(stream)
    ensures AllValid(Streamed(stream, target))
  {
    hide FloorToBucket;
    if |stream| > 0 {
      var n := |stream| - 1;
      StreamedValid(stream[..n], target);
      assert stream[n] in stream;
      var out := Streamed(stream[..n], target);
      if |out| > 0 {
        assert out[|out| - 1] in out;
        assert forall b :: b in out[..|out| - 1] ==> b in out;
      }
    }
  }

  /** Consecutive buckets follow each other without a hole. */
  ghost predicate Contiguous(out: seq<Bar>, target: Target) {
    forall k :: 0 < k < |out| ==> out[k].ts == out[k - 1].ts + target.Width()
  }

  lemma ContiguousExtends(out: seq<Bar>, x: Bar, target: Target)
    requires Contiguous(out, target)
    ensures |out| == 0 || x.ts == out[|out| - 1].ts + target.Width() ==> Contiguous(out + [x], target)
    ensures |out| > 0 && x.ts == out[|out| - 1].ts ==> Contiguous(out[..|out| - 1] + [x], target)
  {
    hide Target.Width;
  }

  lemma {:induction false} StreamedContiguous(stream: seq<Bar>, target: Target)
    requires InOrder(stream) && Close(stream)
    ensures Contiguous(Streamed(stream, target), target)
  {
    hide FloorToBucket, IsGroupBy, Contiguous, Target.Width;
    if |stream| == 0 {
      EmptyContiguous(target);
    } else {
      var n := |stream| - 1;
      var before, bar := stream[..n], stream[n];
      StreamedContiguous(before, target);
      StreamedIsGroupBy(before, target);
      var out := Streamed(before, target);
      ContiguousExtends(out, Opened(bar, target), target);
      if n > 0 {
        ContiguousExtends(out, Extended(out[|out| - 1], bar), target);
        Neighbours(stream[n - 1], bar, target);
      }
    }
  }

  lemma EmptyContiguous(target: Target)
    ensures Contiguous([], target)
  {
  }

  lemma Neighbours(prev: Bar, bar: Bar, target: Target)
    requires prev.ts <= bar.ts < prev.ts + 2 * MINUTE
    ensures FloorToBucket(bar.ts, target) == FloorToBucket(prev.ts, target)
      || FloorToBucket(bar.ts, target) == FloorToBucket(prev.ts, target) + target.Width()
  {
    hide FloorToBucket;
    SameBucket(prev.ts, bar.ts, target);
  }

  lemma {:induction false} CloseInOrder(bars: seq<Bar>)
    requires Close(bars)
    ensures InOrder(bars)
  {
    var n := |bars| - 1;
    if n > 0 {
      CloseInOrder(bars[..n]);
      assert bars[..n][n - 1] == bars[n - 1] && bars[n - 1].ts <= bars[n].ts;
      assert forall i :: 0 <= i < n ==> bars[..n][i] == bars[i];
    }
  }

  lemma {:induction false} ContiguousAt(out: seq<Bar>, target: Target, k: nat)
    requires Contiguous(out, target) && k < |out|
    ensures out[k].ts == out[0].ts + k * target.Width()
  {
    if k > 0 {
      ContiguousAt(out, target, k - 1);
    }
  }

  /** With gap fill, every bucket from the first bar's to the last bar's has its bar: the k-th
      bar starts k bucket widths after the first. */
  lemma NoBucketMissing(bars: seq<Bar>, target: Target)
    requires InOrder(bars) && |bars| > 0
    ensures var out := Streamed(Filled(bars), target);
      && |out| > 0 && out[0].ts == FloorToBucket(bars[0].ts, target)
      && out[|out| - 1].ts == FloorToBucket(bars[|bars| - 1].ts, target)
      && forall k :: 0 <= k < |out| ==> out[k].ts == out[0].ts + k * target.Width()
  {
    hide FloorToBucket, Filled, Close, IsGroupBy;
    var stream := Filled(bars);
    FilledIsDense(bars);
    CloseInOrder(stream);
    var out := Streamed(stream, target);
    StreamedIsGroupBy(stream, target);
    StreamedContiguous(stream, target);
    StreamedFirst(stream, target);
    forall k | 0 <= k < |out| ensures out[k].ts == out[0].ts + k * target.Width() {
      ContiguousAt(out, target, k);
    }
  }

  lemma {:induction false} StreamedFirst(stream: seq<Bar>, target: Target)
    requires |stream| > 0
    ensures |Streamed(stream, target)| > 0 && Streamed(stream, target)[0].ts == FloorToBucket(stream[0].ts, target)
  {
    hide FloorToBucket;
    if |stream| > 1 {
      StreamedFirst(stream[..|stream| - 1], target);
    }
  }

  lemma FilledKeepsSymbolAndValidity(bars: seq<Bar>)
    requires InOrder(bars) && OneSymbol(bars)
    ensures OneSymbol(Filled(bars))
    ensures AllValid(bars) ==> AllValid(Filled(bars))
  {
    if |bars| > 0 {
      FilledIsDense(bars);
      hide Filled;
      forall x | x in Filled(bars) ensures x.symbol == bars[0].symbol && (AllValid(bars) ==> x.Valid()) {
        FilledMembers(bars, x);
        assert forall j :: 0 <= j < |bars| ==> bars[j] in bars;
      }
    }
  }

  /** A bucket without any bar of its own is flat at the last close before it, without volume. */
  lemma EmptyBucketCarriesClose(bars: seq<Bar>, target: Target, a: Bar)
    requires InOrder(bars) && |bars| > 0 && a in Streamed(Filled(bars), target)
    requires forall b :: b in bars ==> FloorToBucket(b.ts, target) != a.ts
    ensures exists j :: 0 <= j < |bars| - 1 && CarriesClose(a, bars[j], bars[j + 1], target)
  {
    hide FloorToBucket, Filled, Streamed, Close, Summarizes, IsFiller, Group;
    var stream := Filled(bars);
    FilledIsDense(bars);
    CloseInOrder(stream);
    StreamedIsGroupBy(stream, target);
    var group := Group(stream, target, a.ts);
    GroupNotEmpty(a, group, target);
    var j := GroupIsFlat(bars, target, a.ts);
    FillersAreFlat(group, bars[j], bars[j + 1]);
    SummaryOfFlat(a, group, bars[j].close, target);
  }

  /** Flat at the close of the bar before the bucket, the next bar coming only after it. */
  ghost predicate CarriesClose(a: Bar, prev: Bar, next: Bar, target: Target) {
    && prev.ts < a.ts && a.ts + target.Width() <= next.ts
    && a.open == a.high == a.low == a.close == prev.close && a.volume == 0.0
  }

  lemma GroupIsFlat(bars: seq<Bar>, target: Target, start: int) returns (j: nat)
    requires InOrder(bars) && |Group(Filled(bars), target, start)| > 0
    requires forall b :: b in bars ==> FloorToBucket(b.ts, target) != start
    ensures j < |bars| - 1 && bars[j].ts < start && start + target.Width() <= bars[j + 1].ts
    ensures forall x :: x in Group(Filled(bars), target, start) ==> IsFiller(x, bars[j], bars[j + 1])
  {
    hide FloorToBucket, Filled, IsFiller;
    var group := Group(Filled(bars), target, start);
    assert group[0] in group;
    FilledMembers(bars, group[0]);
    j :| 0 <= j < |bars| - 1 && IsFiller(group[0], bars[j], bars[j + 1]);
    BetweenBuckets(bars, target, start, group[0], j);
    forall x | x in group ensures IsFiller(x, bars[j], bars[j + 1]) {
      FilledMembers(bars, x);
      var i :| 0 <= i < |bars| - 1 && IsFiller(x, bars[i], bars[i + 1]);
      BetweenBuckets(bars, target, start, x, i);
      SameGap(bars, i, j);
    }
  }

  lemma FillersAreFlat(group: seq<Bar>, prev: Bar, next: Bar)
    requires forall x :: x in group ==> IsFiller(x, prev, next)
    ensures forall x :: x in group ==> x == Flat(x.symbol, x.ts, prev.close)
  {
  }

  lemma GroupNotEmpty(a: Bar, group: seq<Bar>, target: Target)
    requires Summarizes(a, group, target)
    ensures |group| > 0
  {
  }

  lemma SummaryOfFlat(a: Bar, group: seq<Bar>, px: real, target: Target)
    requires Summarizes(a, group, target)
    requires forall x :: x in group ==> x == Flat(x.symbol, x.ts, px)
    ensures a.open == a.high == a.low == a.close == px && a.volume == 0.0
  {
    assert group[0] in group && group[|group| - 1] in group;
    FlatVolume(group);
  }

  lemma BetweenBuckets(bars: seq<Bar>, target: Target, start: int, x: Bar, j: nat)
    requires InOrder(bars) && j < |bars| - 1 && IsFiller(x, bars[j], bars[j + 1])
    requires FloorToBucket(x.ts, target) == start
    requires forall b :: b in bars ==> FloorToBucket(b.ts, target) != start
    ensures bars[j].ts < start && start + target.Width() <= bars[j + 1].ts
  {
    BucketsTile(x.ts, target);
    BucketsTile(bars[j].ts, target);
    BucketsTile(bars[j + 1].ts, target);
    hide FloorToBucket;
    assert bars[j] in bars && bars[j + 1] in bars;
    SameBucket(bars[j].ts, x.ts, target);
    SameBucket(x.ts, bars[j + 1].ts, target);
  }

  lemma SameGap(bars: seq<Bar>, i: nat, j: nat)
    requires InOrder(bars) && i < |bars| - 1 && j < |bars| - 1
    requires bars[i].ts < bars[j + 1].ts && bars[j].ts < bars[i + 1].ts
    ensures i == j
  {
  }

  lemma {:induction false} FlatVolume(group: seq<Bar>)
    requires forall x :: x in group ==> x.volume == 0.0
    ensures Volume(group) == 0.0
  {
    if |group| > 0 {
      assert group[|group| - 1] in group;
      FlatVolume(group[..|group| - 1]);
    }
  }

  lemma {:induction false} InsertKeepsVolume(xs: seq<Bar>, x: Bar)
    ensures Volume(Insert(xs, x, Time)) == Volume(xs) + x.volume
  {
    var n := |xs| - 1;
    if n >= 0 && Time(xs[n]) > Time(x) {
      InsertKeepsVolume(xs[..n], x);
      VolumeConcat(Insert(xs[..n], x, Time), [xs[n]]);
      VolumeOfOne(xs[n]);
    } else {
      VolumeConcat(xs, [x]);
      VolumeOfOne(x);
    }
  }

  lemma {:induction false} SortKeepsVolume(xs: seq<Bar>)
    ensures Volume(StableSort(xs, Time)) == Volume(xs)
  {
    if |xs| > 0 {
      SortKeepsVolume(xs[..|xs| - 1]);
      InsertKeepsVolume(StableSort(xs[..|xs| - 1], Time), xs[|xs| - 1]);
    }
  }

  lemma SortedInOrder(bars: seq<Bar>)
    ensures InOrder(StableSort(bars, Time)) && |StableSort(bars, Time)| == |bars|
    ensures forall b :: b in StableSort(bars, Time) <==> b in bars
  {
    hide StableSort;
    SortSorts(bars, Time);
    var s := StableSort(bars, Time);
    forall i, j | 0 <= i < j < |s| ensures s[i].ts <= s[j].ts {
      assert Time(s[i]) <= Time(s[j]);
    }
  }

  // ---------- the object ----------

  class BarAggregator {
    const gapFill: bool

    constructor (gapFill: bool)
      ensures this.gapFill == gapFill
    {
      this.gapFill := gapFill;
    }

    /** Minute bars of one symbol aggregate to the group-by of their time-ordered, possibly
        gap-filled stream, with all the volume, to bars of that symbol and of the target's
        timeframe; anything else is refused. Bars of one timestamp keep their order, which decides
        the opening and closing price. */
    method Aggregate(bars: seq<Bar>, target: Target) returns (r: Result<seq<Bar>, Error>)
      ensures r.Ok? <==> forall b :: b in bars ==> b.timeframe == "1m" && b.symbol == bars[0].symbol
      ensures r.Err? && (forall b :: b in bars ==> b.timeframe == "1m") ==> r.error == MixedSymbols
      ensures r.Err? && (forall b, c :: b in bars && c in bars ==> b.symbol == c.symbol) ==> r.error == NotOneMinute
      ensures r.Ok? ==>
        var sorted := StableSort(bars, Time);
        && IsGroupBy(r.value, if gapFill then Filled(sorted) else sorted, target)
        && Volume(r.value) == Volume(bars)
        && (AllValid(bars) ==> AllValid(r.value))
        && (forall b :: b in r.value ==> b.symbol == bars[0].symbol && b.timeframe == target.Name())
        && (forall ts :: Filter(sorted, HasKey(Time, ts)) == Filter(bars, HasKey(Time, ts)))
    {
      hide StableSort, Filled, Streamed, FloorToBucket, IsGroupBy, Close, Filter;
      var sorted := StableSort(bars, Time);
      SortedInOrder(bars);
      SortKeepsVolume(bars);
      SymbolOfSorted(bars, sorted);
      TiesKept(bars);
      if |sorted| == 0 {
        EmptyGroupBy(target);
        return Ok([]);
      }
      var error := ValidateOneMinuteBars(sorted);
      if error.Some? {
        return Err(error.value);
      }
      FilledKeepsSymbolAndValidity(sorted);
      FilledIsDense(sorted);
      CloseInOrder(Filled(sorted));
      var stream := sorted;
      if gapFill {
        stream := FillGaps(sorted);
      }
      var out := AggregateStream(stream, target);
      StreamedIsGroupBy(stream, target);
      StreamedVolume(stream, target);
      StreamedSymbol(stream, target);
      if AllValid(stream) {
        StreamedValid(stream, target);
      }
      r := Ok(out);
    }

    /** The first bar in time order that is not a minute bar of the first one's symbol. */
    method ValidateOneMinuteBars(bars: seq<Bar>) returns (error: Option<Error>)
      requires |bars| > 0
      ensures error.None? <==> forall b :: b in bars ==> b.timeframe == "1m" && b.symbol == bars[0].symbol
      ensures error.Some? ==> exists k ::
        && 0 <= k < |bars|
        && (forall i :: 0 <= i < k ==> bars[i].timeframe == "1m" && bars[i].symbol == bars[0].symbol)
        && (if bars[k].timeframe != "1m" then error.value == NotOneMinute
            else bars[k].symbol != bars[0].symbol && error.value == MixedSymbols)
    {
      for k := 0 to |bars|
        invariant forall i :: 0 <= i < k ==> bars[i].timeframe == "1m" && bars[i].symbol == bars[0].symbol
      {
        assert bars[k] in bars;
        if bars[k].timeframe != "1m" {
          return Some(NotOneMinute);
        }
        if bars[k].symbol != bars[0].symbol {
          return Some(MixedSymbols);
        }
      }
      error := None;
    }
  }

  lemma EmptyGroupBy(target: Target)
    ensures IsGroupBy([], [], target) && Filled([]) == []
  {
  }

  lemma TiesKept(bars: seq<Bar>)
    ensures forall ts :: Filter(StableSort(bars, Time), HasKey(Time, ts)) == Filter(bars, HasKey(Time, ts))
  {
    forall ts ensures Filter(StableSort(bars, Time), HasKey(Time, ts)) == Filter(bars, HasKey(Time, ts)) {
      SortIsStable(bars, Time, ts);
    }
  }

  lemma SymbolOfSorted(bars: seq<Bar>, sorted: seq<Bar>)
    requires |sorted| == |bars| && forall b :: b in sorted <==> b in bars
    ensures |bars| > 0 ==> bars[0] in sorted && sorted[0] in bars
  {
  }
}
