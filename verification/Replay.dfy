/** EventReplayer of backtest/replay.py: events in time order, each asking the paper executor for
    its symbol's target. What the callback answers at each event is an arbitrary stream. */
module Replay {
  import opened Decimals
  import opened Market
  import opened Oms
  import opened Paper = PaperExecutor
  import opened RealMath
  import opened Sorting
  import opened Values

  predicate Relevant(e: Event, only: Option<string>) {
    only.None? || e.symbol == only.value
  }

  // ---------- order identifiers ----------

  function PrefixAt(prefix: string, i: nat): string {
    prefix + "-" + Decimal(i)
  }

  predicate IsLeg(leg: string) {
    leg == "-single" || leg == "-close" || leg == "-open"
  }

  /** Different event numbers make different order identifiers. */
  lemma IdsDiffer(prefix: string, i: nat, leg: string, j: nat, other: string)
    requires i != j && IsLeg(leg) && IsLeg(other)
    ensures PrefixAt(prefix, i) + leg != PrefixAt(prefix, j) + other
  {
    hide Decimal;
    if PrefixAt(prefix, i) + leg == PrefixAt(prefix, j) + other {
      DecimalHasNoDash(i);
      DecimalHasNoDash(j);
      AfterPrefix(prefix, Decimal(i), leg);
      AfterPrefix(prefix, Decimal(j), other);
      SplitAtDash(Decimal(i), leg, Decimal(j), other);
      DecimalInjective(i, j);
    }
  }

  // ---------- the replay ----------

  datatype Setting = Setting(costs: Costs, blocked: bool, only: Option<string>, prefix: string, targets: nat -> real)

  function RetargetAt(z: Setting, e: Event, n: nat, current: real): Retarget {
    Retarget(PrefixAt(z.prefix, n + 1), e.symbol, current, z.targets(n), e.close, e.ts)
  }

  /** After n of the sorted events: the executor's state, and the fills or the error raised. */
  function ReplayUpTo(z: Setting, s: State, es: seq<Event>, n: nat): (State, Result<seq<Fill>, ExecutionError>)
    requires n <= |es|
  {
    if n == 0 then (s, Ok([]))
    else
      var (s1, r) := ReplayUpTo(z, s, es, n - 1);
      var e := es[n - 1];
      if r.Err? || !Relevant(e, z.only) || s1.Position(e.symbol) == z.targets(n - 1) then (s1, r)
      else
        var (s2, legs) := MoveToTarget(z.costs, z.blocked, s1, RetargetAt(z, e, n - 1, s1.Position(e.symbol)));
        (s2, if legs.Ok? then Ok(r.value + legs.value) else legs)
  }

  class EventReplayer {
    const executor: PaperExecutor
    const symbol: Option<string>

    constructor (executor: PaperExecutor, symbol: Option<string>)
      ensures this.executor == executor && this.symbol == symbol
    {
      this.executor, this.symbol := executor, symbol;
    }

    method Run(events: seq<Event>, targets: nat -> real, prefix: string) returns (r: Result<seq<Fill>, ExecutionError>)
      requires executor.Valid()
      modifies executor, executor.oms, executor.oms.orders.Values
      ensures executor.Valid()
      ensures
        var es := StableSort(events, Time);
        var z := Setting(executor.costs, executor.IsBlocked(), symbol, prefix, targets);
        var (s, outcome) := ReplayUpTo(z, old(executor.Current()), es, |es|);
        executor.Current() == s && r == outcome
    {
      hide MoveToTarget, OMS.Contents, OMS.Valid, StableSort, Decimal, Recorded, Find;
      var es := StableSort(events, Time);
      // an error is raised out of the loop: once there is one, nothing more is executed
      ghost var z := Setting(executor.costs, executor.IsBlocked(), symbol, prefix, targets);
      r := Ok([]);
      for n := 0 to |es|
        invariant executor.Valid() && fresh(executor.oms.orders.Values - old(executor.oms.orders.Values))
        invariant
          var (s, outcome) := ReplayUpTo(z, old(executor.Current()), es, n);
          executor.Current() == s && r == outcome
        invariant executor.IsBlocked() == z.blocked
      {
        var e := es[n];
        if r.Ok? && (symbol.None? || e.symbol == symbol.value) {
          var current := executor.PositionQty(e.symbol);
          if current != targets(n) {
            var legs := executor.ExecuteToTarget(
              Retarget(prefix + "-" + Decimal(n + 1), e.symbol, current, targets(n), e.close, e.ts));
            r := if legs.Ok? then Ok(r.value + legs.value) else legs;
          }
        }
      }
    }
  }

  // ---------- what a replay achieves ----------

  /** The target of a symbol's last event among the first n; its starting position before any. */
  function Wanted(z: Setting, s: State, es: seq<Event>, n: nat, symbol: string): real
    requires n <= |es|
  {
    if n == 0 then s.Position(symbol)
    else if Relevant(es[n - 1], z.only) && es[n - 1].symbol == symbol then z.targets(n - 1)
    else Wanted(z, s, es, n - 1, symbol)
  }

  /** No identifier of an event after the first n has been used up. */
  ghost predicate UnusedFrom(s: State, prefix: string, n: nat) {
    forall i: nat, leg :: n < i && IsLeg(leg) ==> Usable(s, PrefixAt(prefix, i) + leg)
  }

  /** Event i can be traded, or asks for nothing. */
  predicate Tradable(z: Setting, s: State, es: seq<Event>, i: nat)
    requires i < |es|
  {
    var e := es[i];
    !Relevant(e, z.only) || z.targets(i) == Wanted(z, s, es, i, e.symbol) || (e.close > 0.0 && !z.blocked)
  }

  lemma BadTradeRaises(c: Costs, blocked: bool, s: State, t: Retarget)
    requires t.current != t.target && (blocked || t.mark <= 0.0)
    ensures MoveToTarget(c, blocked, s, t).1.Err?
  {
    hide Find, FillOf;
  }

  lemma MoveKeepsUsable(c: Costs, s: State, t: Retarget, id: string)
    requires id != t.prefix + "-single" && id != t.prefix + "-close" && id != t.prefix + "-open"
    ensures Usable(MoveToTarget(c, false, s, t).0, id) == Usable(s, id)
  {
    hide Execute, Usable, Retarget.SingleLeg;
    UsableElsewhere(c, s, t.Single(), id);
    var close := t.Close(s.Position(t.symbol) != 0.0);
    UsableElsewhere(c, s, close, id);
    UsableElsewhere(c, Execute(c, false, s, close).0, t.Open(), id);
  }

  lemma MoveKeepsUnused(c: Costs, s: State, t: Retarget, prefix: string, n: nat)
    requires UnusedFrom(s, prefix, n) && t.prefix == PrefixAt(prefix, n + 1)
    ensures UnusedFrom(MoveToTarget(c, false, s, t).0, prefix, n + 1)
  {
    hide MoveToTarget, Usable, PrefixAt;
    forall i: nat, leg | n + 1 < i && IsLeg(leg)
      ensures Usable(MoveToTarget(c, false, s, t).0, PrefixAt(prefix, i) + leg)
    {
      IdsDiffer(prefix, i, leg, n + 1, "-single");
      IdsDiffer(prefix, i, leg, n + 1, "-close");
      IdsDiffer(prefix, i, leg, n + 1, "-open");
      MoveKeepsUsable(c, s, t, PrefixAt(prefix, i) + leg);
    }
  }

  /** What holds of a state that a replay may continue from. */
  ghost predicate Sound(s: State, prefix: string, n: nat) {
    Inv(s) && NoCrossing(s.log) && UnusedFrom(s, prefix, n)
  }

  /** One trade of a replay. */
  lemma TradeReaches(c: Costs, s: State, t: Retarget, prefix: string, n: nat)
    requires Sound(s, prefix, n) && t.prefix == PrefixAt(prefix, n + 1)
    requires s.Position(t.symbol) == t.current && t.current != t.target && t.mark > 0.0
    ensures var (s1, r) := MoveToTarget(c, false, s, t);
      && r.Ok? && Sound(s1, prefix, n + 1) && s1.log == s.log + r.value
      && s1.Position(t.symbol) == t.target
      && forall symbol :: symbol != t.symbol ==> s1.Position(symbol) == s.Position(symbol)
  {
    hide MoveToTarget, Usable, PrefixAt, Inv, NoCrossing;
    forall id | id in LegIds(t) ensures Usable(s, id) {
      assert IsLeg("-single") && IsLeg("-close") && IsLeg("-open");
    }
    TargetReachedExactly(c, s, t);
    MoveKeepsInv(c, false, s, t);
    MoveKeepsUnused(c, s, t, prefix, n);
  }

  /** Replaying the first n events from a state whose identifiers are unused. */
  lemma {:induction false} ReplayProgress(z: Setting, s: State, es: seq<Event>, n: nat)
    requires n <= |es| && Sound(s, z.prefix, 0)
    ensures var (now, r) := ReplayUpTo(z, s, es, n);
      && (r.Ok? <==> forall i :: 0 <= i < n ==> Tradable(z, s, es, i))
      && (r.Ok? ==>
            && Sound(now, z.prefix, n) && now.log == s.log + r.value
            && forall symbol :: now.Position(symbol) == Wanted(z, s, es, n, symbol))
  {
    hide MoveToTarget, Inv, NoCrossing, UnusedFrom;
    if n > 0 {
      ReplayProgress(z, s, es, n - 1);
      var (s1, r1) := ReplayUpTo(z, s, es, n - 1);
      var e := es[n - 1];
      if r1.Ok? {
        SoundLater(s1, z.prefix, n - 1);
        var t := RetargetAt(z, e, n - 1, s1.Position(e.symbol));
        if Relevant(e, z.only) && t.current != t.target {
          if z.blocked || e.close <= 0.0 {
            BadTradeRaises(z.costs, z.blocked, s1, t);
            assert !Tradable(z, s, es, n - 1);
          } else {
            TradeReaches(z.costs, s1, t, z.prefix, n - 1);
          }
        }
      }
    }
  }

  lemma SoundLater(s: State, prefix: string, n: nat)
    requires Sound(s, prefix, n)
    ensures Sound(s, prefix, n + 1)
  {
    hide Usable, PrefixAt, Inv, NoCrossing;
  }

  /** A replay on a fresh executor succeeds if and only if every event that asks for a trade has
      a positive price and nothing blocks execution; then each symbol ends at the target of its
      last event, every position is the sum of its fills, the returned fills are all there are,
      and none of them carried a position through zero. */
  lemma ReplayReachesTargets(z: Setting, es: seq<Event>)
    ensures var (s, r) := ReplayUpTo(z, FRESH, es, |es|);
      && (r.Ok? <==> forall i :: 0 <= i < |es| ==> Tradable(z, FRESH, es, i))
      && (r.Ok? ==>
            && s.log == r.value && NoCrossing(r.value)
            && forall symbol ::
                 s.Position(symbol) == Wanted(z, FRESH, es, |es|, symbol) == Traded(r.value, symbol))
  {
    hide NoCrossing, Tradable, Wanted, ReplayUpTo, DistinctIds;
    FreshSound(z.prefix);
    ReplayProgress(z, FRESH, es, |es|);
    var (s, r) := ReplayUpTo(z, FRESH, es, |es|);
    if r.Ok? {
      assert [] + r.value == r.value;
      assert Balanced(s);
    }
  }

  lemma FreshSound(prefix: string)
    ensures Sound(FRESH, prefix, 0)
  {
    FreshInv();
  }

  /** The target wanted in the end is the one of the last relevant event. */
  lemma {:induction false} WantedIsLast(z: Setting, s: State, es: seq<Event>, i: nat, n: nat)
    requires i < n <= |es| && Relevant(es[i], z.only)
    requires forall j :: i < j < n ==> es[j].symbol != es[i].symbol
    ensures Wanted(z, s, es, n, es[i].symbol) == z.targets(i)
  {
    if i < n - 1 {
      WantedIsLast(z, s, es, i, n - 1);
    }
  }
}
