/** AutoDegradationController of risk/degradation.py and the kill switch it drives. The
    controller keeps a bounded window, a mode, a counter and two memories; the theorems below say
    what these are in terms of the whole history of samples and operator actions. */
module Degradation {
  import opened KillSwitch
  import opened RealMath
  import opened Values

  datatype Sample = Sample(latency: real, rejected: bool, slippage: real) {
    predicate Valid() {
      latency >= 0.0 && slippage >= 0.0
    }
  }

  datatype Thresholds = Thresholds(
    latencyWarn: real, latencyCritical: real, rejectWarn: real, rejectCritical: real,
    slippageWarn: real, slippageCritical: real) {

    predicate Valid() {
      && 0.0 <= rejectWarn < rejectCritical <= 1.0
      && 0.0 < latencyWarn < latencyCritical
      && 0.0 <= slippageWarn < slippageCritical
    }
  }

  datatype Config = Config(thresholds: Thresholds, windowSize: nat, recover: nat, hasSwitch: bool) {
    predicate Valid() {
      thresholds.Valid() && windowSize > 0 && recover > 0
    }
  }

  datatype Mode = Normal | Degraded | Halted

  /** The six reasons, in the order of their names. */
  datatype Reason = LatencyCritical | LatencyWarn | RejectCritical | RejectWarn | SlippageCritical | SlippageWarn {
    predicate Critical() {
      LatencyCritical? || RejectCritical? || SlippageCritical?
    }

    function Name(): string {
      match this
      case LatencyCritical => "latency_critical"
      case LatencyWarn => "latency_warn"
      case RejectCritical => "reject_rate_critical"
      case RejectWarn => "reject_rate_warn"
      case SlippageCritical => "slippage_critical"
      case SlippageWarn => "slippage_warn"
    }
  }

  const NAME_ORDER: seq<Reason> :=
    [LatencyCritical, LatencyWarn, RejectCritical, RejectWarn, SlippageCritical, SlippageWarn]

  function Latencies(w: seq<Sample>): seq<real> {
    seq(|w|, i requires 0 <= i < |w| => w[i].latency)
  }

  function Rejections(w: seq<Sample>): seq<real> {
    seq(|w|, i requires 0 <= i < |w| => if w[i].rejected then 1.0 else 0.0)
  }

  function SlippagesOf(w: seq<Sample>): seq<real> {
    seq(|w|, i requires 0 <= i < |w| => w[i].slippage)
  }

  /** Is the reason's threshold reached on the window? */
  predicate Breached(t: Thresholds, w: seq<Sample>, r: Reason)
    requires |w| > 0
  {
    match r
    case LatencyCritical => Mean(Latencies(w)) >= t.latencyCritical
    case LatencyWarn => Mean(Latencies(w)) >= t.latencyWarn
    case RejectCritical => Mean(Rejections(w)) >= t.rejectCritical
    case RejectWarn => Mean(Rejections(w)) >= t.rejectWarn
    case SlippageCritical => Mean(SlippagesOf(w)) >= t.slippageCritical
    case SlippageWarn => Mean(SlippagesOf(w)) >= t.slippageWarn
  }

  function Select(all: seq<Reason>, chosen: set<Reason>): seq<Reason> {
    if |all| == 0 then []
    else (if all[0] in chosen then [all[0]] else []) + Select(all[1..], chosen)
  }

  /** `sorted` of a set of reasons. */
  function Sorted(chosen: set<Reason>): seq<Reason> {
    Select(NAME_ORDER, chosen)
  }

  function Join(rs: seq<Reason>): string {
    if |rs| == 0 then ""
    else if |rs| == 1 then rs[0].Name()
    else rs[0].Name() + ", " + Join(rs[1..])
  }

  /** The text recorded with an automatic halt. */
  function HaltReason(critical: set<Reason>): string {
    "auto-degradation critical: " + Join(Sorted(critical))
  }

  function Breaches(t: Thresholds, w: seq<Sample>, critical: bool): set<Reason>
    requires |w| > 0
  {
    set r | r in NAME_ORDER && r.Critical() == critical && Breached(t, w, r)
  }

  datatype Alert = Anomaly(reason: Reason) | ModeChanged(was: Mode, now: Mode)

  /** The controller's fields. */
  datatype Controller = Controller(
    window: seq<Sample>, mode: Mode, healthyCount: nat, active: set<Reason>, haltReason: Option<string>)

  const START := Controller([], Normal, 0, {}, None)

  /** `deque(maxlen=size).append`. */
  function Push(w: seq<Sample>, s: Sample, size: nat): (r: seq<Sample>)
    requires size > 0 && |w| <= size
    ensures 0 < |r| <= size && r[|r| - 1] == s
  {
    if |w| == size then w[1..] + [s] else w + [s]
  }

  datatype World = World(controller: Controller, levels: Levels, alerts: seq<Alert>)

  /** `record_sample`, on the controller, the kill switch and the alerts sent so far. */
  function Record(cfg: Config, w: World, s: Sample): World
    requires cfg.Valid() && |w.controller.window| <= cfg.windowSize
  {
    if !s.Valid() then w
    else
      var c := w.controller;
      var window := Push(c.window, s, cfg.windowSize);
      var critical := Breaches(cfg.thresholds, window, true);
      var warn := Breaches(cfg.thresholds, window, false);
      var c1 := c.(window := window, active := critical + warn);
      var raised := AnomalyAlerts(Sorted(critical + warn - c.active));
      var (c2, levels) :=
        if critical != {} then Halt(cfg, c1, w.levels, HaltReason(critical))
        else if warn != {} then (c1.(mode := Degraded, healthyCount := 0), w.levels)
        else Recover(cfg, c1.(healthyCount := c1.healthyCount + 1), w.levels);
      World(c2, levels, w.alerts + raised + if c2.mode != c.mode then [ModeChanged(c.mode, c2.mode)] else [])
  }

  function AnomalyAlerts(rs: seq<Reason>): seq<Alert> {
    seq(|rs|, i requires 0 <= i < |rs| => Anomaly(rs[i]))
  }

  /** A critical window: engage the global block unless one is there already. */
  function Halt(cfg: Config, c: Controller, k: Levels, reason: string): (Controller, Levels) {
    var halted := c.(mode := Halted, healthyCount := 0);
    if !cfg.hasSwitch then (halted.(haltReason := Some(reason)), k)
    else
      match k.ResolveBlock(None, None)
      case None => (halted.(haltReason := Some(reason)), k.Engage(reason, Global, None, None))
      case Some(block) => (if block == Block(Global, reason) then halted.(haltReason := Some(reason)) else halted, k)
  }

  /** A healthy window: after enough of them back to normal, lifting the controller's own block. */
  function Recover(cfg: Config, c: Controller, k: Levels): (Controller, Levels) {
    if c.healthyCount < cfg.recover then (c, k)
    else
      var normal := c.(mode := Normal);
      if !cfg.hasSwitch || c.haltReason.None? then (normal, k)
      else
        var current := k.ResolveBlock(None, None);
        (normal.(haltReason := None),
         if current.Some? && current.value.reason == c.haltReason.value then k.Release(Global, None, None) else k)
  }

  // ---------- the object ----------

  class AutoDegradationController {
    const cfg: Config
    const killSwitch: KillSwitch?
    var window: seq<Sample>
    var mode: Mode
    var healthyCount: nat
    var activeAnomalies: set<Reason>
    var autoHaltReason: Option<string>
    var alerts: seq<Alert>

    ghost predicate Valid()
      reads this
    {
      cfg.Valid() && cfg.hasSwitch == (killSwitch != null) && |window| <= cfg.windowSize
    }

    function Fields(): Controller
      reads this
    {
      Controller(window, mode, healthyCount, activeAnomalies, autoHaltReason)
    }

    function Levels_(): Levels
      reads this, killSwitch
    {
      if killSwitch == null then Clear else killSwitch.Value()
    }

    constructor (cfg: Config, killSwitch: KillSwitch?)
      requires cfg.Valid() && cfg.hasSwitch == (killSwitch != null)
      ensures Valid() && Fields() == START && alerts == []
      ensures this.cfg == cfg && this.killSwitch == killSwitch
    {
      this.cfg, this.killSwitch := cfg, killSwitch;
      window, mode, healthyCount, activeAnomalies, autoHaltReason, alerts := [], Normal, 0, {}, None, [];
    }

    /** False is the ValueError for a negative metric. */
    method RecordSample(s: Sample) returns (ok: bool)
      requires Valid()
      modifies this, killSwitch
      ensures Valid() && ok == s.Valid()
      ensures World(Fields(), Levels_(), alerts) == Record(cfg, World(old(Fields()), old(Levels_()), old(alerts)), s)
    {
      if s.latency < 0.0 || s.slippage < 0.0 {
        return false;
      }
      hide Breaches, HaltReason, Sorted, AnomalyAlerts, Push, Halt, Recover;
      ok := true;
      window := Push(window, s, cfg.windowSize);
      var critical := Breaches(cfg.thresholds, window, true);
      var warn := Breaches(cfg.thresholds, window, false);
      EmitAnomalyAlerts(critical + warn);
      var previous := mode;
      if critical != {} {
        OnCritical(HaltReason(critical));
      } else if warn != {} {
        mode, healthyCount := Degraded, 0;
      } else {
        OnHealthy();
      }
      if previous != mode {
        alerts := alerts + [ModeChanged(previous, mode)];
      }
    }

    method EmitAnomalyAlerts(active: set<Reason>)
      modifies this`activeAnomalies, this`alerts
      ensures activeAnomalies == active
      ensures alerts == old(alerts) + AnomalyAlerts(Sorted(active - old(activeAnomalies)))
    {
      var fresh_ := Sorted(active - activeAnomalies);
      activeAnomalies := active;
      for i := 0 to |fresh_|
        invariant alerts == old(alerts) + AnomalyAlerts(fresh_[..i]) && activeAnomalies == active
      {
        alerts := alerts + [Anomaly(fresh_[i])];
        assert AnomalyAlerts(fresh_[..i + 1]) == AnomalyAlerts(fresh_[..i]) + [Anomaly(fresh_[i])];
      }
      assert fresh_[..|fresh_|] == fresh_;
    }

    method OnCritical(reason: string)
      requires Valid()
      modifies this`mode, this`healthyCount, this`autoHaltReason, killSwitch
      ensures (Fields(), Levels_()) == Halt(cfg, old(Fields()), old(Levels_()), reason)
    {
      mode, healthyCount := Halted, 0;
      if killSwitch != null {
        var active := killSwitch.Value().ResolveBlock(None, None);
        if active.None? {
          var _ := killSwitch.Engage(reason, Global, None, None);
          autoHaltReason := Some(reason);
        } else if active.value.scope == Global && active.value.reason == reason {
          autoHaltReason := Some(reason);
        }
      } else {
        autoHaltReason := Some(reason);
      }
    }

    method OnHealthy()
      requires Valid()
      modifies this`mode, this`healthyCount, this`autoHaltReason, killSwitch
      ensures var before := old(Fields());
        (Fields(), Levels_()) == Recover(cfg, before.(healthyCount := before.healthyCount + 1), old(Levels_()))
    {
      healthyCount := healthyCount + 1;
      if healthyCount >= cfg.recover {
        mode := Normal;
        if killSwitch != null && autoHaltReason.Some? {
          var current := killSwitch.Value().ResolveBlock(None, None);
          if current.Some? && current.value.reason == autoHaltReason.value {
            var _ := killSwitch.Release(Global, None, None);
          }
          autoHaltReason := None;
        }
      }
    }
  }

  // ---------- histories ----------

  datatype Action =
    | Observe(sample: Sample)
    | OperatorEngage(reason: string, scope: Scope, account: Option<string>, strategy: Option<string>)
    | OperatorRelease(scope: Scope, account: Option<string>, strategy: Option<string>)

  function Step(cfg: Config, w: World, a: Action): World
    requires cfg.Valid() && |w.controller.window| <= cfg.windowSize
  {
    match a
    case Observe(s) => Record(cfg, w, s)
    case OperatorEngage(reason, scope, account, strategy) =>
      if Levels.Addressed(scope, account, strategy)
        then w.(levels := w.levels.Engage(reason, scope, account, strategy)) else w
    case OperatorRelease(scope, account, strategy) =>
      if Levels.Addressed(scope, account, strategy) then w.(levels := w.levels.Release(scope, account, strategy)) else w
  }

  lemma StepFits(cfg: Config, w: World, a: Action)
    requires cfg.Valid() && |w.controller.window| <= cfg.windowSize
    ensures |Step(cfg, w, a).controller.window| <= cfg.windowSize
  {
  }

  /** A fresh controller on a switch in state k0, after the actions. */
  function Run(cfg: Config, k0: Levels, actions: seq<Action>): (w: World)
    requires cfg.Valid()
    ensures |w.controller.window| <= cfg.windowSize
  {
    if |actions| == 0 then World(START, k0, [])
    else
      var before := Run(cfg, k0, actions[..|actions| - 1]);
      StepFits(cfg, before, actions[|actions| - 1]);
      Step(cfg, before, actions[|actions| - 1])
  }

  /** The samples that were accepted. */
  function Samples(actions: seq<Action>): seq<Sample> {
    if |actions| == 0 then []
    else
      var last, rest := actions[|actions| - 1], Samples(actions[..|actions| - 1]);
      if last.Observe? && last.sample.Valid() then rest + [last.sample] else rest
  }

  function Window(h: seq<Sample>, size: nat): (w: seq<Sample>)
    requires size > 0
    ensures |h| > 0 ==> |w| > 0
  {
    if |h| <= size then h else h[|h| - size..]
  }

  /** The reasons breached on the window that ends a history. */
  function ActiveAfter(cfg: Config, h: seq<Sample>): set<Reason>
    requires cfg.Valid()
  {
    if |h| == 0 then {}
    else
      var w := Window(h, cfg.windowSize);
      Breaches(cfg.thresholds, w, true) + Breaches(cfg.thresholds, w, false)
  }

  predicate IsCritical(rs: set<Reason>) {
    exists r :: r in rs && r.Critical()
  }

  /** Number of samples up to and including the last one whose window breached; 0 if none did. */
  function LastBreach(cfg: Config, h: seq<Sample>): (k: nat)
    requires cfg.Valid()
    ensures k <= |h|
  {
    if |h| == 0 then 0
    else if ActiveAfter(cfg, h) != {} then |h|
    else LastBreach(cfg, h[..|h| - 1])
  }

  /** The mode a history calls for: normal without a breach or after enough healthy windows,
      otherwise the severity of the last breaching window. */
  function ModeAfter(cfg: Config, h: seq<Sample>): Mode
    requires cfg.Valid()
  {
    var k := LastBreach(cfg, h);
    if k == 0 || |h| - k >= cfg.recover then Normal
    else if IsCritical(ActiveAfter(cfg, h[..k])) then Halted
    else Degraded
  }

  /** What LastBreach means. */
  lemma {:induction false} LastBreachIsLast(cfg: Config, h: seq<Sample>)
    requires cfg.Valid()
    ensures var k := LastBreach(cfg, h);
      && (k > 0 ==> ActiveAfter(cfg, h[..k]) != {})
      && forall j :: k < j <= |h| ==> ActiveAfter(cfg, h[..j]) == {}
  {
    assert h[..|h|] == h;
    if |h| > 0 && ActiveAfter(cfg, h) == {} {
      var n := |h| - 1;
      LastBreachIsLast(cfg, h[..n]);
      assert forall j :: 0 <= j <= n ==> h[..n][..j] == h[..j];
    }
  }

  lemma PushIsWindow(h: seq<Sample>, s: Sample, size: nat)
    requires size > 0
    ensures Push(Window(h, size), s, size) == Window(h + [s], size)
  {
  }

  lemma CriticalPart(t: Thresholds, w: seq<Sample>)
    requires |w| > 0
    ensures IsCritical(Breaches(t, w, true) + Breaches(t, w, false)) <==> Breaches(t, w, true) != {}
  {
    if r :| r in Breaches(t, w, true) {
      assert r in Breaches(t, w, true) + Breaches(t, w, false) && r.Critical();
    }
  }

  /** The controller's window, mode, counter and active set are functions of the accepted
      samples alone: the constant-size state forgets nothing that matters, and operators'
      actions on the switch do not influence it. */
  lemma {:induction false} StateIsFunctionOfHistory(cfg: Config, k0: Levels, actions: seq<Action>)
    requires cfg.Valid()
    ensures var c, h := Run(cfg, k0, actions).controller, Samples(actions);
      && c.window == Window(h, cfg.windowSize)
      && c.mode == ModeAfter(cfg, h)
      && c.healthyCount == |h| - LastBreach(cfg, h)
      && c.active == ActiveAfter(cfg, h)
  {
    if |actions| > 0 {
      var n := |actions| - 1;
      StateIsFunctionOfHistory(cfg, k0, actions[..n]);
      var a := actions[n];
      if a.Observe? && a.sample.Valid() {
        SampleKeepsFunction(cfg, Run(cfg, k0, actions[..n]), Samples(actions[..n]), a.sample);
      }
    }
  }

  lemma HistoryExtends(cfg: Config, h: seq<Sample>, s: Sample)
    requires cfg.Valid()
    ensures var longer := h + [s];
      var active := ActiveAfter(cfg, longer);
      && LastBreach(cfg, longer) == (if active != {} then |longer| else LastBreach(cfg, h))
      && ModeAfter(cfg, longer) ==
         if active != {} then (if IsCritical(active) then Halted else Degraded)
         else if |longer| - LastBreach(cfg, h) >= cfg.recover then Normal
         else ModeAfter(cfg, h)
  {
    var longer := h + [s];
    assert longer[..|h|] == h && longer[..|longer|] == longer;
    assert longer[..LastBreach(cfg, h)] == h[..LastBreach(cfg, h)];
    hide ActiveAfter, IsCritical;
  }

  /** What an accepted sample does to the controller's own fields. */
  lemma RecordFields(cfg: Config, w: World, s: Sample)
    requires cfg.Valid() && s.Valid() && |w.controller.window| <= cfg.windowSize
    ensures var c, after := w.controller, Record(cfg, w, s).controller;
      var window := Push(c.window, s, cfg.windowSize);
      var critical, warn := Breaches(cfg.thresholds, window, true), Breaches(cfg.thresholds, window, false);
      && after.window == window && after.active == critical + warn
      && after.healthyCount == (if critical != {} || warn != {} then 0 else c.healthyCount + 1)
      && after.mode == if critical != {} then Halted
                       else if warn != {} then Degraded
                       else if c.healthyCount + 1 >= cfg.recover then Normal
                       else c.mode
  {
    hide Breaches, HaltReason, Sorted, AnomalyAlerts, Push;
  }

  lemma SampleKeepsFunction(cfg: Config, w: World, h: seq<Sample>, s: Sample)
    requires cfg.Valid() && s.Valid()
    requires |w.controller.window| <= cfg.windowSize && w.controller.window == Window(h, cfg.windowSize)
    requires w.controller.mode == ModeAfter(cfg, h)
    requires w.controller.healthyCount == |h| - LastBreach(cfg, h)
    ensures var c, longer := Record(cfg, w, s).controller, h + [s];
      && c.window == Window(longer, cfg.windowSize)
      && c.mode == ModeAfter(cfg, longer)
      && c.healthyCount == |longer| - LastBreach(cfg, longer)
      && c.active == ActiveAfter(cfg, longer)
  {
    PushIsWindow(h, s, cfg.windowSize);
    CriticalPart(cfg.thresholds, Window(h + [s], cfg.windowSize));
    HistoryExtends(cfg, h, s);
    RecordFields(cfg, w, s);
    hide Breaches, Record, LastBreach, ModeAfter, Window, IsCritical, Push;
  }

  lemma {:induction false} SelectMembers(all: seq<Reason>, chosen: set<Reason>)
    ensures forall r :: r in Select(all, chosen) <==> r in all && r in chosen
  {
    if |all| > 0 {
      SelectMembers(all[1..], chosen);
      assert all == [all[0]] + all[1..];
    }
  }

  /** The alerts of one accepted sample: the reasons that became active, then any mode change. */
  lemma AlertsOfSample(cfg: Config, w: World, s: Sample, r: Reason)
    requires cfg.Valid() && s.Valid() && |w.controller.window| <= cfg.windowSize
    ensures var after := Record(cfg, w, s);
      && w.alerts <= after.alerts
      && (Anomaly(r) in after.alerts[|w.alerts|..] <==> r in after.controller.active && r !in w.controller.active)
  {
    hide Breaches, HaltReason, Select;
    var after := Record(cfg, w, s);
    var begun := after.controller.active - w.controller.active;
    var raised := AnomalyAlerts(Sorted(begun));
    var rest := if after.controller.mode != w.controller.mode
      then [ModeChanged(w.controller.mode, after.controller.mode)] else [];
    assert after.alerts == w.alerts + raised + rest;
    assert after.alerts[|w.alerts|..] == raised + rest;
    hide Record;
    RaisedMembers(begun, r);
  }

  lemma RaisedMembers(begun: set<Reason>, r: Reason)
    ensures Anomaly(r) in AnomalyAlerts(Sorted(begun)) <==> r in begun
  {
    SelectMembers(NAME_ORDER, begun);
    InNameOrder(r);
    hide Select;
    if r in Sorted(begun) {
      var i :| 0 <= i < |Sorted(begun)| && Sorted(begun)[i] == r;
      assert AnomalyAlerts(Sorted(begun))[i] == Anomaly(r);
    }
  }

  /** An accepted sample alerts a reason exactly when its breach begins: on this window, and not
      on the one before. */
  lemma AlertsOnRisingEdges(cfg: Config, k0: Levels, actions: seq<Action>, s: Sample, r: Reason)
    requires cfg.Valid() && s.Valid()
    ensures var before, after := Run(cfg, k0, actions), Run(cfg, k0, actions + [Observe(s)]);
      && before.alerts <= after.alerts
      && (Anomaly(r) in after.alerts[|before.alerts|..] <==>
            r in ActiveAfter(cfg, Samples(actions) + [s]) && r !in ActiveAfter(cfg, Samples(actions)))
  {
    assert (actions + [Observe(s)])[..|actions|] == actions;
    StateIsFunctionOfHistory(cfg, k0, actions);
    StateIsFunctionOfHistory(cfg, k0, actions + [Observe(s)]);
    hide Record, ActiveAfter, ModeAfter, LastBreach, Window;
    AlertsOfSample(cfg, Run(cfg, k0, actions), s, r);
  }

  lemma InNameOrder(r: Reason)
    ensures r in NAME_ORDER
  {
    assert NAME_ORDER[0] == LatencyCritical && NAME_ORDER[1] == LatencyWarn && NAME_ORDER[2] == RejectCritical;
    assert NAME_ORDER[3] == RejectWarn && NAME_ORDER[4] == SlippageCritical && NAME_ORDER[5] == SlippageWarn;
  }

  // ---------- the kill switch under controller and operators ----------

  /** A sample never touches account or strategy blocks. It sets the global block only where
      there was none, and lifts it only if its reason is the one the controller recorded. */
  lemma SampleTouchesOwnBlockOnly(cfg: Config, w: World, s: Sample)
    requires cfg.Valid() && |w.controller.window| <= cfg.windowSize
    ensures var after := Record(cfg, w, s);
      && after.levels.accounts == w.levels.accounts && after.levels.strategies == w.levels.strategies
      && (after.levels.global != w.levels.global ==>
            || (w.levels.global.None? && after.levels.global.Some? && after.controller.haltReason == after.levels.global
                && after.controller.mode == Halted)
            || (w.levels.global.Some? && after.levels.global.None? && w.controller.haltReason == w.levels.global
                && after.controller.mode == Normal))
  {
    hide Breaches, HaltReason, Sorted;
  }

  predicate TouchesGlobal(a: Action) {
    (a.OperatorEngage? || a.OperatorRelease?) && a.scope == Global
  }

  /** The global reason is the recorded one, and a halt has one. */
  ghost predicate OwnBlock(w: World) {
    w.levels.global == w.controller.haltReason && (w.controller.mode == Halted ==> w.levels.global.Some?)
  }

  lemma SampleKeepsOwnBlock(cfg: Config, w: World, s: Sample)
    requires cfg.Valid() && cfg.hasSwitch && |w.controller.window| <= cfg.windowSize && OwnBlock(w)
    ensures OwnBlock(Record(cfg, w, s))
  {
    hide Breaches, HaltReason, Sorted, AnomalyAlerts;
  }

  /** While no operator touches the global level, its reason is the one the controller recorded,
      and a halted controller blocks execution for every account and strategy. */
  lemma {:induction false} HaltedMeansBlocked(cfg: Config, k0: Levels, actions: seq<Action>)
    requires cfg.Valid() && cfg.hasSwitch && k0.global.None?
    requires forall i :: 0 <= i < |actions| ==> !TouchesGlobal(actions[i])
    ensures OwnBlock(Run(cfg, k0, actions))
    ensures Run(cfg, k0, actions).controller.mode == Halted ==>
      forall account, strategy :: Run(cfg, k0, actions).levels.ResolveBlock(account, strategy).Some?
  {
    if |actions| > 0 {
      var n := |actions| - 1;
      HaltedMeansBlocked(cfg, k0, actions[..n]);
      hide Record;
      if actions[n].Observe? {
        SampleKeepsOwnBlock(cfg, Run(cfg, k0, actions[..n]), actions[n].sample);
      }
    }
  }

  /** Whether the last word on the global level, among critical samples and operators'
      actions, was an operator's release. */
  predicate ReleasedLast(cfg: Config, actions: seq<Action>)
    requires cfg.Valid()
  {
    if |actions| == 0 then false
    else
      var n := |actions| - 1;
      match actions[n]
      case Observe(s) =>
        if s.Valid() && IsCritical(ActiveAfter(cfg, Samples(actions))) then false else ReleasedLast(cfg, actions[..n])
      case OperatorEngage(_, scope, _, _) => if scope == Global then false else ReleasedLast(cfg, actions[..n])
      case OperatorRelease(scope, _, _) => if scope == Global then true else ReleasedLast(cfg, actions[..n])
  }

  /** A critical sample closes the global level; any other sample that leaves the controller
      halted found it halted and leaves that level alone. */
  lemma SampleWhileHalted(cfg: Config, w: World, h: seq<Sample>, s: Sample)
    requires cfg.Valid() && cfg.hasSwitch && s.Valid() && w.controller.window == Window(h, cfg.windowSize)
    requires |w.controller.window| <= cfg.windowSize
    ensures var after := Record(cfg, w, s);
      && (IsCritical(ActiveAfter(cfg, h + [s])) ==> after.levels.global.Some?)
      && (!IsCritical(ActiveAfter(cfg, h + [s])) && after.controller.mode == Halted ==>
            w.controller.mode == Halted && after.levels.global == w.levels.global)
  {
    PushIsWindow(h, s, cfg.windowSize);
    CriticalPart(cfg.thresholds, Window(h + [s], cfg.windowSize));
    hide Breaches, HaltReason, Sorted, AnomalyAlerts, Window;
  }

  /** Over every interleaving, a halted controller leaves the global level open if and only if an
      operator's release came after the last critical sample and the last operator's engage. */
  lemma {:induction false} HaltedOpenExactlyAfterRelease(cfg: Config, k0: Levels, actions: seq<Action>)
    requires cfg.Valid() && cfg.hasSwitch
    ensures var w := Run(cfg, k0, actions);
      w.controller.mode == Halted ==> (w.levels.global.None? <==> ReleasedLast(cfg, actions))
  {
    if |actions| > 0 {
      var n := |actions| - 1;
      HaltedOpenExactlyAfterRelease(cfg, k0, actions[..n]);
      StateIsFunctionOfHistory(cfg, k0, actions[..n]);
      hide Record, ModeAfter, LastBreach, Window, ActiveAfter, IsCritical;
      if actions[n].Observe? && actions[n].sample.Valid() {
        SampleWhileHalted(cfg, Run(cfg, k0, actions[..n]), Samples(actions[..n]), actions[n].sample);
      } else if actions[n].Observe? {
        InvalidSampleIgnored(cfg, Run(cfg, k0, actions[..n]), actions[n].sample);
      }
    }
  }

  lemma InvalidSampleIgnored(cfg: Config, w: World, s: Sample)
    requires cfg.Valid() && !s.Valid() && |w.controller.window| <= cfg.windowSize
    ensures Record(cfg, w, s) == w
  {
  }
}
