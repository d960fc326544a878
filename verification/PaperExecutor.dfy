/** PaperExecutor of execution/paper.py: market orders filled at the mark plus slippage, each
    identifier at most once, on top of an OMS that others may use too. */
module PaperExecutor {
  import opened KillSwitch
  import opened Market
  import opened Oms
  import opened RealMath
  import opened Values

  datatype Costs = Costs(feeRate: real, slippageRate: real) {
    predicate Valid() {
      feeRate >= 0.0 && slippageRate >= 0.0
    }
  }

  datatype MarketOrder = MarketOrder(id: string, symbol: string, qty: real, mark: real, ts: int, reduceOnly: bool)

  datatype ExecutionError =
    | ZeroQty | NonPositivePrice | Blocked | NothingToReduce | ExceedsPosition | MissingFill | BadStatus(status: Status)

  /** The OMS's book, the fills in the order they were made, and the positions dictionary. */
  datatype State = State(book: Book, log: seq<Fill>, positions: map<string, real>) {
    function Position(symbol: string): real {
      if symbol in positions then positions[symbol] else 0.0
    }
  }

  const FRESH := State(map[], [], map[])

  function Find(log: seq<Fill>, id: string): Option<Fill> {
    if |log| == 0 then None
    else if log[|log| - 1].id == id then Some(log[|log| - 1])
    else Find(log[..|log| - 1], id)
  }

  /** The fill of an order at its mark. */
  function FillOf(c: Costs, o: MarketOrder): Fill {
    var side := if o.qty > 0.0 then 1.0 else -1.0;
    var price := o.mark * (1.0 + side * c.slippageRate);
    var notional := Abs(o.qty) * price;
    Fill(o.id, o.symbol, o.qty, o.mark, price, Abs(o.qty) * Abs(price - o.mark), notional * c.feeRate, notional, o.ts)
  }

  lemma FillCarriesOrder(c: Costs, o: MarketOrder)
    ensures var f := FillOf(c, o);
      f.id == o.id && f.symbol == o.symbol && f.qty == o.qty && f.requested == o.mark && f.ts == o.ts
  {
  }

  lemma FindExtends(log: seq<Fill>, f: Fill, id: string)
    ensures Find(log + [f], id) == if f.id == id then Some(f) else Find(log, id)
  {
    assert (log + [f])[..|log|] == log;
  }

  /** The fills dictionary holds exactly the fills made. */
  ghost predicate Recorded(fills: map<string, Fill>, log: seq<Fill>) {
    forall id :: Find(log, id) == if id in fills then Some(fills[id]) else None
  }

  lemma RecordedExtends(fills: map<string, Fill>, log: seq<Fill>, f: Fill)
    requires Recorded(fills, log)
    ensures Recorded(fills[f.id := f], log + [f])
  {
    forall id ensures Find(log + [f], id) == if id in fills[f.id := f] then Some(fills[f.id := f][id]) else None {
      FindExtends(log, f, id);
    }
  }

  function ReduceError(current: real, qty: real): Option<ExecutionError> {
    if current == 0.0 || current * qty >= 0.0 then Some(NothingToReduce)
    else if Abs(qty) > Abs(current) then Some(ExceedsPosition)
    else None
  }

  /** Submit an order that passed the checks, and fill it if it is new. */
  function Place(c: Costs, s: State, o: MarketOrder): (State, Result<Fill, ExecutionError>) {
    if o.id in s.book && s.book[o.id].status == Filled then (s, Err(MissingFill))
    else if o.id in s.book && s.book[o.id].status != New then (s, Err(BadStatus(s.book[o.id].status)))
    else
      var fill := FillOf(c, o);
      (State(Moved(Submitted(s.book, o.id, o.symbol, o.qty), o.id, Filled), s.log + [fill],
             s.positions[o.symbol := s.Position(o.symbol) + o.qty]),
       Ok(fill))
  }

  /** `execute_market`: the new state, and the fill or the error raised. */
  function Execute(c: Costs, blocked: bool, s: State, o: MarketOrder): (State, Result<Fill, ExecutionError>) {
    if o.qty == 0.0 then (s, Err(ZeroQty))
    else if o.mark <= 0.0 then (s, Err(NonPositivePrice))
    else if blocked then (s, Err(Blocked))
    else if Find(s.log, o.id).Some? then (s, Ok(Find(s.log, o.id).value))
    else if o.reduceOnly && ReduceError(s.Position(o.symbol), o.qty).Some? then
      (s, Err(ReduceError(s.Position(o.symbol), o.qty).value))
    else Place(c, s, o)
  }

  datatype Retarget = Retarget(prefix: string, symbol: string, current: real, target: real, mark: real, ts: int) {
    predicate SingleLeg() {
      current == 0.0 || target == 0.0 || current * target > 0.0
    }

    function Single(): MarketOrder {
      MarketOrder(prefix + "-single", symbol, target - current, mark, ts, false)
    }

    function Close(reduceOnly: bool): MarketOrder {
      MarketOrder(prefix + "-close", symbol, -current, mark, ts, reduceOnly)
    }

    function Open(): MarketOrder {
      MarketOrder(prefix + "-open", symbol, target, mark, ts, false)
    }
  }

  /** `execute_to_target`: one leg, or a close and an open when the direction flips. */
  function MoveToTarget(c: Costs, blocked: bool, s: State, t: Retarget): (State, Result<seq<Fill>, ExecutionError>) {
    if t.current == t.target then (s, Ok([]))
    else if t.SingleLeg() then
      var (s1, r) := Execute(c, blocked, s, t.Single());
      (s1, if r.Ok? then Ok([r.value]) else Err(r.error))
    else
      var (s1, close) := Execute(c, blocked, s, t.Close(s.Position(t.symbol) != 0.0));
      if close.Err? then (s1, Err(close.error))
      else
        var (s2, open) := Execute(c, blocked, s1, t.Open());
        (s2, if open.Ok? then Ok([close.value, open.value]) else Err(open.error))
  }

  // ---------- the object ----------

  class PaperExecutor {
    const oms: OMS
    const killSwitch: KillSwitch?
    const costs: Costs
    var fills: map<string, Fill>
    var positionQty: map<string, real>
    /** The fills in the order they were made. */
    ghost var log: seq<Fill>

    ghost predicate Valid()
      reads this, oms, oms.orders.Values
    {
      costs.Valid() && oms.Valid() && Recorded(fills, log)
    }

    ghost function Current(): State
      reads this, oms, oms.orders.Values
    {
      State(oms.Contents(), log, positionQty)
    }

    predicate IsBlocked()
      reads killSwitch
    {
      killSwitch != null && killSwitch.Value().ResolveBlock(None, None).Some?
    }

    constructor (oms: OMS, feeBps: real, slippageBps: real, killSwitch: KillSwitch?)
      requires oms.Valid() && feeBps >= 0.0 && slippageBps >= 0.0
      ensures Valid() && Current() == State(oms.Contents(), [], map[])
      ensures this.oms == oms && this.killSwitch == killSwitch
      ensures costs == Costs(feeBps / 10000.0, slippageBps / 10000.0)
    {
      this.oms, this.killSwitch := oms, killSwitch;
      costs := Costs(feeBps / 10000.0, slippageBps / 10000.0);
      fills, positionQty, log := map[], map[], [];
    }

    function PositionQty(symbol: string): real
      reads this
    {
      if symbol in positionQty then positionQty[symbol] else 0.0
    }

    method ExecuteMarket(o: MarketOrder) returns (r: Result<Fill, ExecutionError>)
      requires Valid()
      modifies this, oms, oms.orders.Values
      ensures Valid() && fresh(oms.orders.Values - old(oms.orders.Values))
      ensures
        var (s, outcome) := Execute(costs, IsBlocked(), old(Current()), o);
        Current() == s && r == outcome
    {
      hide Place, Find, ReduceError, Levels.ResolveBlock;
      if o.qty == 0.0 {
        return Err(ZeroQty);
      }
      if o.mark <= 0.0 {
        return Err(NonPositivePrice);
      }
      if IsBlocked() {
        return Err(Blocked);
      }
      if o.id in fills {
        return Ok(fills[o.id]);
      }
      if o.reduceOnly {
        var error := ReduceError(PositionQty(o.symbol), o.qty);
        if error.Some? {
          return Err(error.value);
        }
      }
      r := SubmitAndFill(o);
    }

    method ExecuteToTarget(t: Retarget) returns (r: Result<seq<Fill>, ExecutionError>)
      requires Valid()
      modifies this, oms, oms.orders.Values
      ensures Valid() && fresh(oms.orders.Values - old(oms.orders.Values))
      ensures
        var (s, outcome) := MoveToTarget(costs, IsBlocked(), old(Current()), t);
        Current() == s && r == outcome
    {
      hide Execute, OMS.Contents, Retarget.SingleLeg;
      if t.current == t.target {
        return Ok([]);
      }
      if t.SingleLeg() {
        var leg := ExecuteMarket(t.Single());
        return if leg.Ok? then Ok([leg.value]) else Err(leg.error);
      }
      var close := ExecuteMarket(t.Close(PositionQty(t.symbol) != 0.0));
      if close.Err? {
        return Err(close.error);
      }
      var open := ExecuteMarket(t.Open());
      r := if open.Ok? then Ok([close.value, open.value]) else Err(open.error);
    }

    method SubmitAndFill(o: MarketOrder) returns (r: Result<Fill, ExecutionError>)
      requires Valid() && o.id !in fills
      modifies this, oms, oms.orders.Values
      ensures Valid() && fresh(oms.orders.Values - old(oms.orders.Values))
      ensures
        var (s, outcome) := Place(costs, old(Current()), o);
        Current() == s && r == outcome
    {
      hide FillOf, Find, Recorded, OMS.Contents, OMS.Valid, Order.View;
      var order := oms.Submit(o.id, o.symbol, o.qty);
      if order.status == Filled {
        return Err(MissingFill);
      }
      if order.status != New {
        return Err(BadStatus(order.status));
      }
      var fill := FillNew(o);
      r := Ok(fill);
    }

    method FillNew(o: MarketOrder) returns (fill: Fill)
      requires Valid() && o.id !in fills && o.id in oms.Contents() && oms.Contents()[o.id].status == New
      modifies this, oms.orders.Values
      ensures Valid() && oms.orders == old(oms.orders)
      ensures fill == FillOf(costs, o) && log == old(log) + [fill]
      ensures positionQty == old(positionQty)[o.symbol := old(PositionQty(o.symbol)) + o.qty]
      ensures oms.Contents() == Moved(old(oms.Contents()), o.id, Filled)
    {
      hide FillOf, Find, Recorded, OMS.Contents, Order.View;
      fill := FillOf(costs, o);
      FillCarriesOrder(costs, o);
      RecordedExtends(fills, log, fill);
      fills := fills[o.id := fill];
      log := log + [fill];
      positionQty := positionQty[o.symbol := PositionQty(o.symbol) + o.qty];
      var _ := oms.Fill(o.id);
    }
  }

  // ---------- runs, interleaved with other users of the OMS ----------

  datatype Action =
    | Market(order: MarketOrder, blocked: bool)
    | Target(retarget: Retarget, blocked: bool)
    | Outside(op: Op)

  function Step(c: Costs, s: State, a: Action): State {
    match a
    case Market(o, blocked) => Execute(c, blocked, s, o).0
    case Target(t, blocked) => MoveToTarget(c, blocked, s, t).0
    case Outside(op) => s.(book := Oms.Step(s.book, op))
  }

  function Run(c: Costs, s: State, actions: seq<Action>): State {
    if |actions| == 0 then s else Step(c, Run(c, s, actions[..|actions| - 1]), actions[|actions| - 1])
  }

  ghost predicate DistinctIds(log: seq<Fill>) {
    forall i, j :: 0 <= i < j < |log| ==> log[i].id != log[j].id
  }

  ghost predicate OnFilledOrders(s: State) {
    forall f :: f in s.log ==> f.id in s.book && s.book[f.id].status == Filled
  }

  ghost predicate Balanced(s: State) {
    forall symbol :: s.Position(symbol) == Traded(s.log, symbol)
  }

  /** One fill per identifier, on a filled order; positions are the sums of the fills. */
  ghost predicate Inv(s: State) {
    DistinctIds(s.log) && OnFilledOrders(s) && Balanced(s)
  }

  lemma {:induction false} FindFinds(log: seq<Fill>, id: string)
    ensures Find(log, id).Some? <==> exists f :: f in log && f.id == id
    ensures Find(log, id).Some? ==> Find(log, id).value in log && Find(log, id).value.id == id
  {
    if |log| > 0 {
      FindFinds(log[..|log| - 1], id);
      assert log == log[..|log| - 1] + [log[|log| - 1]];
    }
  }

  /** Every way a market order can change the state. */
  lemma ExecuteEffect(c: Costs, blocked: bool, s: State, o: MarketOrder)
    ensures var (s1, r) := Execute(c, blocked, s, o);
      || s1 == s
      || (&& r == Ok(FillOf(c, o)) && !blocked && o.qty != 0.0 && o.mark > 0.0
          && Find(s.log, o.id).None? && (o.id in s.book ==> s.book[o.id].status == New)
          && s1.book == Moved(Submitted(s.book, o.id, o.symbol, o.qty), o.id, Filled)
          && s1.log == s.log + [FillOf(c, o)]
          && s1.positions == s.positions[o.symbol := s.Position(o.symbol) + o.qty])
  {
    hide FillOf, Find, ReduceError;
  }

  lemma TradedExtends(log: seq<Fill>, f: Fill, symbol: string)
    ensures Traded(log + [f], symbol) == Traded(log, symbol) + if f.symbol == symbol then f.qty else 0.0
  {
    assert (log + [f])[..|log|] == log;
  }

  lemma AppendKeepsDistinct(log: seq<Fill>, f: Fill)
    requires DistinctIds(log) && Find(log, f.id).None?
    ensures DistinctIds(log + [f])
  {
    FindFinds(log, f.id);
  }

  lemma FillKeepsBalance(s: State, book: Book, f: Fill)
    requires Balanced(s)
    ensures Balanced(State(book, s.log + [f], s.positions[f.symbol := s.Position(f.symbol) + f.qty]))
  {
    forall symbol {
      TradedExtends(s.log, f, symbol);
    }
  }

  lemma ExecuteKeepsInv(c: Costs, blocked: bool, s: State, o: MarketOrder)
    requires Inv(s)
    ensures Inv(Execute(c, blocked, s, o).0)
  {
    hide Execute, FillOf, Find, DistinctIds, Balanced;
    ExecuteEffect(c, blocked, s, o);
    var s1 := Execute(c, blocked, s, o).0;
    if s1 != s {
      var f := FillOf(c, o);
      FillCarriesOrder(c, o);
      AppendKeepsDistinct(s.log, f);
      FillKeepsBalance(s, s1.book, f);
      assert s1 == State(s1.book, s.log + [f], s.positions[f.symbol := s.Position(f.symbol) + f.qty]);
    }
  }

  lemma MoveKeepsInv(c: Costs, blocked: bool, s: State, t: Retarget)
    requires Inv(s)
    ensures Inv(MoveToTarget(c, blocked, s, t).0)
  {
    hide Execute, Inv, Retarget.SingleLeg;
    ExecuteKeepsInv(c, blocked, s, t.Single());
    var close := t.Close(s.Position(t.symbol) != 0.0);
    ExecuteKeepsInv(c, blocked, s, close);
    ExecuteKeepsInv(c, blocked, Execute(c, blocked, s, close).0, t.Open());
  }

  lemma OutsideKeepsInv(s: State, op: Op)
    requires Inv(s)
    ensures Inv(s.(book := Oms.Step(s.book, op)))
  {
    var after := s.(book := Oms.Step(s.book, op));
    assert forall symbol :: after.Position(symbol) == s.Position(symbol);
  }

  /** In every run, whoever else uses the OMS: no identifier is filled twice, every fill's order
      is FILLED, and each position is the sum of its fills. */
  lemma {:induction false} InvAlongRuns(c: Costs, s: State, actions: seq<Action>)
    requires Inv(s)
    ensures Inv(Run(c, s, actions))
  {
    hide Inv, Execute, MoveToTarget;
    if |actions| > 0 {
      var n := |actions| - 1;
      InvAlongRuns(c, s, actions[..n]);
      var before := Run(c, s, actions[..n]);
      match actions[n]
      case Market(o, blocked) => ExecuteKeepsInv(c, blocked, before, o);
      case Target(t, blocked) => MoveKeepsInv(c, blocked, before, t);
      case Outside(op) => OutsideKeepsInv(before, op);
    }
  }

  lemma FreshInv()
    ensures Inv(FRESH)
  {
  }

  predicate FillsOutside(a: Action) {
    a.Outside? && a.op.Move? && a.op.target == Filled
  }

  ghost predicate FillForEveryFilled(s: State) {
    forall id :: id in s.book && s.book[id].status == Filled ==> Find(s.log, id).Some?
  }

  lemma ExecuteKeepsFills(c: Costs, blocked: bool, s: State, o: MarketOrder)
    requires FillForEveryFilled(s)
    ensures FillForEveryFilled(Execute(c, blocked, s, o).0)
  {
    hide Execute, FillOf, Find;
    ExecuteEffect(c, blocked, s, o);
    FillCarriesOrder(c, o);
    forall id {
      FindExtends(s.log, FillOf(c, o), id);
    }
  }

  lemma MoveKeepsFills(c: Costs, blocked: bool, s: State, t: Retarget)
    requires FillForEveryFilled(s)
    ensures FillForEveryFilled(MoveToTarget(c, blocked, s, t).0)
  {
    hide Execute, FillForEveryFilled, Retarget.SingleLeg;
    ExecuteKeepsFills(c, blocked, s, t.Single());
    var close := t.Close(s.Position(t.symbol) != 0.0);
    ExecuteKeepsFills(c, blocked, s, close);
    ExecuteKeepsFills(c, blocked, Execute(c, blocked, s, close).0, t.Open());
  }

  /** As long as nobody else marks orders FILLED, a fill exists for an identifier exactly when
      its order is FILLED, so the executor never raises its KeyError. */
  lemma {:induction false} FilledExactlyWhenFill(c: Costs, s: State, actions: seq<Action>)
    requires Inv(s) && FillForEveryFilled(s)
    requires forall i :: 0 <= i < |actions| ==> !FillsOutside(actions[i])
    ensures var now := Run(c, s, actions);
      && (forall id :: Find(now.log, id).Some? <==> id in now.book && now.book[id].status == Filled)
      && forall blocked, o :: Execute(c, blocked, now, o).1 != Err(MissingFill)
  {
    InvAlongRuns(c, s, actions);
    FillsAlongRuns(c, s, actions);
    var now := Run(c, s, actions);
    hide Run;
    forall id ensures Find(now.log, id).Some? <==> id in now.book && now.book[id].status == Filled {
      FindFinds(now.log, id);
    }
    forall blocked, o ensures Execute(c, blocked, now, o).1 != Err(MissingFill) {
      NoMissingFill(c, blocked, now, o);
    }
  }

  lemma NoMissingFill(c: Costs, blocked: bool, s: State, o: MarketOrder)
    requires FillForEveryFilled(s)
    ensures Execute(c, blocked, s, o).1 != Err(MissingFill)
  {
    hide FillOf, Find;
  }

  lemma {:induction false} FillsAlongRuns(c: Costs, s: State, actions: seq<Action>)
    requires FillForEveryFilled(s)
    requires forall i :: 0 <= i < |actions| ==> !FillsOutside(actions[i])
    ensures FillForEveryFilled(Run(c, s, actions))
  {
    hide Execute, MoveToTarget, Find;
    if |actions| > 0 {
      var n := |actions| - 1;
      FillsAlongRuns(c, s, actions[..n]);
      var before := Run(c, s, actions[..n]);
      match actions[n]
      case Market(o, blocked) => ExecuteKeepsFills(c, blocked, before, o);
      case Target(t, blocked) => MoveKeepsFills(c, blocked, before, t);
      case Outside(op) => assert !FillsOutside(actions[n]);
    }
  }

  // ---------- idempotence ----------

  /** Fills are never removed or replaced. */
  ghost predicate Keeps(s: State, s1: State) {
    forall id :: Find(s.log, id).Some? ==> Find(s1.log, id) == Find(s.log, id)
  }

  lemma ExecuteKeepsFound(c: Costs, blocked: bool, s: State, o: MarketOrder)
    ensures Keeps(s, Execute(c, blocked, s, o).0)
    ensures var (s1, r) := Execute(c, blocked, s, o);
      r.Ok? ==> Find(s1.log, o.id) == Some(r.value) && o.qty != 0.0 && o.mark > 0.0
  {
    hide FillOf, Find, ReduceError;
    FillCarriesOrder(c, o);
    forall id {
      FindExtends(s.log, FillOf(c, o), id);
    }
  }

  lemma MoveKeepsFound(c: Costs, blocked: bool, s: State, t: Retarget)
    ensures Keeps(s, MoveToTarget(c, blocked, s, t).0)
  {
    hide Execute, Retarget.SingleLeg, Find;
    ExecuteKeepsFound(c, blocked, s, t.Single());
    var close := t.Close(s.Position(t.symbol) != 0.0);
    ExecuteKeepsFound(c, blocked, s, close);
    ExecuteKeepsFound(c, blocked, Execute(c, blocked, s, close).0, t.Open());
  }

  lemma {:induction false} RunKeepsFound(c: Costs, s: State, actions: seq<Action>)
    ensures Keeps(s, Run(c, s, actions))
  {
    hide Execute, MoveToTarget, Find;
    if |actions| > 0 {
      var n := |actions| - 1;
      RunKeepsFound(c, s, actions[..n]);
      var before := Run(c, s, actions[..n]);
      match actions[n]
      case Market(o, blocked) => ExecuteKeepsFound(c, blocked, before, o);
      case Target(t, blocked) => MoveKeepsFound(c, blocked, before, t);
      case Outside(op) =>
    }
  }

  lemma FoundIsReturned(c: Costs, s: State, o: MarketOrder)
    requires o.qty != 0.0 && o.mark > 0.0 && Find(s.log, o.id).Some?
    ensures Execute(c, false, s, o) == (s, Ok(Find(s.log, o.id).value))
  {
    hide Find;
  }

  /** Repeating an `execute_to_target` that succeeded, with the same arguments, returns the same
      fills and changes nothing, however much happened in between. */
  lemma RepeatIsNoop(c: Costs, blocked: bool, s: State, t: Retarget, between: seq<Action>)
    requires MoveToTarget(c, blocked, s, t).1.Ok?
    ensures var (s1, r) := MoveToTarget(c, blocked, s, t);
      var s2 := Run(c, s1, between);
      MoveToTarget(c, false, s2, t) == (s2, r)
  {
    hide Execute, Find, Run, Retarget.SingleLeg;
    var (s1, r) := MoveToTarget(c, blocked, s, t);
    var s2 := Run(c, s1, between);
    RunKeepsFound(c, s1, between);
    if t.current != t.target {
      if t.SingleLeg() {
        ExecuteKeepsFound(c, blocked, s, t.Single());
        FoundIsReturned(c, s2, t.Single());
      } else {
        var close := t.Close(s.Position(t.symbol) != 0.0);
        var again := t.Close(s2.Position(t.symbol) != 0.0);
        ExecuteKeepsFound(c, blocked, s, close);
        ExecuteKeepsFound(c, blocked, Execute(c, blocked, s, close).0, t.Open());
        FoundIsReturned(c, s2, again);
        FoundIsReturned(c, s2, t.Open());
      }
    }
  }

  // ---------- reaching the target ----------

  /** An identifier that the executor can still fill. */
  predicate Usable(s: State, id: string) {
    Find(s.log, id).None? && (id in s.book ==> s.book[id].status == New)
  }

  function LegIds(t: Retarget): seq<string> {
    if t.SingleLeg() then [t.prefix + "-single"] else [t.prefix + "-close", t.prefix + "-open"]
  }

  /** Whether a fill of q carries a position of p through zero. */
  predicate Crosses(p: real, q: real) {
    (p > 0.0 && p + q < 0.0) || (p < 0.0 && p + q > 0.0)
  }

  /** No fill carried its position through zero. */
  ghost predicate NoCrossing(log: seq<Fill>) {
    forall k :: 0 <= k < |log| ==> !Crosses(Traded(log[..k], log[k].symbol), log[k].qty)
  }

  lemma NoCrossingExtends(log: seq<Fill>, f: Fill)
    requires NoCrossing(log) && !Crosses(Traded(log, f.symbol), f.qty)
    ensures NoCrossing(log + [f])
  {
    hide Traded, Crosses;
    forall k | 0 <= k < |log| + 1
        ensures !Crosses(Traded((log + [f])[..k], (log + [f])[k].symbol), (log + [f])[k].qty) {
      assert (log + [f])[..k] == if k < |log| then log[..k] else log;
    }
  }

  lemma DifferentLegs(prefix: string)
    ensures prefix + "-close" != prefix + "-open"
  {
    assert (prefix + "-close")[|prefix| + 1] == 'c' && (prefix + "-open")[|prefix| + 1] == 'o';
  }

  lemma OppositeSigns(a: real, b: real)
    requires a != 0.0 && b != 0.0 && !(a * b > 0.0)
    ensures (a > 0.0 > b) || (a < 0.0 < b)
  {
    if a > 0.0 && b > 0.0 {
      MulLt(0.0, a, b);
    } else if a < 0.0 && b < 0.0 {
      MulLt(0.0, -a, -b);
    }
  }

  /** An order under a usable identifier that reduces if it must is filled. */
  lemma UsableFills(c: Costs, s: State, o: MarketOrder)
    requires o.qty != 0.0 && o.mark > 0.0
    requires o.reduceOnly ==> ReduceError(s.Position(o.symbol), o.qty).None?
    ensures var (s1, r) := Execute(c, false, s, o);
      if Usable(s, o.id) then
        && r == Ok(FillOf(c, o)) && s1.log == s.log + [FillOf(c, o)]
        && s1.positions == s.positions[o.symbol := s.Position(o.symbol) + o.qty]
        && s1.book == Moved(Submitted(s.book, o.id, o.symbol, o.qty), o.id, Filled)
      else s1 == s
  {
    hide FillOf, Find, ReduceError;
  }

  lemma UsableElsewhere(c: Costs, s: State, o: MarketOrder, id: string)
    requires id != o.id
    ensures Usable(Execute(c, false, s, o).0, id) == Usable(s, id)
  {
    hide Execute, FillOf, Find;
    ExecuteEffect(c, false, s, o);
    FillCarriesOrder(c, o);
    FindExtends(s.log, FillOf(c, o), id);
  }

  lemma ClosingReduces(current: real, q: real)
    requires current != 0.0 && q == -current
    ensures ReduceError(current, q).None?
  {
    OppositeProduct(current, q);
  }

  /** Told the true position, at a positive price and with no block, the executor reaches its
      target if and only if none of its leg identifiers was used up before; then every leg is
      filled, no other position changes and no fill passes through zero. */
  lemma TargetReachedExactly(c: Costs, s: State, t: Retarget)
    requires Inv(s) && s.Position(t.symbol) == t.current && t.mark > 0.0 && t.current != t.target
    ensures var (s1, r) := MoveToTarget(c, false, s, t);
      && (s1.Position(t.symbol) == t.target <==> forall id :: id in LegIds(t) ==> Usable(s, id))
      && (s1.Position(t.symbol) == t.target ==>
            && r.Ok? && s1.log == s.log + r.value
            && (forall symbol :: symbol != t.symbol ==> s1.Position(symbol) == s.Position(symbol))
            && (NoCrossing(s.log) ==> NoCrossing(s1.log)))
  {
    if t.SingleLeg() {
      SingleLegReaches(c, s, t);
    } else {
      TwoLegsReach(c, s, t);
    }
  }

  /** A prefix used for an earlier target: the leg's identifier is taken, the earlier fill is
      returned without an error, and the position stays where it was. */
  lemma TargetCanBeMissed(c: Costs)
    ensures
      var s := Run(c, FRESH, [Target(Retarget("day-1", "BTC", 0.0, 1.0, 100.0, 0), false)]);
      var again := Retarget("day-1", "BTC", 1.0, 2.0, 100.0, 1);
      var (s1, r) := MoveToTarget(c, false, s, again);
      s.Position("BTC") == again.current && r.Ok? && s1 == s && s1.Position("BTC") != again.target
  {
    hide FillOf, Find, Execute;
    var first, again := Retarget("day-1", "BTC", 0.0, 1.0, 100.0, 0), Retarget("day-1", "BTC", 1.0, 2.0, 100.0, 1);
    var actions := [Target(first, false)];
    assert actions[..0] == [];
    var s := Run(c, FRESH, actions);
    assert Run(c, FRESH, []) == FRESH && s == Step(c, FRESH, actions[0]);
    assert s == Execute(c, false, FRESH, first.Single()).0;
    NothingFound(first.Single().id);
    UsableFills(c, FRESH, first.Single());
    FindExtends([], FillOf(c, first.Single()), first.Single().id);
    FillCarriesOrder(c, first.Single());
    assert [] + [FillOf(c, first.Single())] == [FillOf(c, first.Single())];
    FoundIsReturned(c, s, again.Single());
  }

  lemma NothingFound(id: string)
    ensures Find([], id) == None
  {
  }

  lemma SingleLegReaches(c: Costs, s: State, t: Retarget)
    requires Inv(s) && s.Position(t.symbol) == t.current && t.mark > 0.0 && t.current != t.target && t.SingleLeg()
    ensures var (s1, r) := MoveToTarget(c, false, s, t);
      && (s1.Position(t.symbol) == t.target <==> Usable(s, t.prefix + "-single"))
      && (s1.Position(t.symbol) == t.target ==>
            && r.Ok? && s1.log == s.log + r.value
            && (forall symbol :: symbol != t.symbol ==> s1.Position(symbol) == s.Position(symbol))
            && (NoCrossing(s.log) ==> NoCrossing(s1.log)))
  {
    hide Execute, FillOf, Usable, NoCrossing, DistinctIds, OnFilledOrders;
    var o := t.Single();
    UsableFills(c, s, o);
    FillCarriesOrder(c, o);
    if NoCrossing(s.log) {
      assert !Crosses(t.current, o.qty) by {
        if (t.current > 0.0 > t.target) || (t.current < 0.0 < t.target) {
          OppositeProduct(t.current, t.target);
        }
      }
      NoCrossingExtends(s.log, FillOf(c, o));
    }
  }

  lemma OppositeProduct(a: real, b: real)
    requires (a > 0.0 > b) || (a < 0.0 < b)
    ensures a * b < 0.0
  {
    if a > 0.0 {
      MulLt(0.0, a, -b);
    } else {
      MulLt(0.0, -a, b);
    }
  }

  lemma FlipChangesSign(t: Retarget)
    requires !t.SingleLeg()
    ensures (t.current > 0.0 > t.target) || (t.current < 0.0 < t.target)
    ensures !Crosses(t.current, -t.current) && !Crosses(0.0, t.target)
  {
    OppositeSigns(t.current, t.target);
  }

  lemma TwoLegsReach(c: Costs, s: State, t: Retarget)
    requires Inv(s) && s.Position(t.symbol) == t.current && t.mark > 0.0 && t.current != t.target && !t.SingleLeg()
    ensures var (s1, r) := MoveToTarget(c, false, s, t);
      && (s1.Position(t.symbol) == t.target <==> Usable(s, t.prefix + "-close") && Usable(s, t.prefix + "-open"))
      && (s1.Position(t.symbol) == t.target ==>
            && r.Ok? && s1.log == s.log + r.value
            && (forall symbol :: symbol != t.symbol ==> s1.Position(symbol) == s.Position(symbol))
            && (NoCrossing(s.log) ==> NoCrossing(s1.log)))
  {
    hide Execute, FillOf, Usable, NoCrossing, DistinctIds, OnFilledOrders, ReduceError, Retarget.SingleLeg, Crosses;
    FlipChangesSign(t);
    var close, open := t.Close(true), t.Open();
    var s1 := Execute(c, false, s, close).0;
    ClosingReduces(t.current, -t.current);
    UsableFills(c, s, close);
    DifferentLegs(t.prefix);
    UsableElsewhere(c, s, close, open.id);
    UsableFills(c, s1, open);
    FillCarriesOrder(c, close);
    FillCarriesOrder(c, open);
    if NoCrossing(s.log) && Usable(s, close.id) && Usable(s, open.id) {
      NoCrossingExtends(s.log, FillOf(c, close));
      TradedExtends(s.log, FillOf(c, close), t.symbol);
      NoCrossingExtends(s.log + [FillOf(c, close)], FillOf(c, open));
    }
  }

  /** What a fill pays: the mark value plus its slippage cost, never less, with the fee on top. */
  lemma FillPaysSlippage(c: Costs, o: MarketOrder)
    requires c.Valid() && o.qty != 0.0 && o.mark > 0.0
    ensures var f := FillOf(c, o);
      && f.qty * f.price == f.qty * o.mark + f.slippage && f.slippage >= 0.0
      && (o.qty > 0.0 || c.slippageRate <= 1.0 ==> f.fee >= 0.0 && f.notional == Abs(f.qty) * f.price)
  {
    var side := if o.qty > 0.0 then 1.0 else -1.0;
    MulLe(0.0, o.mark, c.slippageRate);
    var d := o.mark * c.slippageRate;
    var f := FillOf(c, o);
    assert f.price == o.mark + side * d;
    assert Abs(f.price - o.mark) == d;
    MulLe(0.0, Abs(o.qty), d);
    assert f.qty * f.price == f.qty * o.mark + f.qty * (side * d);
    if o.qty > 0.0 || c.slippageRate <= 1.0 {
      MulLe(0.0, 1.0 + side * c.slippageRate, o.mark);
      assert f.price == (1.0 + side * c.slippageRate) * o.mark;
      MulLe(0.0, Abs(o.qty), f.price);
      MulLe(0.0, f.notional, c.feeRate);
    }
  }
}
