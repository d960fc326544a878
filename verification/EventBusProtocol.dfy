/** The queue-backed event bus as a transition system: any number of publishers and worker
    threads, one step for every access to the queue or to a counter critical section.
    Clocks and time-outs become nondeterminism: a waiting `get` may give up whenever it finds
    the queue empty, and `stop` may return without its threads having left their loop. */
module EventBusProtocol {

  datatype Config = Config(maxsize: nat, batchSize: nat, workerCount: nat, dropOnFull: bool) {
    /** The constructor's argument checks. */
    predicate Valid() {
      0 < maxsize && 0 < batchSize && 0 < workerCount
    }
  }

  /** Where a publisher stands in `publish_many`; rest[0] is the event in hand. */
  datatype PublisherPc = Ready | SawFull | Putting | Accepted | Refused

  datatype Publisher<T> = Publisher(pc: PublisherPc, rest: seq<T>)

  /** Where a worker stands in `_worker_loop`. */
  datatype Worker<T> =
    | AtStopTest
    | AtEmptyTest
    | AtGet
    | Filling(batch: seq<T>)
    | AtHandler(batch: seq<T>, next: nat, errors: nat)
    | AtTaskDone(batch: seq<T>, next: nat, errors: nat)
    | AtMetrics(count: nat, errors: nat)
    | Left

  /** The shared fields, then the threads, then history: `accepted` and `handled` list the
      events put on the queue and handed to their handlers, `offered` counts the events passed
      to `publish_many`, `acceptedAtExit` is |accepted| when a worker last left its loop. */
  datatype State<T> = State(
    queue: seq<T>, unfinished: int,
    published: nat, dropped: nat, dispatched: nat,
    batches: nat, handlerErrors: nat, highWatermark: nat, backpressure: nat,
    stop: bool, running: bool,
    publishers: seq<Publisher<T>>, workers: seq<Worker<T>>,
    accepted: seq<T>, handled: seq<T>, offered: nat, acceptedAtExit: nat)

  datatype Step<T> =
    | Call(p: nat, events: seq<T>)
    | TestFull(p: nat)
    | CountBackpressure(p: nat)
    | Put(p: nat)
    | PutFull(p: nat)
    | CountPublished(p: nat)
    | CountDropped(p: nat)
    | TestStop(w: nat)
    | TestEmpty(w: nat)
    | GetFirst(w: nat)
    | GetTimeout(w: nat)
    | GetMore(w: nat)
    | BatchReady(w: nat)
    | Handle(w: nat, failed: bool)
    | TaskDone(w: nat)
    | FlushMetrics(w: nat)
    | Start
    | SetStop
    | ForgetWorkers

  predicate Init<T(==)>(s: State<T>) {
    && s.queue == [] && s.unfinished == 0
    && s.published == s.dropped == s.dispatched == s.batches == s.handlerErrors == 0
    && s.highWatermark == s.backpressure == 0
    && !s.stop && !s.running
    && (forall p | p in s.publishers :: p == Publisher(Ready, []))
    && s.workers == []
    && s.accepted == [] && s.handled == [] && s.offered == 0 && s.acceptedAtExit == 0
  }

  predicate Enabled<T(==)>(c: Config, s: State<T>, step: Step<T>) {
    match step
    case Call(p, _) => p < |s.publishers| && s.publishers[p] == Publisher(Ready, [])
    case TestFull(p) => p < |s.publishers| && !c.dropOnFull && s.publishers[p].pc.Ready? && s.publishers[p].rest != []
    case CountBackpressure(p) => p < |s.publishers| && s.publishers[p].pc.SawFull?
    case Put(p) =>
      && p < |s.publishers| && |s.queue| < c.maxsize && s.publishers[p].rest != []
      && (if c.dropOnFull then s.publishers[p].pc.Ready? else s.publishers[p].pc.Putting?)
    case PutFull(p) =>
      && p < |s.publishers| && |s.queue| >= c.maxsize && s.publishers[p].rest != []
      && c.dropOnFull && s.publishers[p].pc.Ready?
    case CountPublished(p) => p < |s.publishers| && s.publishers[p].pc.Accepted?
    case CountDropped(p) => p < |s.publishers| && s.publishers[p].pc.Refused?
    case TestStop(w) => w < |s.workers| && s.workers[w].AtStopTest?
    case TestEmpty(w) => w < |s.workers| && s.workers[w].AtEmptyTest?
    case GetFirst(w) => w < |s.workers| && s.workers[w].AtGet? && s.queue != []
    case GetTimeout(w) => w < |s.workers| && s.workers[w].AtGet? && s.queue == []
    case GetMore(w) => w < |s.workers| && s.workers[w].Filling? && |s.workers[w].batch| < c.batchSize && s.queue != []
    case BatchReady(w) =>
      && w < |s.workers| && s.workers[w].Filling?
      && (|s.workers[w].batch| >= c.batchSize || s.queue == [])
    case Handle(w, _) => w < |s.workers| && s.workers[w].AtHandler? && s.workers[w].next < |s.workers[w].batch|
    case TaskDone(w) => w < |s.workers| && s.workers[w].AtTaskDone?
    case FlushMetrics(w) => w < |s.workers| && s.workers[w].AtMetrics?
    case Start => !s.running
    case SetStop => true
    case ForgetWorkers => true
  }

  function Rest<T>(xs: seq<T>): seq<T> {
    if |xs| == 0 then [] else xs[1..]
  }

  function Apply<T(==)>(c: Config, s: State<T>, step: Step<T>): State<T>
    requires Enabled(c, s, step)
  {
    match step
    case Call(p, events) =>
      s.(publishers := s.publishers[p := Publisher(Ready, events)], offered := s.offered + |events|)
    case TestFull(p) =>
      var pc := if |s.queue| >= c.maxsize then SawFull else Putting;
      s.(publishers := s.publishers[p := s.publishers[p].(pc := pc)])
    case CountBackpressure(p) =>
      s.(publishers := s.publishers[p := s.publishers[p].(pc := Putting)], backpressure := s.backpressure + 1)
    case Put(p) =>
      var e := s.publishers[p].rest[0];
      s.(publishers := s.publishers[p := s.publishers[p].(pc := Accepted)],
         queue := s.queue + [e], unfinished := s.unfinished + 1, accepted := s.accepted + [e])
    case PutFull(p) =>
      s.(publishers := s.publishers[p := s.publishers[p].(pc := Refused)])
    case CountPublished(p) =>
      s.(publishers := s.publishers[p := Publisher(Ready, Rest(s.publishers[p].rest))],
         published := s.published + 1,
         highWatermark := if |s.queue| > s.highWatermark then |s.queue| else s.highWatermark)
    case CountDropped(p) =>
      s.(publishers := s.publishers[p := Publisher(Ready, Rest(s.publishers[p].rest))],
         dropped := s.dropped + 1, backpressure := s.backpressure + 1)
    case TestStop(w) =>
      s.(workers := s.workers[w := if s.stop then AtEmptyTest else AtGet])
    case TestEmpty(w) =>
      if s.queue == [] then s.(workers := s.workers[w := Left], acceptedAtExit := |s.accepted|)
      else s.(workers := s.workers[w := AtGet])
    case GetFirst(w) =>
      s.(workers := s.workers[w := Filling([s.queue[0]])], queue := s.queue[1..])
    case GetTimeout(w) =>
      s.(workers := s.workers[w := AtStopTest])
    case GetMore(w) =>
      s.(workers := s.workers[w := Filling(s.workers[w].batch + [s.queue[0]])], queue := s.queue[1..])
    case BatchReady(w) =>
      s.(workers := s.workers[w := AtHandler(s.workers[w].batch, 0, 0)])
    case Handle(w, failed) =>
      var me := s.workers[w];
      s.(workers := s.workers[w := AtTaskDone(me.batch, me.next, me.errors + if failed then 1 else 0)],
         handled := s.handled + [me.batch[me.next]])
    case TaskDone(w) =>
      var me := s.workers[w];
      s.(workers := s.workers[w := if me.next + 1 < |me.batch| then AtHandler(me.batch, me.next + 1, me.errors)
                                   else AtMetrics(me.next + 1, me.errors)],
         unfinished := s.unfinished - 1)
    case FlushMetrics(w) =>
      s.(workers := s.workers[w := AtStopTest],
         batches := s.batches + 1,
         dispatched := s.dispatched + s.workers[w].count,
         handlerErrors := s.handlerErrors + s.workers[w].errors)
    case Start =>
      s.(stop := false, running := true, workers := s.workers + seq(c.workerCount, _ => AtStopTest))
    case SetStop => s.(stop := true)
    case ForgetWorkers => s.(running := false)
  }

  ghost predicate Next<T(!new)>(c: Config, s: State<T>, t: State<T>) {
    exists step :: Enabled(c, s, step) && t == Apply(c, s, step)
  }

  /** A finite run from an initial state. */
  ghost predicate IsRun<T(!new)>(c: Config, run: seq<State<T>>) {
    && |run| > 0
    && Init(run[0])
    && forall i :: 0 < i < |run| ==> Next(c, run[i - 1], run[i])
  }

  // ---------- what the threads hold ----------

  /** Events a worker has taken off the queue and not yet handed to their handlers. */
  function Held<T>(w: Worker<T>): seq<T> {
    match w
    case Filling(batch) => batch
    case AtHandler(batch, next, _) => if next <= |batch| then batch[next..] else []
    case AtTaskDone(batch, next, _) => if next < |batch| then batch[next + 1..] else []
    case _ => []
  }

  /** Queue items a worker has taken and not yet marked done. */
  function OpenTasks<T>(w: Worker<T>): nat {
    match w
    case Filling(batch) => |batch|
    case AtHandler(batch, next, _) => if next <= |batch| then |batch| - next else 0
    case AtTaskDone(batch, next, _) => if next <= |batch| then |batch| - next else 0
    case _ => 0
  }

  /** Events a worker has handed over without having added them to the dispatch counter. */
  function Uncounted<T>(w: Worker<T>): nat {
    match w
    case AtHandler(_, next, _) => next
    case AtTaskDone(_, next, _) => next + 1
    case AtMetrics(count, _) => count
    case _ => 0
  }

  /** 1 between a publisher's put and its counter update. */
  function InFlight<T>(p: Publisher<T>): nat {
    if p.pc.Accepted? then 1 else 0
  }

  function Unfinished<T>(p: Publisher<T>): nat {
    |p.rest|
  }

  function Total<A>(xs: seq<A>, f: A -> nat): nat {
    if |xs| == 0 then 0 else Total(xs[..|xs| - 1], f) + f(xs[|xs| - 1])
  }

  function Count<T(==)>(xs: seq<T>, e: T): nat {
    if |xs| == 0 then 0 else Count(xs[..|xs| - 1], e) + if xs[|xs| - 1] == e then 1 else 0
  }

  /** How often a worker holds e. */
  function HeldCount<T(==)>(e: T): Worker<T> -> nat {
    w => Count(Held(w), e)
  }

  function AllHeld<T>(ws: seq<Worker<T>>): seq<T> {
    if |ws| == 0 then [] else AllHeld(ws[..|ws| - 1]) + Held(ws[|ws| - 1])
  }

  lemma {:induction false} CountConcat<T>(xs: seq<T>, ys: seq<T>, e: T)
    ensures Count(xs + ys, e) == Count(xs, e) + Count(ys, e)
  {
    if |ys| == 0 {
      assert xs + ys == xs;
    } else {
      CountConcat(xs, ys[..|ys| - 1], e);
      assert (xs + ys)[..|xs + ys| - 1] == xs + ys[..|ys| - 1];
    }
  }

  lemma {:induction false} CountIsMultiplicity<T>(xs: seq<T>, e: T)
    ensures Count(xs, e) == multiset(xs)[e]
  {
    if |xs| > 0 {
      CountIsMultiplicity(xs[..|xs| - 1], e);
      assert xs == xs[..|xs| - 1] + [xs[|xs| - 1]];
    }
  }

  lemma {:induction false} TotalUpdate<A>(xs: seq<A>, i: nat, x: A, f: A -> nat)
    requires i < |xs|
    ensures Total(xs[i := x], f) == Total(xs, f) - f(xs[i]) + f(x)
  {
    var n := |xs| - 1;
    if i == n {
      assert xs[i := x][..n] == xs[..n];
    } else {
      TotalUpdate(xs[..n], i, x, f);
      assert xs[i := x][..n] == xs[..n][i := x];
    }
  }

  lemma {:induction false} TotalAppend<A>(xs: seq<A>, ys: seq<A>, f: A -> nat)
    requires forall y :: y in ys ==> f(y) == 0
    ensures Total(xs + ys, f) == Total(xs, f)
  {
    if |ys| == 0 {
      assert xs + ys == xs;
    } else {
      TotalAppend(xs, ys[..|ys| - 1], f);
      assert (xs + ys)[..|xs + ys| - 1] == xs + ys[..|ys| - 1];
    }
  }

  lemma {:induction false} TotalZero<A>(xs: seq<A>, f: A -> nat)
    ensures Total(xs, f) == 0 <==> forall x :: x in xs ==> f(x) == 0
  {
    if |xs| > 0 {
      TotalZero(xs[..|xs| - 1], f);
      assert xs == xs[..|xs| - 1] + [xs[|xs| - 1]];
    }
  }

  lemma {:induction false} HeldAppend<T>(ws: seq<Worker<T>>, vs: seq<Worker<T>>)
    requires forall v :: v in vs ==> Held(v) == []
    ensures AllHeld(ws + vs) == AllHeld(ws)
  {
    if |vs| == 0 {
      assert ws + vs == ws;
    } else {
      HeldAppend(ws, vs[..|vs| - 1]);
      assert (ws + vs)[..|ws + vs| - 1] == ws + vs[..|vs| - 1];
    }
  }

  /** What the i-th worker holds is all that is held when nobody else holds anything. */
  lemma {:induction false} HeldByOne<T>(ws: seq<Worker<T>>, i: nat)
    requires i < |ws|
    requires forall j :: 0 <= j < |ws| && j != i ==> Held(ws[j]) == []
    ensures AllHeld(ws) == Held(ws[i])
  {
    var n := |ws| - 1;
    if i == n {
      HeldByNone(ws[..n]);
    } else {
      HeldByOne(ws[..n], i);
    }
  }

  lemma {:induction false} HeldByNone<T>(ws: seq<Worker<T>>)
    requires forall w :: w in ws ==> Held(w) == []
    ensures AllHeld(ws) == []
  {
    if |ws| > 0 {
      HeldByNone(ws[..|ws| - 1]);
    }
  }

  // ---------- invariants ----------

  predicate PublisherOk<T>(c: Config, p: Publisher<T>) {
    && (!p.pc.Ready? ==> |p.rest| > 0)
    && (c.dropOnFull ==> !p.pc.SawFull? && !p.pc.Putting?)
    && (!c.dropOnFull ==> !p.pc.Refused?)
  }

  predicate WorkerOk<T>(c: Config, w: Worker<T>) {
    match w
    case Filling(batch) => 0 < |batch| <= c.batchSize
    case AtHandler(batch, next, errors) => next < |batch| <= c.batchSize && errors <= next
    case AtTaskDone(batch, next, errors) => next < |batch| <= c.batchSize && errors <= next + 1
    case AtMetrics(count, errors) => 0 < count <= c.batchSize && errors <= count
    case _ => true
  }

  ghost predicate Shape<T>(c: Config, s: State<T>) {
    && (forall i :: 0 <= i < |s.publishers| ==> PublisherOk(c, s.publishers[i]))
    && (forall i :: 0 <= i < |s.workers| ==> WorkerOk(c, s.workers[i]))
    && |s.queue| <= c.maxsize
    && s.highWatermark <= c.maxsize
  }

  /** The queue's own count of unfinished tasks, and the bus's counters of accepted and handed
      over events, against what the queue and the threads say. */
  ghost predicate Counted<T>(s: State<T>) {
    && s.unfinished == |s.queue| + Total(s.workers, OpenTasks)
    && |s.accepted| == s.published + Total(s.publishers, InFlight)
    && |s.handled| == s.dispatched + Total(s.workers, Uncounted)
    && s.offered == s.published + s.dropped + Total(s.publishers, Unfinished)
  }

  ghost predicate Bounded<T>(c: Config, s: State<T>) {
    && s.dropped <= s.backpressure
    && (c.dropOnFull ==> s.dropped == s.backpressure)
    && (!c.dropOnFull ==> s.dropped == 0)
    && s.batches <= s.dispatched <= s.batches * c.batchSize
    && s.handlerErrors <= s.dispatched
  }

  /** Each event was accepted exactly as often as it is queued, held or handed over. */
  ghost predicate Conserved<T(!new)>(s: State<T>) {
    forall e :: Balance(s, e)
  }

  ghost predicate Balance<T>(s: State<T>, e: T) {
    Count(s.accepted, e) == Count(s.queue, e) + Total(s.workers, HeldCount(e)) + Count(s.handled, e)
  }

  ghost predicate AllLeft<T>(s: State<T>) {
    forall i :: 0 <= i < |s.workers| ==> s.workers[i].Left?
  }

  /** With no worker in its loop, the queue is what was accepted since the last one left. */
  ghost predicate QueuedSinceExit<T>(s: State<T>) {
    AllLeft(s) ==> s.acceptedAtExit <= |s.accepted| && s.queue == s.accepted[s.acceptedAtExit..]
  }

  ghost predicate Inv<T(!new)>(c: Config, s: State<T>) {
    Shape(c, s) && Counted(s) && Bounded(c, s) && Conserved(s) && QueuedSinceExit(s)
  }

  predicate ByPublisher<T>(step: Step<T>) {
    || step.Call? || step.TestFull? || step.CountBackpressure? || step.Put? || step.PutFull?
    || step.CountPublished? || step.CountDropped?
  }

  predicate ByWorker<T>(step: Step<T>) {
    !ByPublisher(step) && !step.Start? && !step.SetStop? && !step.ForgetWorkers?
  }

  /** A step moves one publisher, or one worker, or none. */
  lemma MovesOneThread<T>(c: Config, s: State<T>, step: Step<T>)
    requires Enabled(c, s, step)
    ensures ByPublisher(step) ==>
              var t := Apply(c, s, step);
              && step.p < |s.publishers| == |t.publishers|
              && t.publishers == s.publishers[step.p := t.publishers[step.p]]
              && t.workers == s.workers
    ensures ByWorker(step) ==>
              var t := Apply(c, s, step);
              && step.w < |s.workers| == |t.workers|
              && t.workers == s.workers[step.w := t.workers[step.w]]
              && t.publishers == s.publishers
  {
  }

  lemma ShapeKept<T>(c: Config, s: State<T>, step: Step<T>)
    requires c.Valid() && Enabled(c, s, step) && Shape(c, s)
    ensures Shape(c, Apply(c, s, step))
  {
  }

  lemma BoundsKept<T>(c: Config, s: State<T>, step: Step<T>)
    requires c.Valid() && Enabled(c, s, step) && Shape(c, s) && Bounded(c, s)
    ensures Bounded(c, Apply(c, s, step))
  {
    if step.FlushMetrics? {
      assert WorkerOk(c, s.workers[step.w]);
      assert (s.batches + 1) * c.batchSize == s.batches * c.batchSize + c.batchSize;
    } else if ByPublisher(step) {
      assert PublisherOk(c, s.publishers[step.p]);
    }
  }

  lemma PublisherCounts<T>(c: Config, s: State<T>, step: Step<T>)
    requires Enabled(c, s, step) && ByPublisher(step) && Shape(c, s) && Counted(s)
    ensures Counted(Apply(c, s, step))
  {
    var t := Apply(c, s, step);
    assert PublisherOk(c, s.publishers[step.p]);
    TotalUpdate(s.publishers, step.p, t.publishers[step.p], InFlight);
    TotalUpdate(s.publishers, step.p, t.publishers[step.p], Unfinished);
  }

  /** What a worker step does to its open tasks and uncounted hand-overs, against the shared fields. */
  lemma WorkerDeltas<T>(c: Config, s: State<T>, step: Step<T>)
    requires Enabled(c, s, step) && ByWorker(step) && WorkerOk(c, s.workers[step.w])
    ensures var t := Apply(c, s, step);
      && OpenTasks(t.workers[step.w]) - OpenTasks(s.workers[step.w]) ==
        t.unfinished - |t.queue| - (s.unfinished - |s.queue|)
      && Uncounted(t.workers[step.w]) - Uncounted(s.workers[step.w]) ==
        |t.handled| - t.dispatched - (|s.handled| - s.dispatched)
      && t.accepted == s.accepted && t.published == s.published && t.offered == s.offered && t.dropped == s.dropped
  {
  }

  lemma WorkerCounts<T>(c: Config, s: State<T>, step: Step<T>)
    requires Enabled(c, s, step) && ByWorker(step) && Shape(c, s) && Counted(s)
    ensures Counted(Apply(c, s, step))
  {
    var after := Apply(c, s, step).workers[step.w];
    MovesOneThread(c, s, step);
    WorkerDeltas(c, s, step);
    TotalUpdate(s.workers, step.w, after, OpenTasks);
    TotalUpdate(s.workers, step.w, after, Uncounted);
  }

  lemma CountersKept<T>(c: Config, s: State<T>, step: Step<T>)
    requires Enabled(c, s, step) && Shape(c, s) && Counted(s)
    ensures Counted(Apply(c, s, step))
  {
    if ByPublisher(step) {
      PublisherCounts(c, s, step);
    } else if ByWorker(step) {
      WorkerCounts(c, s, step);
    } else {
      var added: seq<Worker<T>> := seq(c.workerCount, _ => AtStopTest);
      TotalAppend(s.workers, added, OpenTasks);
      TotalAppend(s.workers, added, Uncounted);
    }
  }

  /** Moving the head of the queue into a worker's batch. */
  lemma GetCount<T>(ws: seq<Worker<T>>, w: nat, after: Worker<T>, queue: seq<T>, e: T)
    requires w < |ws| && |queue| > 0 && Held(after) == Held(ws[w]) + [queue[0]]
    ensures Count(queue, e) + Total(ws, HeldCount(e)) == Count(queue[1..], e) + Total(ws[w := after], HeldCount(e))
  {
    TotalUpdate(ws, w, after, HeldCount(e));
    assert queue == [queue[0]] + queue[1..];
    CountConcat([queue[0]], queue[1..], e);
    CountConcat(Held(ws[w]), [queue[0]], e);
  }

  /** Handing the first held event of a worker to its handlers. */
  lemma HandCount<T>(ws: seq<Worker<T>>, w: nat, after: Worker<T>, handled: seq<T>, x: T, e: T)
    requires w < |ws| && Held(ws[w]) == [x] + Held(after)
    ensures Total(ws, HeldCount(e)) + Count(handled, e) == Total(ws[w := after], HeldCount(e)) + Count(handled + [x], e)
  {
    TotalUpdate(ws, w, after, HeldCount(e));
    CountConcat([x], Held(after), e);
    CountConcat(handled, [x], e);
  }

  /** The worker steps other than taking an event and handing one over leave the worker's holdings alone. */
  lemma HoldingsKept<T>(c: Config, s: State<T>, step: Step<T>)
    requires Enabled(c, s, step) && ByWorker(step) && Shape(c, s)
    requires !step.GetFirst? && !step.GetMore? && !step.Handle?
    ensures Held(Apply(c, s, step).workers[step.w]) == Held(s.workers[step.w])
  {
    assert WorkerOk(c, s.workers[step.w]);
  }

  lemma HoldingsChange<T>(c: Config, s: State<T>, step: Step<T>)
    requires Enabled(c, s, step) && ByWorker(step)
    ensures var before, after := Held(s.workers[step.w]), Held(Apply(c, s, step).workers[step.w]);
      && (step.GetFirst? || step.GetMore? ==> after == before + [s.queue[0]])
      && (step.Handle? ==> before == [s.workers[step.w].batch[s.workers[step.w].next]] + after)
  {
  }

  lemma WorkerBalance<T>(c: Config, s: State<T>, step: Step<T>, e: T)
    requires Enabled(c, s, step) && ByWorker(step) && Shape(c, s) && Balance(s, e)
    ensures Balance(Apply(c, s, step), e)
  {
    var w, after := step.w, Apply(c, s, step).workers[step.w];
    MovesOneThread(c, s, step);
    HoldingsChange(c, s, step);
    if step.GetFirst? || step.GetMore? {
      GetCount(s.workers, w, after, s.queue, e);
    } else if step.Handle? {
      HandCount(s.workers, w, after, s.handled, s.workers[w].batch[s.workers[w].next], e);
    } else {
      HoldingsKept(c, s, step);
      TotalUpdate(s.workers, w, after, HeldCount(e));
    }
  }

  lemma BalanceKept<T>(c: Config, s: State<T>, step: Step<T>, e: T)
    requires Enabled(c, s, step) && Shape(c, s) && Balance(s, e)
    ensures Balance(Apply(c, s, step), e)
  {
    if ByWorker(step) {
      WorkerBalance(c, s, step, e);
    } else if step.Put? {
      CountConcat(s.queue, [s.publishers[step.p].rest[0]], e);
      CountConcat(s.accepted, [s.publishers[step.p].rest[0]], e);
    } else if step.Start? {
      TotalAppend(s.workers, seq(c.workerCount, _ => AtStopTest), HeldCount(e));
    }
  }

  lemma ExitMarkKept<T>(c: Config, s: State<T>, step: Step<T>)
    requires c.Valid() && Enabled(c, s, step) && QueuedSinceExit(s)
    ensures QueuedSinceExit(Apply(c, s, step))
  {
    var t := Apply(c, s, step);
    if step.Start? {
      assert t.workers[|s.workers|].AtStopTest?;
    } else if ByWorker(step) {
      assert AllLeft(t) ==> t.workers[step.w].Left?;
    } else {
      assert AllLeft(t) ==> AllLeft(s);
    }
  }

  lemma InvKept<T(!new)>(c: Config, s: State<T>, t: State<T>)
    requires c.Valid() && Inv(c, s) && Next(c, s, t)
    ensures Inv(c, t)
  {
    var step :| Enabled(c, s, step) && t == Apply(c, s, step);
    ShapeKept(c, s, step);
    CountersKept(c, s, step);
    BoundsKept(c, s, step);
    ExitMarkKept(c, s, step);
    forall e ensures Balance(t, e) {
      BalanceKept(c, s, step, e);
    }
  }

  lemma InvInitially<T(!new)>(c: Config, s: State<T>)
    requires Init(s)
    ensures Inv(c, s)
  {
    assert forall i :: 0 <= i < |s.publishers| ==> s.publishers[i] in s.publishers;
    TotalZero(s.publishers, InFlight);
    TotalZero(s.publishers, Unfinished);
  }

  /** The invariant holds in every state of every run, whatever the interleaving. */
  lemma {:induction false} InvAlongRuns<T(!new)>(c: Config, run: seq<State<T>>)
    requires c.Valid() && IsRun(c, run)
    ensures forall i :: 0 <= i < |run| ==> Inv(c, run[i])
  {
    if |run| == 1 {
      InvInitially(c, run[0]);
    } else {
      var n := |run| - 1;
      InvAlongRuns(c, run[..n]);
      assert Inv(c, run[..n][n - 1]);
      InvKept(c, run[n - 1], run[n]);
      forall i | 0 <= i < |run| ensures Inv(c, run[i]) {
        if i < n {
          assert Inv(c, run[..n][i]);
        }
      }
    }
  }

  // ---------- what the bus promises ----------

  lemma {:induction false} HeldCountIsCount<T>(ws: seq<Worker<T>>, e: T)
    ensures Total(ws, HeldCount(e)) == Count(AllHeld(ws), e)
  {
    if |ws| > 0 {
      HeldCountIsCount(ws[..|ws| - 1], e);
      CountConcat(AllHeld(ws[..|ws| - 1]), Held(ws[|ws| - 1]), e);
    }
  }

  /** No event is lost, invented or handed over twice: in every state of every run the accepted
      events are the queued ones, those in workers' hands and those handed over. The task count
      of the queue and the bus counters differ from these only by what is in flight. */
  lemma EventsConserved<T(!new)>(c: Config, run: seq<State<T>>, i: nat)
    requires c.Valid() && IsRun(c, run) && i < |run|
    ensures var s := run[i];
      && multiset(s.accepted) == multiset(s.queue) + multiset(AllHeld(s.workers)) + multiset(s.handled)
      && s.unfinished == |s.queue| + Total(s.workers, OpenTasks)
      && |s.accepted| == s.published + Total(s.publishers, InFlight)
      && |s.handled| == s.dispatched + Total(s.workers, Uncounted)
      && s.offered == s.published + s.dropped + Total(s.publishers, Unfinished)
      && |s.queue| <= c.maxsize && s.highWatermark <= c.maxsize
      && s.dropped <= s.backpressure && (c.dropOnFull ==> s.dropped == s.backpressure)
      && s.batches <= s.dispatched <= s.batches * c.batchSize
  {
    InvAlongRuns(c, run);
    var s := run[i];
    assert Inv(c, s);
    forall e ensures multiset(s.accepted)[e] ==
      multiset(s.queue)[e] + multiset(AllHeld(s.workers))[e] + multiset(s.handled)[e] {
      assert Balance(s, e);
      HeldCountIsCount(s.workers, e);
      CountIsMultiplicity(s.accepted, e);
      CountIsMultiplicity(s.queue, e);
      CountIsMultiplicity(AllHeld(s.workers), e);
      CountIsMultiplicity(s.handled, e);
    }
  }

  lemma HeldNeedsOpenTask<T>(ws: seq<Worker<T>>)
    requires Total(ws, OpenTasks) == 0
    ensures AllHeld(ws) == []
  {
    TotalZero(ws, OpenTasks);
    HeldByNone(ws);
  }

  /** `flush` returns true on reading zero unfinished tasks. At that moment the queue is empty,
      no worker holds an event, and everything accepted so far has been handed over. */
  lemma FlushMeansHandled<T(!new)>(c: Config, run: seq<State<T>>, i: nat)
    requires c.Valid() && IsRun(c, run) && i < |run|
    requires run[i].unfinished <= 0
    ensures run[i].queue == [] && AllHeld(run[i].workers) == []
    ensures multiset(run[i].handled) == multiset(run[i].accepted)
    ensures run[i].dispatched + Total(run[i].workers, Uncounted) ==
      run[i].published + Total(run[i].publishers, InFlight)
  {
    EventsConserved(c, run, i);
    HeldNeedsOpenTask(run[i].workers);
    CountedLength(run[i].handled, run[i].accepted);
  }

  lemma CountedLength<T>(xs: seq<T>, ys: seq<T>)
    ensures multiset(xs) == multiset(ys) ==> |xs| == |ys|
  {
    assert |multiset(xs)| == |xs| && |multiset(ys)| == |ys|;
  }

  /** At most one worker thread is still in its loop. */
  ghost predicate OneAlive<T>(s: State<T>) {
    forall i, j :: 0 <= i < |s.workers| && 0 <= j < |s.workers| && !s.workers[i].Left? && !s.workers[j].Left? ==> i == j
  }

  ghost predicate InOrder<T>(s: State<T>) {
    s.accepted == s.handled + AllHeld(s.workers) + s.queue
  }

  lemma HeldByTheAlive<T>(s: State<T>, w: nat)
    requires OneAlive(s) && w < |s.workers| && !s.workers[w].Left?
    ensures AllHeld(s.workers) == Held(s.workers[w])
  {
    HeldByOne(s.workers, w);
  }

  /** Regrouping a queue head or a batch head between its neighbours. */
  lemma Regroup<T>(xs: seq<T>, ys: seq<T>, x: T, zs: seq<T>)
    ensures xs + ys + ([x] + zs) == xs + (ys + [x]) + zs
    ensures xs + ([x] + ys) + zs == xs + [x] + ys + zs
  {
  }

  /** InOrder on the four parts that matter, before and after a worker step. */
  lemma OrderAfterGet<T>(accepted: seq<T>, handled: seq<T>, before: seq<T>, after: seq<T>, queue: seq<T>)
    requires accepted == handled + before + queue && |queue| > 0 && after == before + [queue[0]]
    ensures accepted == handled + after + queue[1..]
  {
    assert queue == [queue[0]] + queue[1..];
    Regroup(handled, before, queue[0], queue[1..]);
  }

  lemma HeldMoves<T>(c: Config, s: State<T>, step: Step<T>)
    requires Enabled(c, s, step) && ByWorker(step) && OneAlive(s)
    ensures AllHeld(s.workers) == Held(s.workers[step.w])
    ensures AllHeld(Apply(c, s, step).workers) == Held(Apply(c, s, step).workers[step.w])
  {
    MovesOneThread(c, s, step);
    HeldByTheAlive(s, step.w);
    HeldByOne(s.workers[step.w := Apply(c, s, step).workers[step.w]], step.w);
  }

  lemma OrderKeptByWorker<T>(c: Config, s: State<T>, step: Step<T>)
    requires Enabled(c, s, step) && ByWorker(step) && Shape(c, s) && OneAlive(s) && InOrder(s)
    ensures InOrder(Apply(c, s, step))
  {
    HeldMoves(c, s, step);
    HoldingsChange(c, s, step);
    var before, after := s.workers[step.w], Apply(c, s, step).workers[step.w];
    if step.GetFirst? || step.GetMore? {
      OrderAfterGet(s.accepted, s.handled, Held(before), Held(after), s.queue);
    } else if step.Handle? {
      Regroup(s.handled, Held(after), before.batch[before.next], s.queue);
    } else {
      HoldingsKept(c, s, step);
    }
  }

  lemma OrderKept<T(!new)>(c: Config, s: State<T>, t: State<T>)
    requires c.Valid() && Next(c, s, t) && Shape(c, s) && OneAlive(s) && InOrder(s)
    ensures InOrder(t)
  {
    var step :| Enabled(c, s, step) && t == Apply(c, s, step);
    if ByWorker(step) {
      OrderKeptByWorker(c, s, step);
    } else if step.Start? {
      HeldAppend(s.workers, seq(c.workerCount, _ => AtStopTest));
    } else if step.Put? {
      var e := [s.publishers[step.p].rest[0]];
      assert s.handled + AllHeld(s.workers) + (s.queue + e) == s.handled + AllHeld(s.workers) + s.queue + e;
    }
  }

  /** Workers are added only when the present ones have left their loop. */
  ghost predicate Joined<T>(s: State<T>, t: State<T>) {
    |s.workers| < |t.workers| ==> AllLeft(s)
  }

  /** No restart before the workers of the last start have left: `stop` has joined them. */
  ghost predicate RestartsAfterJoin<T>(run: seq<State<T>>) {
    forall i :: 0 < i < |run| ==> Joined(run[i - 1], run[i])
  }

  lemma OneAliveKept<T>(c: Config, s: State<T>, step: Step<T>)
    requires c.workerCount == 1 && Enabled(c, s, step) && OneAlive(s) && Joined(s, Apply(c, s, step))
    ensures OneAlive(Apply(c, s, step))
  {
    if ByWorker(step) {
      MovesOneThread(c, s, step);
    }
  }

  lemma {:induction false} OneAliveAlongRuns<T(!new)>(c: Config, run: seq<State<T>>)
    requires c.workerCount == 1 && IsRun(c, run) && RestartsAfterJoin(run)
    ensures OneAlive(run[|run| - 1])
  {
    hide Apply, Enabled, OneAlive, Joined;
    var n := |run| - 1;
    if n > 0 {
      OneAliveAlongRuns(c, run[..n]);
      assert run[..n][n - 1] == run[n - 1] && Next(c, run[n - 1], run[n]);
      var step :| Enabled(c, run[n - 1], step) && run[n] == Apply(c, run[n - 1], step);
      OneAliveKept(c, run[n - 1], step);
    } else {
      NobodyAlive(run[0]);
    }
  }

  lemma NobodyAlive<T>(s: State<T>)
    requires s.workers == []
    ensures OneAlive(s)
  {
  }

  /** With one worker, and no restart before it has left, events reach their handlers in the order
      in which the queue accepted them: the handed over events are a prefix of the accepted ones. */
  lemma {:induction false} OneWorkerIsFifo<T(!new)>(c: Config, run: seq<State<T>>)
    requires c.Valid() && IsRun(c, run) && c.workerCount == 1 && RestartsAfterJoin(run)
    ensures InOrder(run[|run| - 1])
    ensures run[|run| - 1].handled <= run[|run| - 1].accepted
  {
    hide Next, OneAlive, Joined;
    if |run| > 1 {
      var n := |run| - 1;
      OneWorkerIsFifo(c, run[..n]);
      assert run[..n][n - 1] == run[n - 1];
      InvAlongRuns(c, run[..n]);
      OneAliveAlongRuns(c, run[..n]);
      OrderKept(c, run[n - 1], run[n]);
    }
  }

  ghost predicate PublishersIdle<T>(s: State<T>) {
    forall p :: 0 <= p < |s.publishers| ==> s.publishers[p] == Publisher(Ready, [])
  }

  /** After shutdown - every publisher idle, every worker out of its loop - each offered event
      was published or dropped, and what was dispatched is exactly what had been accepted when
      the last worker left. Hence the queue is empty, and dispatched equals published, if and
      only if nothing was accepted after that exit. */
  lemma AfterShutdown<T(!new)>(c: Config, run: seq<State<T>>, i: nat)
    requires c.Valid() && IsRun(c, run) && i < |run|
    requires PublishersIdle(run[i]) && AllLeft(run[i])
    ensures var s := run[i];
      && s.offered == s.published + s.dropped
      && s.published == |s.accepted|
      && s.dispatched == s.acceptedAtExit == |s.handled| <= |s.accepted|
      && multiset(s.handled) == multiset(s.accepted[..s.acceptedAtExit])
      && (s.queue == [] <==> |s.accepted| == s.acceptedAtExit)
      && (s.dispatched == s.published <==> |s.accepted| == s.acceptedAtExit)
  {
    EventsConserved(c, run, i);
    InvAlongRuns(c, run);
    var s := run[i];
    assert Inv(c, s);
    assert forall x :: x in s.publishers ==> x == Publisher(Ready, []);
    assert forall x :: x in s.workers ==> x.Left?;
    TotalZero(s.publishers, InFlight);
    TotalZero(s.publishers, Unfinished);
    TotalZero(s.workers, Uncounted);
    HeldByNone(s.workers);
    assert s.accepted == s.accepted[..s.acceptedAtExit] + s.queue;
    assert multiset(s.accepted) == multiset(s.accepted[..s.acceptedAtExit]) + multiset(s.queue);
    assert multiset(s.accepted) - multiset(s.queue) == multiset(s.handled);
    CountedLength(s.handled, s.accepted[..s.acceptedAtExit]);
  }

  lemma NextBy<T(!new)>(c: Config, s: State<T>, step: Step<T>) returns (t: State<T>)
    requires Enabled(c, s, step)
    ensures t == Apply(c, s, step) && Next(c, s, t)
  {
    t := Apply(c, s, step);
  }

  /** The bus at rest before `start`, with one publisher thread. */
  function Fresh(): State<int> {
    State([], 0, 0, 0, 0, 0, 0, 0, 0, false, false, [Publisher(Ready, [])], [], [], [], 0, 0)
  }

  /** An event published after the only worker has left is accepted and never dispatched. */
  lemma LateEventStaysQueued() returns (c: Config, run: seq<State<int>>)
    ensures c.Valid() && IsRun(c, run)
    ensures var s := run[|run| - 1];
      && s.stop && |s.workers| == 1 && AllLeft(s) && PublishersIdle(s)
      && s.queue == [7] && s.published == 1 && s.dispatched == 0
  {
    c := Config(10, 4, 1, true);
    var s0 := Fresh();
    var s1 := NextBy(c, s0, Start);
    var s2 := NextBy(c, s1, SetStop);
    var s3 := NextBy(c, s2, TestStop(0));
    var s4 := NextBy(c, s3, TestEmpty(0));
    var s5 := NextBy(c, s4, Call(0, [7]));
    var s6 := NextBy(c, s5, Put(0));
    var s7 := NextBy(c, s6, CountPublished(0));
    run := [s0, s1, s2, s3, s4, s5, s6, s7];
  }

  /** The first worker still waits for an event when the second is started. */
  lemma RestartWithoutJoin(c: Config) returns (run: seq<State<int>>)
    requires c == Config(10, 1, 1, true)
    ensures IsRun(c, run) && run[|run| - 1] == Fresh().(running := true, workers := [AtGet, AtStopTest])
  {
    var s0 := Fresh();
    var s1 := NextBy(c, s0, Start);
    var s2 := NextBy(c, s1, TestStop(0));
    var s3 := NextBy(c, s2, SetStop);
    var s4 := NextBy(c, s3, ForgetWorkers);
    var s5 := NextBy(c, s4, Start);
    run := [s0, s1, s2, s3, s4, s5];
  }

  lemma TwoQueued(c: Config, start: seq<State<int>>) returns (run: seq<State<int>>)
    requires c == Config(10, 1, 1, true) && |start| > 0 && IsRun(c, start)
    requires start[|start| - 1] == Fresh().(running := true, workers := [AtGet, AtStopTest])
    ensures |run| > 0 && IsRun(c, run)
    ensures var s := run[|run| - 1];
      s.queue == s.accepted == [7, 8] && s.handled == [] && s.workers == [AtGet, AtGet]
  {
    hide IsRun;
    var s0 := start[|start| - 1];
    var s1 := NextBy(c, s0, TestStop(1));
    var s2 := NextBy(c, s1, Call(0, [7, 8]));
    var s3 := NextBy(c, s2, Put(0));
    var s4 := NextBy(c, s3, CountPublished(0));
    var s5 := NextBy(c, s4, Put(0));
    run := RunOn(c, RunOn(c, RunOn(c, RunOn(c, RunOn(c, start, s1), s2), s3), s4), s5);
  }

  /** A `stop` whose join timed out, then a `start`: two workers are alive, and the event accepted
      last is handed over first. */
  lemma RestartBreaksOrder() returns (c: Config, run: seq<State<int>>)
    ensures c.Valid() && c.workerCount == 1 && IsRun(c, run)
    ensures run[|run| - 1].accepted == [7, 8] && run[|run| - 1].handled == [8]
  {
    c := Config(10, 1, 1, true);
    var started := RestartWithoutJoin(c);
    var before := TwoQueued(c, started);
    var s0 := before[|before| - 1];
    var s1 := NextBy(c, s0, GetFirst(0));
    var s2 := NextBy(c, s1, GetFirst(1));
    var s3 := NextBy(c, s2, BatchReady(1));
    var s4 := NextBy(c, s3, Handle(1, false));
    run := RunOn(c, RunOn(c, RunOn(c, RunOn(c, before, s1), s2), s3), s4);
  }

  ghost function RunOn<T(!new)>(c: Config, run: seq<State<T>>, t: State<T>): (r: seq<State<T>>)
    requires |run| > 0 && IsRun(c, run) && Next(c, run[|run| - 1], t)
    ensures |r| > 0 && IsRun(c, r) && r[|r| - 1] == t
  {
    run + [t]
  }

  /** A worker can count an event as dispatched before its publisher has counted it as
      published, so the statistics may show dispatched > published. */
  lemma DispatchedOvertakesPublished() returns (c: Config, run: seq<State<int>>)
    ensures c.Valid() && IsRun(c, run)
    ensures run[|run| - 1].dispatched > run[|run| - 1].published
  {
    c := Config(10, 1, 1, true);
    var s0 := Fresh();
    var s1 := NextBy(c, s0, Start);
    var s2 := NextBy(c, s1, Call(0, [7]));
    var s3 := NextBy(c, s2, Put(0));
    var s4 := NextBy(c, s3, TestStop(0));
    var s5 := NextBy(c, s4, GetFirst(0));
    var s6 := NextBy(c, s5, BatchReady(0));
    var s7 := NextBy(c, s6, Handle(0, false));
    var s8 := NextBy(c, s7, TaskDone(0));
    var s9 := NextBy(c, s8, FlushMetrics(0));
    run := [s0, s1, s2, s3, s4, s5, s6, s7, s8, s9];
  }

  /** The statistics show dispatched <= published if and only if the publishers between their put
      and their count are no more than the events still queued, held, or handed over without
      having been counted. So dispatched leads by no more than the former, and not at all while
      there are none. */
  lemma DispatchedWithinPublished<T(!new)>(c: Config, run: seq<State<T>>, i: nat)
    requires c.Valid() && IsRun(c, run) && i < |run|
    ensures
      var s := run[i];
      s.dispatched <= s.published <==>
        Total(s.publishers, InFlight) <= |s.queue| + |AllHeld(s.workers)| + Total(s.workers, Uncounted)
    ensures run[i].dispatched <= run[i].published + Total(run[i].publishers, InFlight)
    ensures (forall p :: 0 <= p < |run[i].publishers| ==> !run[i].publishers[p].pc.Accepted?)
            ==> run[i].dispatched <= run[i].published
  {
    EventsConserved(c, run, i);
    var s := run[i];
    assert |multiset(s.accepted)| == |multiset(s.queue)| + |multiset(AllHeld(s.workers))| + |multiset(s.handled)|;
    assert |multiset(s.accepted)| == |s.accepted| && |multiset(s.handled)| == |s.handled|;
    if forall p :: 0 <= p < |s.publishers| ==> !s.publishers[p].pc.Accepted? {
      assert forall x :: x in s.publishers ==> InFlight(x) == 0;
      TotalZero(s.publishers, InFlight);
    }
  }
}
