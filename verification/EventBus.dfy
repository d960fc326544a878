/** The in-process bus (`EventBus`) and, for one thread running undisturbed, the code of the
    queue-backed bus (`LowLatencyEventBus`), proved to be a run of EventBusProtocol. */
module EventBus {
  import opened EventBusProtocol

  datatype Subscription<H> = Subscription(eventType: string, handler: H)

  /** Python's `list.remove`: drop the first occurrence, if there is one. */
  function RemoveFirst<H(==)>(xs: seq<H>, h: H): seq<H> {
    if |xs| == 0 then []
    else if xs[0] == h then xs[1..]
    else [xs[0]] + RemoveFirst(xs[1..], h)
  }

  /** The handlers that run for one event: everyone in order, up to and including the first
      that raises. */
  function Reached<H>(xs: seq<H>, raises: H -> bool): seq<H> {
    if |xs| == 0 then []
    else if raises(xs[0]) then [xs[0]]
    else [xs[0]] + Reached(xs[1..], raises)
  }

  lemma {:induction false} ReachedSnoc<H>(xs: seq<H>, h: H, raises: H -> bool)
    requires forall i :: 0 <= i < |xs| ==> !raises(xs[i])
    ensures Reached(xs, raises) == xs && Reached(xs + [h], raises) == xs + [h]
  {
    if |xs| > 0 {
      assert (xs + [h])[1..] == xs[1..] + [h];
      ReachedSnoc(xs[1..], h, raises);
    }
  }

  lemma {:induction false} ReachedStops<H>(xs: seq<H>, rest: seq<H>, raises: H -> bool)
    requires |xs| > 0 && raises(xs[|xs| - 1]) && forall i :: 0 <= i < |xs| - 1 ==> !raises(xs[i])
    ensures Reached(xs + rest, raises) == xs
  {
    assert (xs + rest)[1..] == xs[1..] + rest;
    if |xs| > 1 {
      ReachedStops(xs[1..], rest, raises);
    }
  }

  /** Subscribing and at once unsubscribing the same handler restores the handler list exactly
      when nothing but that handler follows its first earlier subscription; otherwise the
      earlier subscription is the one removed and the call order changes. */
  lemma {:induction false} UnsubscribeUndoes<H(!new)>(xs: seq<H>, h: H)
    ensures RemoveFirst(xs + [h], h) == xs
       <==> forall i, j :: 0 <= i <= j < |xs| && xs[i] == h ==> xs[j] == h
  {
    if |xs| > 0 {
      assert (xs + [h])[1..] == xs[1..] + [h];
      if xs[0] == h {
        assert (forall j :: 0 <= j < |xs| ==> xs[j] == h) ==> xs[1..] + [h] == xs;
        if xs[1..] + [h] == xs {
          TailShiftConstant(xs, h);
        }
      } else {
        UnsubscribeUndoes(xs[1..], h);
        assert xs == [xs[0]] + xs[1..];
        if RemoveFirst(xs + [h], h) == xs {
          assert RemoveFirst(xs[1..] + [h], h) == xs[1..];
          forall i, j | 0 <= i <= j < |xs| && xs[i] == h ensures xs[j] == h {
            assert xs[1..][i - 1] == h;
            assert xs[1..][j - 1] == xs[j];
          }
        } else if forall i, j :: 0 <= i <= j < |xs| && xs[i] == h ==> xs[j] == h {
          forall i, j | 0 <= i <= j < |xs[1..]| && xs[1..][i] == h ensures xs[1..][j] == h {
            assert xs[i + 1] == h && xs[j + 1] == xs[1..][j];
          }
        }
      }
    }
  }

  lemma {:induction false} TailShiftConstant<H>(xs: seq<H>, h: H)
    requires |xs| > 0 && xs[1..] + [h] == xs
    ensures forall j :: 0 <= j < |xs| ==> xs[j] == h
  {
    var j := |xs| - 1;
    assert xs[j] == (xs[1..] + [h])[j] == h;
    while j > 0
      invariant 0 <= j < |xs|
      invariant forall k :: j <= k < |xs| ==> xs[k] == h
    {
      j := j - 1;
      assert xs[j] == (xs[1..] + [h])[j] == xs[1..][j] == xs[j + 1];
    }
  }

  class EventBus<H(==), E> {
    var handlers: map<string, seq<H>>
    /** History: every handler call made so far. */
    ghost var calls: seq<(H, E)>

    constructor ()
      ensures handlers == map[] && calls == []
    {
      handlers := map[];
      calls := [];
    }

    function Handlers(eventType: string): seq<H>
      reads this
    {
      if eventType in handlers then handlers[eventType] else []
    }

    method Subscribe(eventType: string, handler: H) returns (sub: Subscription<H>)
      modifies this
      ensures sub == Subscription(eventType, handler)
      ensures Handlers(eventType) == old(Handlers(eventType)) + [handler]
      ensures forall t :: t != eventType ==> Handlers(t) == old(Handlers(t))
      ensures calls == old(calls)
    {
      handlers := handlers[eventType := Handlers(eventType) + [handler]];
      return Subscription(eventType, handler);
    }

    method Unsubscribe(sub: Subscription<H>)
      modifies this
      ensures Handlers(sub.eventType) == RemoveFirst(old(Handlers(sub.eventType)), sub.handler)
      ensures forall t :: t != sub.eventType ==> Handlers(t) == old(Handlers(t))
      ensures calls == old(calls)
    {
      if Handlers(sub.eventType) == [] {
        return;
      }
      handlers := handlers[sub.eventType := RemoveFirst(Handlers(sub.eventType), sub.handler)];
    }

    /** Calls the handlers subscribed at entry in subscription order; the first exception ends
        the round and is the caller's. */
    method Publish(eventType: string, event: E, raises: H -> bool) returns (ok: bool)
      modifies this`calls
      ensures calls == old(calls) + Calls(Reached(Handlers(eventType), raises), event)
      ensures ok <==> forall h :: h in Handlers(eventType) ==> !raises(h)
    {
      var snapshot := Handlers(eventType);
      for i := 0 to |snapshot|
        invariant forall j :: 0 <= j < i ==> !raises(snapshot[j])
        invariant calls == old(calls) + Calls(snapshot[..i], event)
      {
        calls := calls + [(snapshot[i], event)];
        assert snapshot[..i + 1] == snapshot[..i] + [snapshot[i]];
        if raises(snapshot[i]) {
          ReachedStops(snapshot[..i + 1], snapshot[i + 1..], raises);
          assert snapshot[..i + 1] + snapshot[i + 1..] == snapshot;
          return false;
        }
      }
      assert snapshot[..|snapshot|] == snapshot;
      if |snapshot| > 0 {
        ReachedSnoc(snapshot, snapshot[0], raises);
      }
      return true;
    }

    static function Calls(hs: seq<H>, event: E): seq<(H, E)> {
      seq(|hs|, i requires 0 <= i < |hs| => (hs[i], event))
    }
  }

  lemma RunGrows<T(!new)>(c: Config, run: seq<State<T>>, step: Step<T>)
    requires IsRun(c, run) && Enabled(c, run[|run| - 1], step)
    ensures IsRun(c, run + [Apply(c, run[|run| - 1], step)])
  {
    var longer := run + [Apply(c, run[|run| - 1], step)];
    assert Next(c, run[|run| - 1], Apply(c, run[|run| - 1], step));
    forall i | 0 < i < |longer| ensures Next(c, longer[i - 1], longer[i]) {
      if i < |run| {
        assert Next(c, run[i - 1], run[i]);
      }
    }
  }

  function Raising<T>(events: seq<T>, raises: T -> bool): nat {
    if |events| == 0 then 0
    else Raising(events[..|events| - 1], raises) + if raises(events[|events| - 1]) then 1 else 0
  }

  lemma {:induction false} RaisingConcat<T>(xs: seq<T>, ys: seq<T>, raises: T -> bool)
    ensures Raising(xs + ys, raises) == Raising(xs, raises) + Raising(ys, raises)
  {
    if |ys| == 0 {
      assert xs + ys == xs;
    } else {
      RaisingConcat(xs, ys[..|ys| - 1], raises);
      assert (xs + ys)[..|xs + ys| - 1] == xs + ys[..|ys| - 1];
    }
  }

  class LowLatencyEventBus<T(==,!new)> {
    const config: Config
    var queue: seq<T>
    var unfinished: int
    var published: nat
    var dropped: nat
    var dispatched: nat
    var batches: nat
    var handlerErrors: nat
    var highWatermark: nat
    var backpressure: nat
    var stop: bool
    /** The protocol run so far, and its last state, whose shared part these fields are. */
    ghost var run: seq<State<T>>
    ghost var model: State<T>

    ghost predicate Valid()
      reads this
    {
      && config.Valid()
      && IsRun(config, run) && model == run[|run| - 1]
      && queue == model.queue && unfinished == model.unfinished
      && published == model.published && dropped == model.dropped && dispatched == model.dispatched
      && batches == model.batches && handlerErrors == model.handlerErrors
      && highWatermark == model.highWatermark && backpressure == model.backpressure && stop == model.stop
    }

    constructor (config: Config, publishers: nat)
      requires config.Valid()
      ensures Valid() && this.config == config && Init(model) && |model.publishers| == publishers
    {
      this.config := config;
      queue, unfinished, stop := [], 0, false;
      published, dropped, dispatched, batches, handlerErrors, highWatermark, backpressure := 0, 0, 0, 0, 0, 0, 0;
      model := State([], 0, 0, 0, 0, 0, 0, 0, 0, false, false, seq(publishers, _ => Publisher(Ready, [])), [], [],
        [], 0, 0);
      run := [model];
    }

    ghost method Move(step: Step<T>)
      requires IsRun(config, run) && model == run[|run| - 1] && Enabled(config, model, step)
      modifies this`model, this`run
      ensures model == Apply(config, old(model), step)
      ensures run == old(run) + [model] && IsRun(config, run)
    {
      RunGrows(config, run, step);
      model := Apply(config, model, step);
      run := run + [model];
    }

    /** A successful `put_nowait`. */
    method Enqueue(event: T, ghost p: nat)
      requires Valid() && config.dropOnFull && |queue| < config.maxsize
      requires p < |model.publishers| && model.publishers[p].pc.Ready? && |model.publishers[p].rest| > 0
      requires model.publishers[p].rest[0] == event
      modifies this`queue, this`unfinished, this`model, this`run
      ensures Valid() && old(run) <= run && model.workers == old(model.workers)
      ensures model.publishers == old(model.publishers)[p := old(model.publishers)[p].(pc := Accepted)]
      ensures queue == old(queue) + [event] && unfinished == old(unfinished) + 1
    {
      hide IsRun;
      queue, unfinished := queue + [event], unfinished + 1;
      Move(Put(p));
    }

    /** The counter section after a put. */
    method CountAccepted(ghost p: nat)
      requires Valid() && p < |model.publishers| && model.publishers[p].pc.Accepted? && |model.publishers[p].rest| > 0
      modifies this`published, this`highWatermark, this`model, this`run
      ensures Valid() && old(run) <= run && model.workers == old(model.workers)
      ensures model.publishers == old(model.publishers)[p := Publisher(Ready, old(model.publishers[p].rest)[1..])]
      ensures published == old(published) + 1
      ensures highWatermark == if |queue| > old(highWatermark) then |queue| else old(highWatermark)
    {
      hide IsRun;
      published := published + 1;
      highWatermark := if |queue| > highWatermark then |queue| else highWatermark;
      Move(CountPublished(p));
    }

    /** One round of the loop of `publish_many`. */
    method OfferOne(event: T, ghost p: nat)
      requires Valid() && config.dropOnFull
      requires p < |model.publishers| && model.publishers[p].pc.Ready? && |model.publishers[p].rest| > 0
      requires model.publishers[p].rest[0] == event
      modifies this
      ensures Valid() && old(run) <= run
      ensures model.workers == old(model.workers)
      ensures model.publishers == old(model.publishers)[p := Publisher(Ready, old(model.publishers[p].rest)[1..])]
      ensures if |old(queue)| < config.maxsize then
                && queue == old(queue) + [event] && unfinished == old(unfinished) + 1
                && published == old(published) + 1 && dropped == old(dropped) && backpressure == old(backpressure)
                && highWatermark == (if |queue| > old(highWatermark) then |queue| else old(highWatermark))
              else
                && queue == old(queue) && unfinished == old(unfinished)
                && published == old(published) && highWatermark == old(highWatermark)
                && dropped == old(dropped) + 1 && backpressure == old(backpressure) + 1
    {
      if |queue| < config.maxsize {
        Enqueue(event, p);
        CountAccepted(p);
      } else {
        Move(PutFull(p));
        dropped, backpressure := dropped + 1, backpressure + 1;
        Move(CountDropped(p));
      }
    }

    function Room(): nat
      reads this
    {
      if |queue| < config.maxsize then config.maxsize - |queue| else 0
    }

    /** `publish_many` of a dropping bus, nobody else acting: the queue takes events while there
        is room; every later one is dropped and counted both as dropped and as backpressure. */
    method PublishMany(events: seq<T>, ghost p: nat)
      requires Valid() && config.dropOnFull
      requires p < |model.publishers| && model.publishers[p] == Publisher(Ready, [])
      modifies this
      ensures Valid() && old(run) <= run
      ensures model.publishers == old(model.publishers) && model.workers == old(model.workers)
      ensures if |events| <= old(Room()) then queue == old(queue) + events && dropped == old(dropped)
              else queue == old(queue) + events[..old(Room())] && dropped == old(dropped) + |events| - old(Room())
      ensures published == old(published) + |queue| - |old(queue)|
      ensures unfinished == old(unfinished) + |queue| - |old(queue)|
      ensures backpressure == old(backpressure) + dropped - old(dropped)
    {
      ghost var start := model;
      Move(Call(p, events));
      for i := 0 to |events|
        invariant Valid() && old(run) <= run && model.workers == start.workers
        invariant model.publishers == start.publishers[p := Publisher(Ready, events[i..])]
        invariant if i <= old(Room()) then queue == old(queue) + events[..i] && dropped == old(dropped)
                  else queue == old(queue) + events[..old(Room())] && dropped == old(dropped) + i - old(Room())
        invariant published == old(published) + |queue| - |old(queue)|
        invariant unfinished == old(unfinished) + |queue| - |old(queue)|
        invariant backpressure == old(backpressure) + dropped - old(dropped)
      {
        assert events[i..][1..] == events[i + 1..];
        assert events[..i + 1] == events[..i] + [events[i]];
        OfferOne(events[i], p);
      }
      assert events[..|events|] == events;
      assert start.publishers[p := Publisher(Ready, [])] == start.publishers;
    }

    /** A `get` that finds the queue non-empty, into an empty or a started batch. */
    method Take(batch: seq<T>, ghost w: nat) returns (longer: seq<T>)
      requires Valid() && |queue| > 0 && w < |model.workers| && |batch| < config.batchSize
      requires model.workers[w] == if batch == [] then AtGet else Filling(batch)
      modifies this`queue, this`model, this`run
      ensures Valid() && old(run) <= run && |model.workers| == |old(model.workers)|
      ensures model.workers[w] == Filling(longer) && model.handled == old(model.handled)
      ensures longer == batch + [old(queue)[0]] && queue == old(queue)[1..]
    {
      hide IsRun;
      longer, queue := batch + [queue[0]], queue[1..];
      Move(if batch == [] then GetFirst(w) else GetMore(w));
    }

    /** Taking a batch: one `get`, then `get_nowait` until the batch is full or the queue empty. */
    method TakeBatch(ghost w: nat) returns (batch: seq<T>)
      requires Valid() && |queue| > 0 && w < |model.workers| && model.workers[w].AtGet?
      modifies this`queue, this`model, this`run
      ensures Valid() && old(run) <= run && |model.workers| == |old(model.workers)|
      ensures model.workers[w] == AtHandler(batch, 0, 0) && model.handled == old(model.handled)
      ensures old(queue) == batch + queue
      ensures |batch| == if |old(queue)| < config.batchSize then |old(queue)| else config.batchSize
    {
      hide IsRun;
      batch := Take([], w);
      while |batch| < config.batchSize && queue != []
        invariant Valid() && old(run) <= run && |model.workers| == |old(model.workers)|
        invariant model.workers[w] == Filling(batch) && model.handled == old(model.handled)
        invariant old(queue) == batch + queue && 0 < |batch| <= config.batchSize
        decreases |queue|
      {
        assert batch + queue == batch + [queue[0]] + queue[1..];
        batch := Take(batch, w);
      }
      Move(BatchReady(w));
    }

    /** Handing over one event of a batch and marking its queue task done. */
    method HandOne(batch: seq<T>, done: nat, errors: nat, failed: bool, ghost w: nat)
      requires Valid() && done < |batch| && w < |model.workers| && model.workers[w] == AtHandler(batch, done, errors)
      modifies this`unfinished, this`model, this`run
      ensures Valid() && old(run) <= run && |model.workers| == |old(model.workers)|
      ensures var errors' := errors + if failed then 1 else 0;
              model.workers[w] == if done + 1 < |batch|
                then AtHandler(batch, done + 1, errors') else AtMetrics(done + 1, errors')
      ensures model.handled == old(model.handled) + [batch[done]]
      ensures unfinished == old(unfinished) - 1
    {
      Move(Handle(w, failed));
      unfinished := unfinished - 1;
      Move(TaskDone(w));
    }

    /** Handing a batch over, event by event, and the metrics update that follows. An exception
        from the handlers is counted and does not stop the batch. */
    method DispatchBatch(batch: seq<T>, raises: T -> bool, ghost w: nat)
      requires Valid() && |batch| > 0 && w < |model.workers| && model.workers[w] == AtHandler(batch, 0, 0)
      modifies this`unfinished, this`dispatched, this`batches, this`handlerErrors, this`model, this`run
      ensures Valid() && old(run) <= run && |model.workers| == |old(model.workers)|
      ensures model.workers[w].AtStopTest? && model.handled == old(model.handled) + batch
      ensures unfinished == old(unfinished) - |batch|
      ensures dispatched == old(dispatched) + |batch| && batches == old(batches) + 1
      ensures handlerErrors == old(handlerErrors) + Raising(batch, raises)
    {
      hide IsRun;
      var done, errors := 0, 0;
      while done < |batch|
        invariant Valid() && old(run) <= run && |model.workers| == |old(model.workers)|
        invariant 0 <= done <= |batch| && errors == Raising(batch[..done], raises)
        invariant model.workers[w] == if done < |batch| then AtHandler(batch, done, errors) else AtMetrics(done, errors)
        invariant model.handled == old(model.handled) + batch[..done]
        invariant unfinished == old(unfinished) - done
        invariant dispatched == old(dispatched) && batches == old(batches) && handlerErrors == old(handlerErrors)
      {
        assert batch[..done + 1] == batch[..done] + [batch[done]];
        assert batch[..done + 1][..done] == batch[..done];
        HandOne(batch, done, errors, raises(batch[done]), w);
        errors := errors + if raises(batch[done]) then 1 else 0;
        done := done + 1;
      }
      assert batch[..|batch|] == batch;
      CountBatch(done, errors, w);
    }

    /** The counter section at the end of a batch. */
    method CountBatch(done: nat, errors: nat, ghost w: nat)
      requires Valid() && w < |model.workers| && model.workers[w] == AtMetrics(done, errors)
      modifies this`dispatched, this`batches, this`handlerErrors, this`model, this`run
      ensures Valid() && old(run) <= run && |model.workers| == |old(model.workers)|
      ensures model.workers[w].AtStopTest? && model.handled == old(model.handled)
      ensures dispatched == old(dispatched) + done && batches == old(batches) + 1
        && handlerErrors == old(handlerErrors) + errors
    {
      batches, dispatched, handlerErrors := batches + 1, dispatched + done, handlerErrors + errors;
      Move(FlushMetrics(w));
    }

    /** One round of `_worker_loop` with stop set and the queue found non-empty. */
    method Round(raises: T -> bool, ghost w: nat) returns (batch: seq<T>)
      requires Valid() && stop && |queue| > 0 && w < |model.workers| && model.workers[w].AtEmptyTest?
      modifies this`queue, this`unfinished, this`dispatched, this`batches, this`handlerErrors, this`model, this`run
      ensures Valid() && old(run) <= run && |model.workers| == |old(model.workers)| && model.workers[w].AtEmptyTest?
      ensures old(queue) == batch + queue && model.handled == old(model.handled) + batch
      ensures |batch| == if |old(queue)| < config.batchSize then |old(queue)| else config.batchSize
      ensures unfinished == old(unfinished) - |batch| && dispatched == old(dispatched) + |batch|
      ensures batches == old(batches) + 1 && handlerErrors == old(handlerErrors) + Raising(batch, raises)
    {
      hide IsRun;
      Move(TestEmpty(w));
      batch := TakeBatch(w);
      DispatchBatch(batch, raises, w);
      Move(TestStop(w));
    }

    /** `_worker_loop` once stop is set and nobody else is acting: it hands over the whole queue
        in order, in full batches but for the last, and leaves. */
    method WorkerLoop(raises: T -> bool, ghost w: nat)
      requires Valid() && stop && w < |model.workers| && model.workers[w].AtStopTest?
      modifies this`queue, this`unfinished, this`dispatched, this`batches, this`handlerErrors, this`model, this`run
      ensures Valid() && old(run) <= run && |model.workers| == |old(model.workers)|
      ensures queue == [] && model.workers[w].Left? && model.handled == old(model.handled) + old(queue)
      ensures unfinished == old(unfinished) - |old(queue)| && dispatched == old(dispatched) + |old(queue)|
      ensures handlerErrors == old(handlerErrors) + Raising(old(queue), raises)
      ensures (batches - old(batches)) * config.batchSize < |old(queue)| + config.batchSize
    {
      hide IsRun;
      ghost var gone: seq<T> := [];
      Move(TestStop(w));
      while queue != []
        invariant Valid() && old(run) <= run && |model.workers| == |old(model.workers)| && model.workers[w].AtEmptyTest?
        invariant old(queue) == gone + queue && model.handled == old(model.handled) + gone
        invariant unfinished == old(unfinished) - |gone| && dispatched == old(dispatched) + |gone|
        invariant handlerErrors == old(handlerErrors) + Raising(gone, raises)
        invariant (batches - old(batches)) * config.batchSize < |gone| + config.batchSize
        invariant queue != [] ==> (batches - old(batches)) * config.batchSize == |gone|
        decreases |queue|
      {
        ghost var before := batches - old(batches);
        var batch := Round(raises, w);
        RaisingConcat(gone, batch, raises);
        assert (before + 1) * config.batchSize == before * config.batchSize + config.batchSize;
        gone := gone + batch;
      }
      assert gone == old(queue);
      Leave(w);
    }

    /** The loop test that ends `_worker_loop`. */
    method Leave(ghost w: nat)
      requires Valid() && queue == [] && w < |model.workers| && model.workers[w].AtEmptyTest?
      modifies this`model, this`run
      ensures Valid() && old(run) <= run && |model.workers| == |old(model.workers)|
      ensures model.workers[w].Left? && model.handled == old(model.handled)
    {
      Move(TestEmpty(w));
    }
  }
}
