/** Order on the Redis bus, in terms of what an event carries: the events of one partition
    go to one worker, and begin in the order in which they were submitted. */
module RedisOrder {
  import opened Basics
  import opened Partitioning
  import opened Events
  import opened RedisBus
  import opened RedisRuns
  import opened RedisSafety

  function EventOf(item: Item<Delivery>): DomainEvent { item.work.event }

  /** What a submission puts into a queue, and what a worker takes. */
  function Submitted(g: Group, step: RedisStep): seq<Item<Delivery>> {
    if step.Submit? && g.fetched != [] && g.fetched[0].0 < |g.stream| && g.stream[g.fetched[0].0].Envelope?
    then var e := g.stream[g.fetched[0].0].event; [Item(RoutingKey(e), Delivery(g.fetched[0].0, e, g.fetched[0].1))]
    else []
  }

  function Taken(g: Group, step: RedisStep): seq<Item<Delivery>> {
    if step.Begin? && step.worker < |g.d.queues| && g.d.queues[step.worker] != [] then [g.d.queues[step.worker][0]] else []
  }

  /** Since the process was last started: what entered its queues, and what was begun. */
  ghost function Entered(cfg: RedisConfig, steps: seq<RedisStep>): seq<Item<Delivery>>
    requires Sane(cfg) && RedisExec(cfg, NewGroup(cfg), steps).Some?
  {
    if steps == [] || steps[|steps| - 1].Crash? then []
    else
      var init, last := steps[..|steps| - 1], steps[|steps| - 1];
      Entered(cfg, init) + Submitted(RedisExec(cfg, NewGroup(cfg), init).value, last)
  }

  ghost function Begun(cfg: RedisConfig, steps: seq<RedisStep>): seq<Item<Delivery>>
    requires Sane(cfg) && RedisExec(cfg, NewGroup(cfg), steps).Some?
  {
    if steps == [] || steps[|steps| - 1].Crash? then []
    else
      var init, last := steps[..|steps| - 1], steps[|steps| - 1];
      Begun(cfg, init) + Taken(RedisExec(cfg, NewGroup(cfg), init).value, last)
  }

  /** Every queued or running event is with the worker its own fields name. */
  ghost predicate InPlace(cfg: RedisConfig, g: Group)
    requires GroupShape(cfg, g)
  {
    && (forall w, i :: 0 <= w < cfg.pool.n && 0 <= i < |g.d.queues[w]| ==> AtItsWorker(cfg.pool, g.d.queues[w][i].work.event, w))
    && (forall w :: 0 <= w < cfg.pool.n && g.d.workers[w].Busy? ==> AtItsWorker(cfg.pool, g.d.workers[w].item.work.event, w))
  }

  lemma GroupsAreInPlace(cfg: RedisConfig, universe: iset<DomainEvent>, g: Group)
    requires Basic(cfg, universe, g)
    ensures InPlace(cfg, g)
  {
    hide AtItsWorker, RoutingKey, GoodEvents, WorkerFor;
    forall w, i | 0 <= w < cfg.pool.n && 0 <= i < |g.d.queues[w]| ensures AtItsWorker(cfg.pool, g.d.queues[w][i].work.event, w) {
      assert GoodJob(g, universe, g.d.queues[w][i]) && WorkerFor(cfg.pool, g.d.queues[w][i].key) == w;
      RoutedAt(cfg.pool, g.d.queues[w][i].work.event);
    }
    forall w | 0 <= w < cfg.pool.n && g.d.workers[w].Busy? ensures AtItsWorker(cfg.pool, g.d.workers[w].item.work.event, w) {
      assert GoodJob(g, universe, g.d.workers[w].item) && WorkerFor(cfg.pool, g.d.workers[w].item.key) == w;
      RoutedAt(cfg.pool, g.d.workers[w].item.work.event);
    }
  }

  lemma {:induction false} ReachableBasic(cfg: RedisConfig, steps: seq<RedisStep>)
    requires Sane(cfg) && RedisExec(cfg, NewGroup(cfg), steps).Some?
    ensures Basic(cfg, ALL_EVENTS, RedisExec(cfg, NewGroup(cfg), steps).value)
    decreases |steps|
  {
    hide RedisNext, RedisEnabled, Basic;
    if steps == [] {
      NewGroupBasic(cfg);
    } else {
      var init, last := steps[..|steps| - 1], steps[|steps| - 1];
      ReachableBasic(cfg, init);
      BasicStep(cfg, ALL_EVENTS, RedisExec(cfg, NewGroup(cfg), init).value, last);
    }
  }

  lemma NewGroupBasic(cfg: RedisConfig)
    requires Sane(cfg)
    ensures Basic(cfg, ALL_EVENTS, NewGroup(cfg))
  {
    StartRouted(cfg.pool);
  }

  // ---------------------------------------------------------------- first in, first out

  lemma TakenLeaves(cfg: RedisConfig, g: Group, w: nat, v: nat)
    requires GroupShape(cfg, g) && RedisEnabled(cfg, g, Begin(w)) && v < cfg.pool.n
    ensures var queue, queue' := g.d.queues[v], RedisNext(cfg, g, Begin(w)).d.queues[v];
            if v == w then queue != [] && queue == Taken(g, Begin(w)) + queue' else queue' == queue
  {
    hide RoutingKey, HasRoom;
  }

  lemma SubmittedEnters(cfg: RedisConfig, g: Group, v: nat)
    requires GroupShape(cfg, g) && RedisEnabled(cfg, g, Submit) && v < cfg.pool.n
    ensures var queue, queue' := g.d.queues[v], RedisNext(cfg, g, Submit).d.queues[v];
            if Submitted(g, Submit) != [] && v == WorkerFor(cfg.pool, RoutingKey(Submitted(g, Submit)[0].work.event))
            then queue' == queue + Submitted(g, Submit)
            else queue' == queue
  {
    hide RoutingKey, HasRoom;
  }

  lemma OtherQueuesStay(cfg: RedisConfig, g: Group, step: RedisStep, v: nat)
    requires GroupShape(cfg, g) && RedisEnabled(cfg, g, step) && v < cfg.pool.n && !step.Crash? && !step.Begin? && !step.Submit?
    ensures RedisNext(cfg, g, step).d.queues[v] == g.d.queues[v]
  {
    hide RoutingKey, HasRoom, Without;
  }

  lemma QueuesAfter(cfg: RedisConfig, g: Group, step: RedisStep, v: nat)
    requires GroupShape(cfg, g) && RedisEnabled(cfg, g, step) && v < cfg.pool.n && !step.Crash?
    ensures var queue, queue' := g.d.queues[v], RedisNext(cfg, g, step).d.queues[v];
            if step == Begin(v) then queue != [] && queue == Taken(g, step) + queue'
            else if Submitted(g, step) != [] && v == WorkerFor(cfg.pool, RoutingKey(Submitted(g, step)[0].work.event))
            then queue' == queue + Submitted(g, step)
            else queue' == queue
  {
    hide RoutingKey, RedisNext, RedisEnabled, WorkerFor, Taken;
    match step
    case Begin(w) => TakenLeaves(cfg, g, w, v);
    case Submit => SubmittedEnters(cfg, g, v);
    case _ => OtherQueuesStay(cfg, g, step, v);
  }

  lemma OneAtATime(cfg: RedisConfig, g: Group, step: RedisStep)
    requires GroupShape(cfg, g) && RedisEnabled(cfg, g, step)
    ensures step.Begin? ==> step.worker < cfg.pool.n && g.d.queues[step.worker] != []
                            && Taken(g, step) == [g.d.queues[step.worker][0]] && Submitted(g, step) == []
    ensures !step.Begin? ==> Taken(g, step) == []
    ensures Submitted(g, step) != [] ==> Submitted(g, step) == [Submitted(g, step)[0]]
  {
  }

  lemma QueueStep(cfg: RedisConfig, universe: iset<DomainEvent>, g: Group, step: RedisStep, key: string)
    requires Basic(cfg, universe, g) && RedisEnabled(cfg, g, step) && key != "" && !step.Crash?
    ensures var v := WorkerFor(cfg.pool, key);
            var queue, queue' := OfPartition(g.d.queues[v], EventOf, key), OfPartition(RedisNext(cfg, g, step).d.queues[v], EventOf, key);
            queue + OfPartition(Submitted(g, step), EventOf, key) == OfPartition(Taken(g, step), EventOf, key) + queue'
  {
    hide RedisNext, RedisEnabled, Routed, GoodJobs, GoodEvents, OfPartition, RoutingKey, WorkerFor, AtItsWorker, Submitted, Taken;
    var v := WorkerFor(cfg.pool, key);
    QueuesAfter(cfg, g, step, v);
    GroupsAreInPlace(cfg, universe, g);
    NoneOfPartition<Item<Delivery>>(EventOf, key);
    OneAtATime(cfg, g, step);
    var queue, queue' := g.d.queues[v], RedisNext(cfg, g, step).d.queues[v];
    if step.Begin? {
      BeginsFirst(cfg.pool, queue, queue', g.d.queues[step.worker][0], EventOf, step.worker, key);
    } else if Submitted(g, step) != [] {
      EntersLast(cfg.pool, queue, queue', Submitted(g, step)[0], EventOf, key);
    }
  }

  lemma NewQueues(cfg: RedisConfig, g: Group, v: nat)
    requires GroupShape(cfg, g) && v < cfg.pool.n
    ensures RedisNext(cfg, g, Crash).d.queues[v] == [] && NewGroup(cfg).d.queues[v] == []
  {
  }

  /** A partition's queued events, and those that have begun, are those that entered. */
  lemma {:induction false} RunIsFifo(cfg: RedisConfig, steps: seq<RedisStep>, key: string)
    requires Sane(cfg) && RedisExec(cfg, NewGroup(cfg), steps).Some? && key != ""
    ensures OfPartition(Entered(cfg, steps), EventOf, key)
            == OfPartition(Begun(cfg, steps), EventOf, key)
               + OfPartition(RedisExec(cfg, NewGroup(cfg), steps).value.d.queues[WorkerFor(cfg.pool, key)], EventOf, key)
    decreases |steps|
  {
    hide RedisNext, RedisEnabled, OfPartition, WorkerFor, Submitted, Taken, RoutingKey;
    var v := WorkerFor(cfg.pool, key);
    NoneOfPartition<Item<Delivery>>(EventOf, key);
    NewQueues(cfg, NewGroup(cfg), v);
    if steps != [] {
      var init, last := steps[..|steps| - 1], steps[|steps| - 1];
      var g := RedisExec(cfg, NewGroup(cfg), init).value;
      if last.Crash? {
        NewQueues(cfg, g, v);
      } else {
        RunIsFifo(cfg, init, key);
        ReachableBasic(cfg, init);
        QueueStep(cfg, ALL_EVENTS, g, last, key);
        OfPartitionAppend(Entered(cfg, init), Submitted(g, last), EventOf, key);
        OfPartitionAppend(Begun(cfg, init), Taken(g, last), EventOf, key);
        Chained(OfPartition(Entered(cfg, init), EventOf, key), OfPartition(Begun(cfg, init), EventOf, key),
                OfPartition(g.d.queues[v], EventOf, key), OfPartition(Submitted(g, last), EventOf, key),
                OfPartition(Taken(g, last), EventOf, key), OfPartition(RedisNext(cfg, g, last).d.queues[v], EventOf, key));
      }
    }
  }

  lemma Chained<T>(entered: seq<T>, begun: seq<T>, queue: seq<T>, one: seq<T>, taken: seq<T>, queue': seq<T>)
    requires entered == begun + queue && queue + one == taken + queue'
    ensures entered + one == begun + taken + queue'
  {
    assert begun + queue + one == begun + (queue + one);
    assert begun + (taken + queue') == begun + taken + queue';
  }

  predicate HasPartition(g: Group, w: nat, key: string) {
    w < |g.d.workers| && g.d.workers[w].Busy? && InPartition(g.d.workers[w].item.work.event, key)
  }

  lemma OneWorkerEach(cfg: RedisConfig, g: Group, v: nat, w: nat, key: string)
    requires GroupShape(cfg, g) && InPlace(cfg, g) && HasPartition(g, v, key) && HasPartition(g, w, key)
    ensures v == w
  {
  }

  /** In every run, crashes and failing commands included: since the process was last
      started the events of a partition begin in the order in which they were submitted,
      redeliveries included, and no two of them are with different workers; and an event
      without a partition is with the worker of its own id. */
  lemma PartitionsAreInOrder(cfg: RedisConfig, steps: seq<RedisStep>, key: string)
    requires Sane(cfg) && RedisExec(cfg, NewGroup(cfg), steps).Some? && key != ""
    ensures var g := RedisExec(cfg, NewGroup(cfg), steps).value;
            && OfPartition(Begun(cfg, steps), EventOf, key) <= OfPartition(Entered(cfg, steps), EventOf, key)
            && (forall v, w :: HasPartition(g, v, key) && HasPartition(g, w, key) ==> v == w)
            && InPlace(cfg, g)
  {
    hide RedisExec, Entered, Begun, OfPartition, Basic, WorkerFor, AtItsWorker;
    var g := RedisExec(cfg, NewGroup(cfg), steps).value;
    ReachableBasic(cfg, steps);
    GroupsAreInPlace(cfg, ALL_EVENTS, g);
    RunIsFifo(cfg, steps, key);
    forall v, w | HasPartition(g, v, key) && HasPartition(g, w, key) ensures v == w {
      OneWorkerEach(cfg, g, v, w, key);
    }
  }
}
