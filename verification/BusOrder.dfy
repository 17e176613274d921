/** Order on the in-memory bus, in terms of what an event carries: the events of one
    partition go to one worker, and begin in the order in which they entered. */
module BusOrder {
  import opened Basics
  import opened Partitioning
  import opened Events
  import opened InMemoryBus

  function EventOf(item: Item<Copy>): DomainEvent { item.work.event }

  /** What enters a queue with a step, and what a worker takes. */
  function Entering(l: Lane, step: BusStep): seq<Item<Copy>> {
    match step
    case Enter(i) => if i < |l.entering| then [ItemFor(l.entering[i])] else []
    case Requeue(w) =>
      if w < |l.h.d.workers| && l.h.d.workers[w].Busy?
      then var c := l.h.d.workers[w].item.work; [ItemFor(c.(attempt := c.attempt + 1))] else []
    case _ => []
  }

  function Beginning(l: Lane, step: BusStep): seq<Item<Copy>> {
    if step.Begin? && step.worker < |l.h.d.queues| && l.h.d.queues[step.worker] != []
    then [l.h.d.queues[step.worker][0]] else []
  }

  /** In a run: what entered the queues, and what was begun. */
  ghost function Entered(cfg: BusConfig, l: Lane, steps: seq<BusStep>): seq<Item<Copy>>
    requires LaneShape(cfg, l) && Exec(cfg, l, steps).Some?
    decreases |steps|
  {
    if steps == [] then [] else Entering(l, steps[0]) + Entered(cfg, BusNext(cfg, l, steps[0]), steps[1..])
  }

  ghost function Begun(cfg: BusConfig, l: Lane, steps: seq<BusStep>): seq<Item<Copy>>
    requires LaneShape(cfg, l) && Exec(cfg, l, steps).Some?
    decreases |steps|
  {
    if steps == [] then [] else Beginning(l, steps[0]) + Begun(cfg, BusNext(cfg, l, steps[0]), steps[1..])
  }

  /** Every queued or running event is with the worker its own fields name. */
  ghost predicate InPlace(cfg: BusConfig, l: Lane)
    requires LaneShape(cfg, l)
  {
    && (forall w, i :: 0 <= w < cfg.pool.n && 0 <= i < |l.h.d.queues[w]| ==> AtItsWorker(cfg.pool, l.h.d.queues[w][i].work.event, w))
    && (forall w :: 0 <= w < cfg.pool.n && l.h.d.workers[w].Busy? ==> AtItsWorker(cfg.pool, l.h.d.workers[w].item.work.event, w))
  }

  lemma LanesAreInPlace(cfg: BusConfig, universe: iset<DomainEvent>, l: Lane)
    requires LaneInv(cfg, universe, l)
    ensures InPlace(cfg, l)
  {
    hide AtItsWorker, RoutingKey, Accounts, FifoPerKey, Balanced, JoinCounts;
    forall w, i | 0 <= w < cfg.pool.n && 0 <= i < |l.h.d.queues[w]| ensures AtItsWorker(cfg.pool, l.h.d.queues[w][i].work.event, w) {
      assert GoodItem(cfg, universe, l.h.d.queues[w][i]) && WorkerFor(cfg.pool, l.h.d.queues[w][i].key) == w;
      RoutedAt(cfg.pool, l.h.d.queues[w][i].work.event);
    }
    forall w | 0 <= w < cfg.pool.n && l.h.d.workers[w].Busy? ensures AtItsWorker(cfg.pool, l.h.d.workers[w].item.work.event, w) {
      assert GoodItem(cfg, universe, l.h.d.workers[w].item) && WorkerFor(cfg.pool, l.h.d.workers[w].item.key) == w;
      RoutedAt(cfg.pool, l.h.d.workers[w].item.work.event);
    }
  }

  // ---------------------------------------------------------------- first in, first out

  /** What a step does to the queues. */
  lemma QueuesAfter(cfg: BusConfig, l: Lane, step: BusStep, v: nat)
    requires LaneShape(cfg, l) && BusEnabled(cfg, l, step) && v < cfg.pool.n
    ensures var queue, queue' := l.h.d.queues[v], BusNext(cfg, l, step).h.d.queues[v];
            if step == Begin(v) then queue != [] && queue == Beginning(l, step) + queue'
            else if Entering(l, step) != [] && v == WorkerFor(cfg.pool, RoutingKey(Entering(l, step)[0].work.event))
            then queue' == queue + Entering(l, step)
            else queue' == queue
  {
    hide RoutingKey;
  }

  /** A partition's queued events, and those that have begun, are those that entered. */
  lemma QueueStep(cfg: BusConfig, universe: iset<DomainEvent>, l: Lane, step: BusStep, key: string)
    requires LaneInv(cfg, universe, l) && BusEnabled(cfg, l, step) && key != ""
    ensures var v := WorkerFor(cfg.pool, key);
            var queue, queue' := OfPartition(l.h.d.queues[v], EventOf, key), OfPartition(BusNext(cfg, l, step).h.d.queues[v], EventOf, key);
            queue + OfPartition(Entering(l, step), EventOf, key) == OfPartition(Beginning(l, step), EventOf, key) + queue'
  {
    hide BusNext, BusEnabled, Inv, Accounts, GoodContents, OfPartition, RoutingKey, WorkerFor, AtItsWorker, Entering, Beginning;
    var v := WorkerFor(cfg.pool, key);
    QueuesAfter(cfg, l, step, v);
    LanesAreInPlace(cfg, universe, l);
    NoneOfPartition<Item<Copy>>(EventOf, key);
    OneAtATime(cfg, l, step);
    var queue, queue' := l.h.d.queues[v], BusNext(cfg, l, step).h.d.queues[v];
    if step.Begin? {
      BeginsFirst(cfg.pool, queue, queue', l.h.d.queues[step.worker][0], EventOf, step.worker, key);
    } else if Entering(l, step) != [] {
      EntersLast(cfg.pool, queue, queue', Entering(l, step)[0], EventOf, key);
    }
  }

  lemma OneAtATime(cfg: BusConfig, l: Lane, step: BusStep)
    requires LaneShape(cfg, l) && BusEnabled(cfg, l, step)
    ensures step.Begin? ==> step.worker < cfg.pool.n && l.h.d.queues[step.worker] != []
                            && Beginning(l, step) == [l.h.d.queues[step.worker][0]] && Entering(l, step) == []
    ensures !step.Begin? ==> Beginning(l, step) == []
    ensures Entering(l, step) != [] ==> Entering(l, step) == [Entering(l, step)[0]]
  {
  }

  lemma Chained<T>(queue: seq<T>, one: seq<T>, more: seq<T>, begun: seq<T>, queue1: seq<T>)
    requires queue + one == begun + queue1
    ensures queue + (one + more) == begun + (queue1 + more)
  {
    assert queue + (one + more) == (queue + one) + more;
    assert begun + (queue1 + more) == (begun + queue1) + more;
  }

  lemma {:induction false} RunIsFifo(cfg: BusConfig, l: Lane, steps: seq<BusStep>, key: string)
    requires LaneInv(cfg, ALL_EVENTS, l) && Exec(cfg, l, steps).Some? && key != ""
    ensures var v := WorkerFor(cfg.pool, key);
            OfPartition(l.h.d.queues[v], EventOf, key) + OfPartition(Entered(cfg, l, steps), EventOf, key)
            == OfPartition(Begun(cfg, l, steps), EventOf, key) + OfPartition(Exec(cfg, l, steps).value.h.d.queues[v], EventOf, key)
    decreases |steps|
  {
    hide BusNext, BusEnabled, Inv, Accounts, GoodContents, OfPartition, WorkerFor, Entering, Beginning;
    if steps == [] {
      NoneOfPartition<Item<Copy>>(EventOf, key);
    } else {
      var l1 := BusNext(cfg, l, steps[0]);
      LaneInvKept(cfg, ALL_EVENTS, l, steps[0]);
      QueueStep(cfg, ALL_EVENTS, l, steps[0], key);
      RunIsFifo(cfg, l1, steps[1..], key);
      OfPartitionAppend(Entering(l, steps[0]), Entered(cfg, l1, steps[1..]), EventOf, key);
      OfPartitionAppend(Beginning(l, steps[0]), Begun(cfg, l1, steps[1..]), EventOf, key);
      Chained(OfPartition(l.h.d.queues[WorkerFor(cfg.pool, key)], EventOf, key),
              OfPartition(Entering(l, steps[0]), EventOf, key), OfPartition(Entered(cfg, l1, steps[1..]), EventOf, key),
              OfPartition(Beginning(l, steps[0]), EventOf, key), OfPartition(l1.h.d.queues[WorkerFor(cfg.pool, key)], EventOf, key));
    }
  }

  /** Worker w is busy with an event of the partition. */
  predicate HasPartition(l: Lane, w: nat, key: string) {
    w < |l.h.d.workers| && l.h.d.workers[w].Busy? && InPartition(l.h.d.workers[w].item.work.event, key)
  }

  /** For every schedule: the events of a partition begin in the order in which they
      entered, none left out, and no two of them are with different workers; and an event
      without a partition is with the worker of its own id. */
  lemma PartitionsAreInOrder(cfg: BusConfig, steps: seq<BusStep>, key: string)
    requires Sane(cfg) && Exec(cfg, NewLane(cfg), steps).Some? && key != ""
    ensures var l := Exec(cfg, NewLane(cfg), steps).value;
            && OfPartition(Begun(cfg, NewLane(cfg), steps), EventOf, key) <= OfPartition(Entered(cfg, NewLane(cfg), steps), EventOf, key)
            && (forall v, w :: HasPartition(l, v, key) && HasPartition(l, w, key) ==> v == w)
            && InPlace(cfg, l)
  {
    hide Exec, OfPartition, Entered, Begun, Inv, Accounts, GoodContents, WorkerFor, AtItsWorker;
    NewLaneInv(cfg, ALL_EVENTS);
    Reachable(cfg, steps);
    LanesAreInPlace(cfg, ALL_EVENTS, Exec(cfg, NewLane(cfg), steps).value);
    RunIsFifo(cfg, NewLane(cfg), steps, key);
    NoneOfPartition<Item<Copy>>(EventOf, key);
    assert NewLane(cfg).h.d.queues[WorkerFor(cfg.pool, key)] == [];
    var l := Exec(cfg, NewLane(cfg), steps).value;
    IsPrefix(OfPartition(Begun(cfg, NewLane(cfg), steps), EventOf, key),
             OfPartition(l.h.d.queues[WorkerFor(cfg.pool, key)], EventOf, key),
             OfPartition(Entered(cfg, NewLane(cfg), steps), EventOf, key));
    forall v, w | HasPartition(l, v, key) && HasPartition(l, w, key) ensures v == w {
      OneWorkerEach(cfg, l, v, w, key);
    }
  }

  lemma IsPrefix<T>(a: seq<T>, b: seq<T>, whole: seq<T>)
    requires [] + whole == a + b
    ensures a <= whole
  {
    assert [] + whole == whole && (a + b)[..|a|] == a;
  }

  lemma OneWorkerEach(cfg: BusConfig, l: Lane, v: nat, w: nat, key: string)
    requires LaneShape(cfg, l) && InPlace(cfg, l) && HasPartition(l, v, key) && HasPartition(l, w, key)
    ensures v == w
  {
  }
}
