/** When `drain` returns: the only thing that can stop the in-memory bus is a
    retry waiting for room in its own worker's full queue. */
module BusDrain {
  import opened Basics
  import opened Partitioning
  import opened Events
  import opened InMemoryBus
  import opened BusSafety

  /** Nothing but a publish or a redrive can happen. */
  ghost predicate NoInternalStep(cfg: BusConfig, l: Lane)
    requires LaneShape(cfg, l)
  {
    forall step :: Internal(step) ==> !BusEnabled(cfg, l, step)
  }

  predicate Full(cfg: BusConfig, d: Dispatch<Copy>, w: nat)
    requires Shape(cfg.pool, d) && w < cfg.pool.n
  {
    cfg.pool.maxsize > 0 && |d.queues[w]| >= cfg.pool.maxsize
  }

  ghost predicate Jammed(cfg: BusConfig, l: Lane)
    requires LaneShape(cfg, l)
  {
    && (forall w :: 0 <= w < cfg.pool.n ==>
          (l.h.d.workers[w].Idle? && l.h.d.queues[w] == []) || (l.retrying[w] && Full(cfg, l.h.d, w)))
    && (forall i :: 0 <= i < |l.entering| ==>
          Full(cfg, l.h.d, WorkerFor(cfg.pool, RoutingKey(l.entering[i].event))))
  }

  lemma JammedExactly(cfg: BusConfig, universe: iset<DomainEvent>, l: Lane)
    requires LaneInv(cfg, universe, l)
    ensures NoInternalStep(cfg, l) <==> Jammed(cfg, l)
  {
    hide Accounts;
    assert Routed(cfg.pool, l.h.d);
    if NoInternalStep(cfg, l) {
      forall w | 0 <= w < cfg.pool.n
        ensures (l.h.d.workers[w].Idle? && l.h.d.queues[w] == []) || (l.retrying[w] && Full(cfg, l.h.d, w))
      {
        assert !BusEnabled(cfg, l, Begin(w)) && !BusEnabled(cfg, l, Succeed(w)) && !BusEnabled(cfg, l, Requeue(w));
        if l.h.d.workers[w].Busy? {
          assert GoodItem(cfg, universe, l.h.d.workers[w].item);
        }
      }
      forall i | 0 <= i < |l.entering|
        ensures Full(cfg, l.h.d, WorkerFor(cfg.pool, RoutingKey(l.entering[i].event)))
      {
        assert !BusEnabled(cfg, l, Enter(i));
      }
    }
    if Jammed(cfg, l) {
      forall step | Internal(step) ensures !BusEnabled(cfg, l, step) {
        match step
        case Requeue(w) =>
          if w < cfg.pool.n && l.h.d.workers[w].Busy? {
            assert GoodItem(cfg, universe, l.h.d.workers[w].item);
          }
        case _ =>
      }
    }
  }

  /** A jam with work left needs retries, a bounded queue and more outstanding
      copies than the queue holds. */
  lemma JamNeedsBacklog(cfg: BusConfig, universe: iset<DomainEvent>, l: Lane)
    requires LaneInv(cfg, universe, l) && Jammed(cfg, l) && Outstanding(l) > 0
    ensures cfg.maxAttempts >= 2 && 1 <= cfg.pool.maxsize < Outstanding(l)
  {
    hide Accounts, Inv;
    var d := l.h.d;
    if |l.entering| > 0 {
      assert Full(cfg, d, WorkerFor(cfg.pool, RoutingKey(l.entering[0].event)));
    } else if forall w :: 0 <= w < cfg.pool.n ==> !l.retrying[w] {
      SumOfZero(d.queues, QueueLength);
      SumOfZero(d.workers, BusyUnit);
    }
    var w :| 0 <= w < cfg.pool.n && l.retrying[w];
    assert Full(cfg, d, w) && GoodItem(cfg, universe, d.workers[w].item);
    SumOfNonNegative(d.queues, QueueLength);
    SumOfNonNegative(d.workers, BusyUnit);
    assert QueueLength(d.queues[w]) <= SumOf(d.queues, QueueLength);
    assert BusyUnit(d.workers[w]) <= SumOf(d.workers, BusyUnit);
  }

  /** Publishing stops; then, as long as no more copies are outstanding than one
      queue holds, the bus always has a step to take until nothing is left, and by
      `DrainTerminates` it takes finitely many. */
  lemma DrainCompletes(cfg: BusConfig, steps: seq<BusStep>)
    requires Sane(cfg) && Exec(cfg, NewLane(cfg), steps).Some?
    requires NoInternalStep(cfg, Exec(cfg, NewLane(cfg), steps).value)
    ensures var l := Exec(cfg, NewLane(cfg), steps).value;
            cfg.maxAttempts == 1 || cfg.pool.maxsize == 0 || Outstanding(l) <= cfg.pool.maxsize
            ==> l.offered == l.succeeded + l.skipped + l.deadLettered
  {
    Reachable(cfg, steps);
    Conservation(cfg, steps);
    var l := Exec(cfg, NewLane(cfg), steps).value;
    OutstandingNonNegative(l);
    JammedExactly(cfg, ALL_EVENTS, l);
    if Outstanding(l) > 0 {
      JamNeedsBacklog(cfg, ALL_EVENTS, l);
    }
  }

  lemma OutstandingNonNegative(l: Lane)
    ensures Outstanding(l) >= 0
  {
    SumOfNonNegative(l.h.d.queues, QueueLength);
    SumOfNonNegative(l.h.d.workers, BusyUnit);
  }

  /** Some schedule leaves work behind with nothing able to move. */
  ghost predicate DrainCanHang(cfg: BusConfig)
    requires Sane(cfg)
  {
    exists steps :: Exec(cfg, NewLane(cfg), steps).Some? && Hung(cfg, Exec(cfg, NewLane(cfg), steps).value)
  }

  ghost predicate Hung(cfg: BusConfig, l: Lane)
    requires LaneShape(cfg, l)
  {
    NoInternalStep(cfg, l) && Outstanding(l) > 0
  }

  lemma DrainCanHangExactly(cfg: BusConfig)
    requires Sane(cfg)
    ensures DrainCanHang(cfg) <==> cfg.maxAttempts >= 2 && cfg.pool.maxsize >= 1
  {
    if DrainCanHang(cfg) {
      var steps :| Exec(cfg, NewLane(cfg), steps).Some? && Hung(cfg, Exec(cfg, NewLane(cfg), steps).value);
      Reachable(cfg, steps);
      var l := Exec(cfg, NewLane(cfg), steps).value;
      JammedExactly(cfg, ALL_EVENTS, l);
      JamNeedsBacklog(cfg, ALL_EVENTS, l);
    }
    if cfg.maxAttempts >= 2 && cfg.pool.maxsize >= 1 {
      var e := DomainEvent("id", None, "", None, "");
      var steps := Jam(cfg, e);
      var l := Exec(cfg, NewLane(cfg), steps).value;
      Reachable(cfg, steps);
      JammedExactly(cfg, ALL_EVENTS, l);
      assert Hung(cfg, l);
    }
  }

  /** One worker in its handler with k copies queued behind it; nothing else. */
  ghost predicate Filled(cfg: BusConfig, l: Lane, e: DomainEvent, k: nat) {
    && LaneShape(cfg, l) && l.entering == []
    && var w := WorkerFor(cfg.pool, RoutingKey(e));
       && l.h.d.workers[w] == Busy(ItemFor(Copy(e, 1, 0))) && !l.retrying[w] && |l.h.d.queues[w]| == k
       && (forall v :: 0 <= v < cfg.pool.n && v != w ==> l.h.d.workers[v].Idle? && l.h.d.queues[v] == [])
  }

  lemma {:induction false} Fill(cfg: BusConfig, e: DomainEvent, k: nat) returns (steps: seq<BusStep>)
    requires Sane(cfg) && k <= cfg.pool.maxsize && 1 <= cfg.pool.maxsize
    ensures Exec(cfg, NewLane(cfg), steps).Some? && Filled(cfg, Exec(cfg, NewLane(cfg), steps).value, e, k)
  {
    if k == 0 {
      steps := FillHandler(cfg, e);
    } else {
      steps := Fill(cfg, e, k - 1);
      hide Exec, Filled;
      FillOneMore(cfg, e, k - 1, Exec(cfg, NewLane(cfg), steps).value);
      ExecSnoc(cfg, NewLane(cfg), steps, Offer(e));
      ExecSnoc(cfg, NewLane(cfg), steps + [Offer(e)], Enter(0));
      steps := steps + [Offer(e)] + [Enter(0)];
    }
  }

  lemma FillHandler(cfg: BusConfig, e: DomainEvent) returns (steps: seq<BusStep>)
    requires Sane(cfg) && 1 <= cfg.pool.maxsize
    ensures Exec(cfg, NewLane(cfg), steps).Some? && Filled(cfg, Exec(cfg, NewLane(cfg), steps).value, e, 0)
  {
    var w := WorkerFor(cfg.pool, RoutingKey(e));
    ExecSnoc(cfg, NewLane(cfg), [], Offer(e));
    steps := [] + [Offer(e)];
    ExecSnoc(cfg, NewLane(cfg), steps, Enter(0));
    steps := steps + [Enter(0)];
    ExecSnoc(cfg, NewLane(cfg), steps, Begin(w));
    steps := steps + [Begin(w)];
  }

  lemma FillOneMore(cfg: BusConfig, e: DomainEvent, k: nat, l: Lane)
    requires Sane(cfg) && k < cfg.pool.maxsize && Filled(cfg, l, e, k)
    ensures LaneShape(cfg, l) && BusEnabled(cfg, l, Offer(e)) && BusEnabled(cfg, BusNext(cfg, l, Offer(e)), Enter(0))
    ensures Filled(cfg, BusNext(cfg, BusNext(cfg, l, Offer(e)), Enter(0)), e, k + 1)
  {
  }

  lemma Jam(cfg: BusConfig, e: DomainEvent) returns (steps: seq<BusStep>)
    requires Sane(cfg) && cfg.maxAttempts >= 2 && cfg.pool.maxsize >= 1
    ensures Exec(cfg, NewLane(cfg), steps).Some?
    ensures Jammed(cfg, Exec(cfg, NewLane(cfg), steps).value) && Outstanding(Exec(cfg, NewLane(cfg), steps).value) > 0
  {
    var w := WorkerFor(cfg.pool, RoutingKey(e));
    steps := Fill(cfg, e, cfg.pool.maxsize);
    ExecSnoc(cfg, NewLane(cfg), steps, Fail(w));
    steps := steps + [Fail(w)];
    var l := Exec(cfg, NewLane(cfg), steps).value;
    SumOfNonNegative(l.h.d.queues, QueueLength);
    SumOfNonNegative(l.h.d.workers, BusyUnit);
    assert BusyUnit(l.h.d.workers[w]) <= SumOf(l.h.d.workers, BusyUnit);
  }
}
