/** At-most-once handling on the in-memory bus, and exactly when it holds. */
module BusSafety {
  import opened Basics
  import opened Partitioning
  import opened Events
  import opened InMemoryBus

  /** The processed set remembers every success not yet redriven, and no handler
      runs for a processed id. */
  ghost predicate OnceInv(cfg: BusConfig, l: Lane)
    requires LaneShape(cfg, l)
  {
    && HandledOnce(l.log)
    && (forall id :: Settled(l.log, id) ==> id in l.processed)
    && (forall w :: 0 <= w < cfg.pool.n && InHandler(l, w) ==> HandlerId(l, w) !in l.processed)
  }

  ghost function HandlerId(l: Lane, w: nat): string
    requires w < |l.h.d.workers| && l.h.d.workers[w].Busy?
  {
    l.h.d.workers[w].item.work.event.eventId
  }

  /** Serial routing: one id is in the hands of one worker. */
  lemma OneWorkerPerId(cfg: BusConfig, universe: iset<DomainEvent>, l: Lane, v: nat, w: nat)
    requires LaneInv(cfg, universe, l) && IdsShareWorker(cfg.pool, universe)
    requires v < cfg.pool.n && w < cfg.pool.n && l.h.d.workers[v].Busy? && l.h.d.workers[w].Busy?
    requires HandlerId(l, v) == HandlerId(l, w)
    ensures v == w
  {
    assert GoodItem(cfg, universe, l.h.d.workers[v].item) && GoodItem(cfg, universe, l.h.d.workers[w].item);
    assert Routed(cfg.pool, l.h.d);
  }

  lemma LogKept(log: seq<Fact>, fact: Fact, processed: set<string>, processed': set<string>)
    requires HandledOnce(log) && (forall id :: Settled(log, id) ==> id in processed)
    requires fact.Redriven? || fact.id !in processed
    requires processed' == match fact case Called(_) => processed
                                      case Succeeded(id) => processed + {id}
                                      case Redriven(id) => processed - {id}
    ensures HandledOnce(log + [fact]) && (forall id :: Settled(log + [fact], id) ==> id in processed')
  {
    HandledOnceAppend(log, fact);
    forall id | Settled(log + [fact], id) ensures id in processed' {
      SettledAppend(log, fact, id);
    }
  }

  /** Who is in the handler after a step was in it before, or has just found the id new;
      and only a success adds to the processed ids. */
  lemma HandlerFrom(cfg: BusConfig, l: Lane, step: BusStep, v: nat)
    requires LaneShape(cfg, l) && BusEnabled(cfg, l, step) && v < cfg.pool.n && InHandler(BusNext(cfg, l, step), v)
    ensures var l' := BusNext(cfg, l, step);
            && (InHandler(l, v) ==> HandlerId(l', v) == HandlerId(l, v))
            && (!InHandler(l, v) ==> HandlerId(l', v) !in l'.processed)
            && (step.Succeed? ==> InHandler(l, step.worker) && v != step.worker && step.worker < cfg.pool.n)
            && l'.processed <= l.processed + (if step.Succeed? then {HandlerId(l, step.worker)} else {})
  {
    hide HasRoom;
  }

  lemma OnceKept(cfg: BusConfig, universe: iset<DomainEvent>, l: Lane, step: BusStep)
    requires LaneInv(cfg, universe, l) && IdsShareWorker(cfg.pool, universe) && OnceInv(cfg, l)
    requires BusEnabled(cfg, l, step)
    ensures OnceInv(cfg, BusNext(cfg, l, step))
  {
    hide Accounts, HasRoom, HandledOnce, Settled, Inv, GoodContents;
    var l' := BusNext(cfg, l, step);
    match step {
      case Begin(w) =>
        var id := l.h.d.queues[w][0].work.event.eventId;
        if id !in l.processed {
          LogKept(l.log, Called(id), l.processed, l.processed);
        }
      case Succeed(w) =>
        LogKept(l.log, Succeeded(HandlerId(l, w)), l.processed, l.processed + {HandlerId(l, w)});
      case Redrive(id) =>
        LogKept(l.log, Redriven(id), l.processed, l.processed - {id});
      case _ =>
    }
    hide BusNext, BusEnabled, IdsShareWorker;
    forall v | 0 <= v < cfg.pool.n && InHandler(l', v) ensures HandlerId(l', v) !in l'.processed {
      HandlerFrom(cfg, l, step, v);
      if InHandler(l, v) && step.Succeed? && HandlerId(l, v) == HandlerId(l, step.worker) {
        OneWorkerPerId(cfg, universe, l, v, step.worker);
      }
    }
  }

  lemma {:induction false} ReachableOnce(cfg: BusConfig, universe: iset<DomainEvent>, l: Lane, steps: seq<BusStep>)
    requires LaneInv(cfg, universe, l) && IdsShareWorker(cfg.pool, universe) && OnceInv(cfg, l)
    requires Within(steps, universe) && Exec(cfg, l, steps).Some?
    ensures OnceInv(cfg, Exec(cfg, l, steps).value)
    decreases |steps|
  {
    hide Inv, Accounts, GoodContents, BusNext, OnceInv, IdsShareWorker;
    if steps == [] {
    } else {
      LaneInvKept(cfg, universe, l, steps[0]);
      OnceKept(cfg, universe, l, steps[0]);
      ReachableOnce(cfg, universe, BusNext(cfg, l, steps[0]), steps[1..]);
    }
  }

  /** In every run over these events, between a success on an id and the next call
      or success on it there is a redrive of it. */
  ghost predicate AtMostOnce(cfg: BusConfig, universe: iset<DomainEvent>)
    requires Sane(cfg)
  {
    forall steps :: Within(steps, universe) && Exec(cfg, NewLane(cfg), steps).Some?
                    ==> HandledOnce(Exec(cfg, NewLane(cfg), steps).value.log)
  }

  /** The bus's unlocked check-then-add is sound exactly for the events whose ids
      determine their worker. */
  lemma AtMostOnceExactly(cfg: BusConfig, universe: iset<DomainEvent>)
    requires Sane(cfg)
    ensures AtMostOnce(cfg, universe) <==> IdsShareWorker(cfg.pool, universe)
  {
    if IdsShareWorker(cfg.pool, universe) {
      NewLaneInv(cfg, universe);
      forall steps | Within(steps, universe) && Exec(cfg, NewLane(cfg), steps).Some?
        ensures HandledOnce(Exec(cfg, NewLane(cfg), steps).value.log)
      {
        ReachableOnce(cfg, universe, NewLane(cfg), steps);
      }
    } else {
      var a, b :| a in universe && b in universe && a.eventId == b.eventId
                  && WorkerFor(cfg.pool, RoutingKey(a)) != WorkerFor(cfg.pool, RoutingKey(b));
      var steps := HandledTwice(cfg, a, b);
      assert Within(steps, universe);
      var log := Exec(cfg, NewLane(cfg), steps).value.log;
      assert log[2] == Succeeded(a.eventId) && log[3] == Succeeded(a.eventId);
    }
  }

  lemma ExecSnoc(cfg: BusConfig, l: Lane, steps: seq<BusStep>, step: BusStep)
    requires LaneShape(cfg, l) && Exec(cfg, l, steps).Some? && BusEnabled(cfg, Exec(cfg, l, steps).value, step)
    ensures Exec(cfg, l, steps + [step]) == Some(BusNext(cfg, Exec(cfg, l, steps).value, step))
  {
    ExecConcat(cfg, l, steps, [step]);
    var m := Exec(cfg, l, steps).value;
    assert [step][1..] == [];
    assert Exec(cfg, BusNext(cfg, m, step), []) == Some(BusNext(cfg, m, step));
  }

  /** Two copies of one id, queued at different workers of an idle lane. */
  ghost predicate BothQueued(cfg: BusConfig, l: Lane, a: DomainEvent, b: DomainEvent) {
    && LaneShape(cfg, l)
    && l.processed == {} && l.log == []
    && (forall w :: 0 <= w < cfg.pool.n ==> l.h.d.workers[w].Idle? && !l.retrying[w])
    && var v, w := WorkerFor(cfg.pool, RoutingKey(a)), WorkerFor(cfg.pool, RoutingKey(b));
       v != w && l.h.d.queues[v] == [ItemFor(Copy(a, 1, 0))] && l.h.d.queues[w] == [ItemFor(Copy(b, 1, 1))]
  }

  lemma QueueOne(cfg: BusConfig, l: Lane, e: DomainEvent)
    requires LaneShape(cfg, l) && l.entering == [] && l.h.d.queues[WorkerFor(cfg.pool, RoutingKey(e))] == []
    ensures BusEnabled(cfg, l, Offer(e)) && BusEnabled(cfg, BusNext(cfg, l, Offer(e)), Enter(0))
    ensures var v, l' := WorkerFor(cfg.pool, RoutingKey(e)), BusNext(cfg, BusNext(cfg, l, Offer(e)), Enter(0));
            && LaneShape(cfg, l') && l'.entering == [] && l'.offered == l.offered + 1
            && l'.h.d.queues == l.h.d.queues[v := [ItemFor(Copy(e, 1, l.offered))]] && l'.h.d.workers == l.h.d.workers
            && l'.processed == l.processed && l'.retrying == l.retrying && l'.log == l.log
  {
    var item := ItemFor(Copy(e, 1, l.offered));
    assert [] + [item] == [item];
  }

  lemma NothingYet(cfg: BusConfig)
    requires Sane(cfg)
    ensures LaneShape(cfg, NewLane(cfg)) && Exec(cfg, NewLane(cfg), []) == Some(NewLane(cfg))
  {
  }

  lemma QueueBoth(cfg: BusConfig, a: DomainEvent, b: DomainEvent) returns (steps: seq<BusStep>)
    requires Sane(cfg) && WorkerFor(cfg.pool, RoutingKey(a)) != WorkerFor(cfg.pool, RoutingKey(b))
    ensures steps == [Offer(a), Enter(0), Offer(b), Enter(0)]
    ensures Exec(cfg, NewLane(cfg), steps).Some?
    ensures BothQueued(cfg, Exec(cfg, NewLane(cfg), steps).value, a, b)
  {
    hide Exec, BusNext, BusEnabled;
    var l0 := NewLane(cfg);
    NothingYet(cfg);
    QueueOne(cfg, l0, a);
    var l2 := BusNext(cfg, BusNext(cfg, l0, Offer(a)), Enter(0));
    QueueOne(cfg, l2, b);
    ExecSnoc(cfg, l0, [], Offer(a));
    assert [] + [Offer(a)] == [Offer(a)];
    ExecSnoc(cfg, l0, [Offer(a)], Enter(0));
    steps := [Offer(a)] + [Enter(0)];
    ExecSnoc(cfg, l0, steps, Offer(b));
    steps := steps + [Offer(b)];
    ExecSnoc(cfg, l0, steps, Enter(0));
    steps := steps + [Enter(0)];
  }

  lemma BeginNew(cfg: BusConfig, l: Lane, v: nat, c: Copy)
    requires LaneShape(cfg, l) && v < cfg.pool.n && l.h.d.workers[v].Idle? && l.h.d.queues[v] == [ItemFor(c)]
    requires c.event.eventId !in l.processed
    ensures BusEnabled(cfg, l, Begin(v))
    ensures var l' := BusNext(cfg, l, Begin(v));
            && LaneShape(cfg, l') && l'.processed == l.processed && l'.retrying == l.retrying[v := false]
            && l'.h.d.workers == l.h.d.workers[v := Busy(ItemFor(c))] && l'.h.d.queues == l.h.d.queues[v := []]
            && l'.log == l.log + [Called(c.event.eventId)]
  {
    assert [ItemFor(c)][1..] == [];
  }

  /** Both handlers run for one id. */
  lemma CallBoth(cfg: BusConfig, a: DomainEvent, b: DomainEvent) returns (steps: seq<BusStep>)
    requires Sane(cfg) && a.eventId == b.eventId
    requires WorkerFor(cfg.pool, RoutingKey(a)) != WorkerFor(cfg.pool, RoutingKey(b))
    ensures |steps| == 6 && steps[..4] == [Offer(a), Enter(0), Offer(b), Enter(0)] && steps[4].Begin? && steps[5].Begin?
    ensures Exec(cfg, NewLane(cfg), steps).Some?
    ensures var l := Exec(cfg, NewLane(cfg), steps).value;
            var v, w := WorkerFor(cfg.pool, RoutingKey(a)), WorkerFor(cfg.pool, RoutingKey(b));
            && l.h.d.workers[v] == Busy(ItemFor(Copy(a, 1, 0))) && l.h.d.workers[w] == Busy(ItemFor(Copy(b, 1, 1)))
            && !l.retrying[v] && !l.retrying[w] && l.log == [Called(a.eventId), Called(a.eventId)]
  {
    hide Exec, BusNext, BusEnabled;
    var l0, v, w := NewLane(cfg), WorkerFor(cfg.pool, RoutingKey(a)), WorkerFor(cfg.pool, RoutingKey(b));
    steps := QueueBoth(cfg, a, b);
    var l := Exec(cfg, l0, steps).value;
    BeginNew(cfg, l, v, Copy(a, 1, 0));
    BeginNew(cfg, BusNext(cfg, l, Begin(v)), w, Copy(b, 1, 1));
    ExecSnoc(cfg, l0, steps, Begin(v));
    steps := steps + [Begin(v)];
    ExecSnoc(cfg, l0, steps, Begin(w));
    steps := steps + [Begin(w)];
  }

  lemma HandledTwice(cfg: BusConfig, a: DomainEvent, b: DomainEvent) returns (steps: seq<BusStep>)
    requires Sane(cfg) && a.eventId == b.eventId
    requires WorkerFor(cfg.pool, RoutingKey(a)) != WorkerFor(cfg.pool, RoutingKey(b))
    ensures Exec(cfg, NewLane(cfg), steps).Some?
    ensures forall i :: 0 <= i < |steps| && steps[i].Offer? ==> steps[i].event in {a, b}
    ensures var id := a.eventId;
            Exec(cfg, NewLane(cfg), steps).value.log == [Called(id), Called(id), Succeeded(id), Succeeded(id)]
  {
    hide Inv, HasRoom;
    var l0, v, w := NewLane(cfg), WorkerFor(cfg.pool, RoutingKey(a)), WorkerFor(cfg.pool, RoutingKey(b));
    steps := CallBoth(cfg, a, b);
    assert steps == steps[..4] + [steps[4], steps[5]];
    ExecSnoc(cfg, l0, steps, Succeed(v));
    steps := steps + [Succeed(v)];
    ExecSnoc(cfg, l0, steps, Succeed(w));
    steps := steps + [Succeed(w)];
  }

  /** A redrive is not lost on the processed set: with the event's worker free, the
      handler is called for it again. */
  lemma RedriveCallsHandler(cfg: BusConfig, l: Lane, id: string)
    requires LaneShape(cfg, l) && HasLetter(l.dead, id)
    requires var w := WorkerFor(cfg.pool, RoutingKey(l.dead[LetterIndex(l.dead, id)].event));
             l.h.d.workers[w].Idle? && l.h.d.queues[w] == []
    ensures var w := WorkerFor(cfg.pool, RoutingKey(l.dead[LetterIndex(l.dead, id)].event));
            var end := Exec(cfg, l, [Redrive(id), Enter(|l.entering|), Begin(w)]);
            && end.Some? && InHandler(end.value, w) && end.value.log == l.log + [Redriven(id), Called(id)]
            && end.value.h.d.workers[w].item.work == Copy(l.dead[LetterIndex(l.dead, id)].event, 1, l.offered)
  {
    hide HasLetter, LetterIndex, Exec;
    var e := l.dead[LetterIndex(l.dead, id)].event;
    var w := WorkerFor(cfg.pool, RoutingKey(e));
    var l1 := BusNext(cfg, l, Redrive(id));
    var l2 := BusNext(cfg, l1, Enter(|l.entering|));
    assert l2.h.d.queues[w] == [ItemFor(Copy(e, 1, l.offered))];
    assert Exec(cfg, l, []) == Some(l) by { ExecNothing(cfg, l); }
    ExecSnoc(cfg, l, [], Redrive(id));
    assert [] + [Redrive(id)] == [Redrive(id)];
    ExecSnoc(cfg, l, [Redrive(id)], Enter(|l.entering|));
    assert [Redrive(id)] + [Enter(|l.entering|)] == [Redrive(id), Enter(|l.entering|)];
    ExecSnoc(cfg, l, [Redrive(id), Enter(|l.entering|)], Begin(w));
    assert [Redrive(id), Enter(|l.entering|)] + [Begin(w)] == [Redrive(id), Enter(|l.entering|), Begin(w)];
  }

  lemma ExecNothing(cfg: BusConfig, l: Lane)
    requires LaneShape(cfg, l)
    ensures Exec(cfg, l, []) == Some(l)
  {
  }
}
