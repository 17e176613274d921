/** What happens to a delivery on the Redis bus that fails: it is counted, delivered
    again, dead-lettered at the limit, and can be redriven from there. */
module RedisDelivery {
  import opened Basics
  import opened Partitioning
  import opened Events
  import opened RedisBus
  import opened RedisRuns
  import opened RedisSafety

  /** Only deliveries that have used up their attempts go to the DLQ. */
  ghost predicate Exhausted(cfg: RedisConfig, g: Group)
    requires GroupShape(cfg, g)
  {
    && (forall w :: 0 <= w < cfg.pool.n && InPhase(g, w, Burying) ==> Job(g, w).count >= cfg.maxDeliveries)
    && (forall l :: l in g.dlq ==> l.attempts >= cfg.maxDeliveries)
  }

  lemma BuryingStep(cfg: RedisConfig, g: Group, step: RedisStep, w: nat)
    requires GroupShape(cfg, g) && Exhausted(cfg, g) && RedisEnabled(cfg, g, step)
    requires w < cfg.pool.n && InPhase(RedisNext(cfg, g, step), w, Burying)
    ensures Job(RedisNext(cfg, g, step), w).count >= cfg.maxDeliveries
  {
    hide HasRoom, Without;
    assert InPhase(g, w, Burying) || step == Clear(w);
  }

  lemma ExhaustedStep(cfg: RedisConfig, g: Group, step: RedisStep)
    requires GroupShape(cfg, g) && Exhausted(cfg, g) && RedisEnabled(cfg, g, step)
    ensures Exhausted(cfg, RedisNext(cfg, g, step))
  {
    hide HasRoom, Without;
    forall w | 0 <= w < cfg.pool.n && InPhase(RedisNext(cfg, g, step), w, Burying)
      ensures Job(RedisNext(cfg, g, step), w).count >= cfg.maxDeliveries
    {
      BuryingStep(cfg, g, step, w);
    }
    match step
    case RedriveRemove(j) => WithoutKeeps(g.dlq, g.redriving[j].letter);
    case Bury(w) => assert InPhase(g, w, Burying);
    case _ =>
  }

  /** In every run whatever, crashes and failing commands included, each dead letter had
      at least the configured number of deliveries. */
  lemma {:induction false} DeadLettersAreExhausted(cfg: RedisConfig, steps: seq<RedisStep>)
    requires Sane(cfg) && RedisExec(cfg, NewGroup(cfg), steps).Some?
    ensures Exhausted(cfg, RedisExec(cfg, NewGroup(cfg), steps).value)
    decreases |steps|
  {
    hide RedisEnabled, RedisNext, Exhausted;
    if steps == [] {
      NothingExhausted(cfg);
    } else {
      DeadLettersAreExhausted(cfg, steps[..|steps| - 1]);
      ExhaustedStep(cfg, RedisExec(cfg, NewGroup(cfg), steps[..|steps| - 1]).value, steps[|steps| - 1]);
    }
  }

  lemma NothingExhausted(cfg: RedisConfig)
    requires Sane(cfg)
    ensures Exhausted(cfg, NewGroup(cfg))
  {
  }

  /** A letter is published again, read, and queued at its worker. */
  lemma RedriveQueues(cfg: RedisConfig, g: Group, i: nat) returns (g1: Group, g2: Group, g3: Group, g4: Group)
    requires GroupShape(cfg, g) && i < |g.dlq| && g.fetched == [] && g.cursor == |g.stream|
    requires g.d.queues[WorkerFor(cfg.pool, RoutingKey(g.dlq[i].event))] == []
    ensures var e := g.dlq[i].event;
            var v := WorkerFor(cfg.pool, RoutingKey(e));
            && GroupShape(cfg, g1) && GroupShape(cfg, g2) && GroupShape(cfg, g3) && GroupShape(cfg, g4)
            && RedisEnabled(cfg, g, RedriveClear(i)) && g1 == RedisNext(cfg, g, RedriveClear(i))
            && RedisEnabled(cfg, g1, RedrivePublish(|g.redriving|)) && g2 == RedisNext(cfg, g1, RedrivePublish(|g.redriving|))
            && RedisEnabled(cfg, g2, Read) && g3 == RedisNext(cfg, g2, Read)
            && RedisEnabled(cfg, g3, Submit) && g4 == RedisNext(cfg, g3, Submit)
            && g4.d.queues[v] == [Item(RoutingKey(e), Delivery(|g.stream|, e, 1))] && g4.d.workers == g.d.workers
            && g4.dedup == g.dedup - {e.eventId} && g4.log == g.log + [Redriven(e.eventId)]
  {
    var e := g.dlq[i].event;
    g1 := RedisNext(cfg, g, RedriveClear(i));
    g2 := RedisNext(cfg, g1, RedrivePublish(|g.redriving|));
    g3, g4 := NextQueues(cfg, g2, e);
  }

  /** A redrive reaches the handler: with the group caught up and the event's worker
      free, the letter is handled again in spite of the dedup key. */
  lemma RedriveDelivers(cfg: RedisConfig, g: Group, i: nat)
    requires GroupShape(cfg, g) && i < |g.dlq| && g.fetched == [] && g.cursor == |g.stream|
    requires var v := WorkerFor(cfg.pool, RoutingKey(g.dlq[i].event));
             g.d.workers[v].Idle? && g.d.queues[v] == []
    ensures var e := g.dlq[i].event;
            var v := WorkerFor(cfg.pool, RoutingKey(e));
            var end := RedisExec(cfg, g, [RedriveClear(i), RedrivePublish(|g.redriving|), Read, Submit, Begin(v), Ask(v)]);
            && end.Some? && InPhase(end.value, v, Handling)
            && end.value.log == g.log + [Redriven(e.eventId), Called(e.eventId)]
  {
    hide RedisExec, RedisNext, RedisEnabled;
    var v := WorkerFor(cfg.pool, RoutingKey(g.dlq[i].event));
    var g1, g2, g3, g4 := RedriveQueues(cfg, g, i);
    TakeAndAsk(cfg, g4, v);
    ExecSix(cfg, g, [RedriveClear(i), RedrivePublish(|g.redriving|), Read, Submit, Begin(v), Ask(v)], g1, g2, g3, g4);
  }

  lemma TakeAndAsk(cfg: RedisConfig, g: Group, v: nat)
    requires GroupShape(cfg, g) && v < cfg.pool.n && g.d.workers[v].Idle? && g.d.queues[v] != []
    requires g.d.queues[v][0].work.event.eventId !in g.dedup
    ensures RedisEnabled(cfg, g, Begin(v)) && RedisEnabled(cfg, RedisNext(cfg, g, Begin(v)), Ask(v))
    ensures var end := RedisNext(cfg, RedisNext(cfg, g, Begin(v)), Ask(v));
            InPhase(end, v, Handling) && end.log == g.log + [Called(g.d.queues[v][0].work.event.eventId)]
  {
  }

  /** A failed delivery frees its worker and its dedup key. Below the limit the message
      stays pending for another delivery; at the limit it is acknowledged as a dead
      letter. */
  lemma FailureIsRetriedOrBuried(cfg: RedisConfig, g: Group, w: nat)
    requires GroupShape(cfg, g) && w < cfg.pool.n && InPhase(g, w, Handling)
    ensures var job := Job(g, w);
            job.count < cfg.maxDeliveries ==>
              var end := RedisExec(cfg, g, [Fail(w), Clear(w)]);
              && end.Some? && end.value.d.workers[w].Idle? && job.event.eventId !in end.value.dedup
              && end.value.pending == g.pending && end.value.acked == g.acked && end.value.dlq == g.dlq
    ensures var job := Job(g, w);
            job.count >= cfg.maxDeliveries ==>
              var end := RedisExec(cfg, g, [Fail(w), Clear(w), Bury(w), Ack(w)]);
              && end.Some? && end.value.d.workers[w].Idle? && job.event.eventId !in end.value.dedup
              && end.value.pending == g.pending - {job.message} && end.value.acked == g.acked + {job.message}
              && end.value.dlq == g.dlq + [Letter(job.message, job.event, job.count)]
  {
    hide RedisExec, RedisNext, RedisEnabled;
    var steps := [Fail(w), Clear(w), Bury(w), Ack(w)];
    assert RedisExec(cfg, g, steps[..0]) == Some(g) by { ExecNothing(cfg, g); }
    FailAndClear(cfg, g, w);
    var g1 := RedisNext(cfg, g, Fail(w));
    RedisSnoc(cfg, g, steps[..0], Fail(w));
    assert steps[..0] + [Fail(w)] == steps[..1];
    var g2 := RedisNext(cfg, g1, Clear(w));
    RedisSnoc(cfg, g, steps[..1], Clear(w));
    assert steps[..1] + [Clear(w)] == [Fail(w), Clear(w)];
    if Job(g, w).count >= cfg.maxDeliveries {
      BuryAndAck(cfg, g2, w);
      RedisSnoc(cfg, g, [Fail(w), Clear(w)], Bury(w));
      assert [Fail(w), Clear(w)] + [Bury(w)] == [Fail(w), Clear(w), Bury(w)];
      RedisSnoc(cfg, g, [Fail(w), Clear(w), Bury(w)], Ack(w));
      assert [Fail(w), Clear(w), Bury(w)] + [Ack(w)] == steps;
    }
  }

  lemma FailAndClear(cfg: RedisConfig, g: Group, w: nat)
    requires GroupShape(cfg, g) && w < cfg.pool.n && InPhase(g, w, Handling)
    ensures RedisEnabled(cfg, g, Fail(w)) && RedisEnabled(cfg, RedisNext(cfg, g, Fail(w)), Clear(w))
    ensures var job, g' := Job(g, w), RedisNext(cfg, RedisNext(cfg, g, Fail(w)), Clear(w));
            && g' == g.(dedup := g.dedup - {job.event.eventId}, d := g'.d, phase := g'.phase)
            && g'.d.queues == g.d.queues && g'.d.workers == g.d.workers[w := g'.d.workers[w]]
            && (if job.count < cfg.maxDeliveries then g'.d.workers[w].Idle? else InPhase(g', w, Burying) && Job(g', w) == job)
  {
  }

  lemma BuryAndAck(cfg: RedisConfig, g: Group, w: nat)
    requires GroupShape(cfg, g) && w < cfg.pool.n && InPhase(g, w, Burying)
    ensures RedisEnabled(cfg, g, Bury(w)) && RedisEnabled(cfg, RedisNext(cfg, g, Bury(w)), Ack(w))
    ensures var job, g' := Job(g, w), RedisNext(cfg, RedisNext(cfg, g, Bury(w)), Ack(w));
            && g' == g.(pending := g.pending - {job.message}, acked := g.acked + {job.message},
                        buried := g.buried + {job.message},
                        dlq := g.dlq + [Letter(job.message, job.event, job.count)], d := g'.d, phase := g'.phase)
            && g'.d.queues == g.d.queues && g'.d.workers == g.d.workers[w := Idle]
  {
  }

  lemma ExecNothing(cfg: RedisConfig, g: Group)
    requires GroupShape(cfg, g)
    ensures RedisExec(cfg, g, []) == Some(g)
  {
  }

  lemma PendingStep(cfg: RedisConfig, g: Group, step: RedisStep)
    requires GroupShape(cfg, g) && RedisEnabled(cfg, g, step)
    ensures var g' := RedisNext(cfg, g, step);
            && g.cursor <= g'.cursor && (step.Reclaim? ==> step.message < g.cursor)
            && forall m :: m in g'.pending ==>
                 (m in g.pending && g'.pending[m] == g.pending[m] + if step == Reclaim(m) then 1 else 0)
                 || (step == Read && m == g.cursor < g'.cursor && g'.pending[m] == 1)
  {
    hide NextDispatch, Enabled, HasRoom;
  }

  /** The count that decides about the limit is the number of deliveries so far. */
  lemma {:induction false} CountsAreDeliveries(cfg: RedisConfig, steps: seq<RedisStep>)
    requires Sane(cfg) && RedisExec(cfg, NewGroup(cfg), steps).Some?
    ensures var g := RedisExec(cfg, NewGroup(cfg), steps).value;
            forall m :: (m in g.pending ==> m < g.cursor && g.pending[m] == 1 + multiset(steps)[Reclaim(m)])
                        && (m >= g.cursor ==> multiset(steps)[Reclaim(m)] == 0)
    decreases |steps|
  {
    hide RedisNext, RedisEnabled;
    if steps == [] {
    } else {
      var init, last := steps[..|steps| - 1], steps[|steps| - 1];
      CountsAreDeliveries(cfg, init);
      PendingStep(cfg, RedisExec(cfg, NewGroup(cfg), init).value, last);
      assert steps == init + [last];
    }
  }

  lemma ExecFive(cfg: RedisConfig, g: Group, steps: seq<RedisStep>, g1: Group, g2: Group, g3: Group, g4: Group)
    requires |steps| == 5
    requires GroupShape(cfg, g) && RedisEnabled(cfg, g, steps[0]) && g1 == RedisNext(cfg, g, steps[0])
    requires RedisEnabled(cfg, g1, steps[1]) && g2 == RedisNext(cfg, g1, steps[1])
    requires RedisEnabled(cfg, g2, steps[2]) && g3 == RedisNext(cfg, g2, steps[2])
    requires RedisEnabled(cfg, g3, steps[3]) && g4 == RedisNext(cfg, g3, steps[3])
    requires RedisEnabled(cfg, g4, steps[4])
    ensures RedisExec(cfg, g, steps) == Some(RedisNext(cfg, g4, steps[4]))
  {
    hide RedisEnabled, RedisNext;
    assert RedisExec(cfg, g, steps[..0]) == Some(g);
    RedisSnoc(cfg, g, steps[..0], steps[0]);
    assert steps[..0] + [steps[0]] == steps[..1];
    RedisSnoc(cfg, g, steps[..1], steps[1]);
    assert steps[..1] + [steps[1]] == steps[..2];
    RedisSnoc(cfg, g, steps[..2], steps[2]);
    assert steps[..2] + [steps[2]] == steps[..3];
    RedisSnoc(cfg, g, steps[..3], steps[3]);
    assert steps[..3] + [steps[3]] == steps[..4];
    RedisSnoc(cfg, g, steps[..4], steps[4]);
    assert steps[..4] + [steps[4]] == steps;
  }

  lemma ExecSix(cfg: RedisConfig, g: Group, steps: seq<RedisStep>, g1: Group, g2: Group, g3: Group, g4: Group)
    requires |steps| == 6
    requires GroupShape(cfg, g) && RedisEnabled(cfg, g, steps[0]) && g1 == RedisNext(cfg, g, steps[0])
    requires RedisEnabled(cfg, g1, steps[1]) && g2 == RedisNext(cfg, g1, steps[1])
    requires RedisEnabled(cfg, g2, steps[2]) && g3 == RedisNext(cfg, g2, steps[2])
    requires RedisEnabled(cfg, g3, steps[3]) && g4 == RedisNext(cfg, g3, steps[3])
    requires RedisEnabled(cfg, g4, steps[4]) && RedisEnabled(cfg, RedisNext(cfg, g4, steps[4]), steps[5])
    ensures RedisExec(cfg, g, steps) == Some(RedisNext(cfg, RedisNext(cfg, g4, steps[4]), steps[5]))
  {
    hide RedisEnabled, RedisNext;
    ExecFive(cfg, g, steps[..5], g1, g2, g3, g4);
    RedisSnoc(cfg, g, steps[..5], steps[5]);
    assert steps[..5] + [steps[5]] == steps;
  }
}
