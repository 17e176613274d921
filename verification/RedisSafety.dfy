/** What the Redis bus keeps: no delivered message is lost, and handlers are not
    repeated, as long as certain steps are not taken. */
module RedisSafety {
  import opened Basics
  import opened Partitioning
  import opened Events
  import opened RedisBus
  import opened RedisRuns

  // ---------------------------------------------------------------- what is in the queues

  ghost predicate GoodJob(g: Group, universe: iset<DomainEvent>, item: Item<Delivery>) {
    && item.work.message < |g.stream| && g.stream[item.work.message] == Envelope(item.work.event)
    && item.work.event in universe && item.key == RoutingKey(item.work.event)
  }

  ghost predicate GoodJobs(cfg: RedisConfig, universe: iset<DomainEvent>, g: Group)
    requires GroupShape(cfg, g)
  {
    && (forall w, i :: 0 <= w < cfg.pool.n && 0 <= i < |g.d.queues[w]| ==> GoodJob(g, universe, g.d.queues[w][i]))
    && (forall w :: 0 <= w < cfg.pool.n && g.d.workers[w].Busy? ==> GoodJob(g, universe, g.d.workers[w].item))
    && (forall w :: 0 <= w < cfg.pool.n ==> !g.d.workers[w].Gone?)
  }

  ghost predicate GoodEvents(universe: iset<DomainEvent>, g: Group) {
    && (forall m :: 0 <= m < |g.stream| && g.stream[m].Envelope? ==> g.stream[m].event in universe)
    && (forall i :: 0 <= i < |g.dlq| ==> g.dlq[i].event in universe)
    && (forall j :: 0 <= j < |g.redriving| ==> g.redriving[j].letter.event in universe)
    && (forall m :: m in g.buried ==> m < |g.stream|)
  }

  /** One id is in the hands of one worker. */
  ghost predicate Basic(cfg: RedisConfig, universe: iset<DomainEvent>, g: Group) {
    && GroupShape(cfg, g) && Routed(cfg.pool, g.d) && GoodJobs(cfg, universe, g) && GoodEvents(universe, g)
  }

  lemma RoutedStep(cfg: RedisConfig, g: Group, step: RedisStep)
    requires GroupShape(cfg, g) && Routed(cfg.pool, g.d) && RedisEnabled(cfg, g, step)
    ensures Routed(cfg.pool, RedisNext(cfg, g, step).d)
  {
    hide Routed;
    var pool := cfg.pool;
    match step
    case Submit =>
      var (m, count) := g.fetched[0];
      if g.stream[m].Envelope? {
        var e := g.stream[m].event;
        RoutedKept(pool, g.d, Announce(count > 1));
        RoutedKept(pool, NextDispatch(pool, g.d, Announce(count > 1)), Put(Item(RoutingKey(e), Delivery(m, e, count))));
      }
    case Begin(w) => RoutedKept(pool, g.d, Take(w));
    case Clear(w) => RoutedKept(pool, g.d, Return(w));
    case Ack(w) => RoutedKept(pool, g.d, Return(w));
    case Abort(w) => RoutedKept(pool, g.d, Raise(w));
    case Crash => StartRouted(pool);
    case _ =>
  }

  lemma StartRouted(pool: Config)
    requires pool.n >= 1
    ensures Routed(pool, Start<Delivery>(pool).d)
  {
  }

  lemma GoodJobsStep(cfg: RedisConfig, universe: iset<DomainEvent>, g: Group, step: RedisStep)
    requires GroupShape(cfg, g) && GoodJobs(cfg, universe, g) && GoodEvents(universe, g) && RedisEnabled(cfg, g, step)
    ensures GoodJobs(cfg, universe, RedisNext(cfg, g, step))
  {
    hide RedisNext, RedisEnabled, GoodEvents, GoodJobs, GoodJob;
    var g' := RedisNext(cfg, g, step);
    forall w, i | 0 <= w < cfg.pool.n && 0 <= i < |g'.d.queues[w]|
      ensures GoodJob(g', universe, g'.d.queues[w][i])
    {
      QueuedJobStep(cfg, universe, g, step, w, i);
    }
    forall w | 0 <= w < cfg.pool.n && g'.d.workers[w].Busy?
      ensures GoodJob(g', universe, g'.d.workers[w].item)
    {
      RunningJobStep(cfg, universe, g, step, w);
    }
    NobodyLeaves(cfg, universe, g, step);
    AllGoodJobs(cfg, universe, g');
  }

  lemma AllGoodJobs(cfg: RedisConfig, universe: iset<DomainEvent>, g: Group)
    requires GroupShape(cfg, g)
    requires forall w, i :: 0 <= w < cfg.pool.n && 0 <= i < |g.d.queues[w]| ==> GoodJob(g, universe, g.d.queues[w][i])
    requires forall w :: 0 <= w < cfg.pool.n && g.d.workers[w].Busy? ==> GoodJob(g, universe, g.d.workers[w].item)
    requires forall w :: 0 <= w < cfg.pool.n ==> !g.d.workers[w].Gone?
    ensures GoodJobs(cfg, universe, g)
  {
  }

  lemma NobodyLeaves(cfg: RedisConfig, universe: iset<DomainEvent>, g: Group, step: RedisStep)
    requires GroupShape(cfg, g) && GoodJobs(cfg, universe, g) && RedisEnabled(cfg, g, step)
    ensures forall w :: 0 <= w < cfg.pool.n ==> !RedisNext(cfg, g, step).d.workers[w].Gone?
  {
    hide HasRoom, GoodJob;
  }

  /** Where a queued job comes from. */
  lemma QueueOrigin(cfg: RedisConfig, g: Group, step: RedisStep, w: nat, i: nat)
    requires GroupShape(cfg, g) && RedisEnabled(cfg, g, step)
    requires w < cfg.pool.n && i < |RedisNext(cfg, g, step).d.queues[w]|
    ensures var item := RedisNext(cfg, g, step).d.queues[w][i];
            || (exists k :: 0 <= k < |g.d.queues[w]| && item == g.d.queues[w][k])
            || (step.Submit? && g.stream[g.fetched[0].0].Envelope?
                && var (m, count) := g.fetched[0];
                   item == Item(RoutingKey(g.stream[m].event), Delivery(m, g.stream[m].event, count)))
  {
    hide HasRoom;
    var g' := RedisNext(cfg, g, step);
    if step.Begin? && w == step.worker {
      assert g'.d.queues[w][i] == g.d.queues[w][i + 1];
    } else if i < |g.d.queues[w]| {
      assert g'.d.queues[w][i] == g.d.queues[w][i];
    }
  }

  lemma QueuedJobStep(cfg: RedisConfig, universe: iset<DomainEvent>, g: Group, step: RedisStep, w: nat, i: nat)
    requires GroupShape(cfg, g) && GoodJobs(cfg, universe, g) && GoodEvents(universe, g) && RedisEnabled(cfg, g, step)
    requires w < cfg.pool.n && i < |RedisNext(cfg, g, step).d.queues[w]|
    ensures GoodJob(RedisNext(cfg, g, step), universe, RedisNext(cfg, g, step).d.queues[w][i])
  {
    hide RedisNext, RedisEnabled, GoodEvents;
    StreamGrows(cfg, g, step);
    QueueOrigin(cfg, g, step, w, i);
    if step.Submit? {
      SubmitEnabled(cfg, g);
      if g.stream[g.fetched[0].0].Envelope? {
        NewJobIsGood(cfg, universe, g);
      }
    }
  }

  lemma SubmitEnabled(cfg: RedisConfig, g: Group)
    requires GroupShape(cfg, g) && RedisEnabled(cfg, g, Submit)
    ensures g.fetched != [] && g.fetched[0].0 < |g.stream|
  {
  }

  /** Where a running job comes from. */
  lemma RunningOrigin(cfg: RedisConfig, g: Group, step: RedisStep, w: nat)
    requires GroupShape(cfg, g) && RedisEnabled(cfg, g, step)
    requires w < cfg.pool.n && RedisNext(cfg, g, step).d.workers[w].Busy?
    ensures var worker := RedisNext(cfg, g, step).d.workers[w];
            worker == g.d.workers[w] || (g.d.queues[w] != [] && worker.item == g.d.queues[w][0])
  {
    hide HasRoom, Without;
  }

  lemma RunningJobStep(cfg: RedisConfig, universe: iset<DomainEvent>, g: Group, step: RedisStep, w: nat)
    requires GroupShape(cfg, g) && GoodJobs(cfg, universe, g) && RedisEnabled(cfg, g, step)
    requires w < cfg.pool.n && RedisNext(cfg, g, step).d.workers[w].Busy?
    ensures GoodJob(RedisNext(cfg, g, step), universe, RedisNext(cfg, g, step).d.workers[w].item)
  {
    hide RedisNext, RedisEnabled, HasRoom;
    StreamGrows(cfg, g, step);
    RunningOrigin(cfg, g, step, w);
  }

  lemma NewJobIsGood(cfg: RedisConfig, universe: iset<DomainEvent>, g: Group)
    requires GroupShape(cfg, g) && GoodEvents(universe, g) && RedisEnabled(cfg, g, Submit)
    requires g.stream[g.fetched[0].0].Envelope?
    ensures var (m, count) := g.fetched[0];
            var e := g.stream[m].event;
            GoodJob(g, universe, Item(RoutingKey(e), Delivery(m, e, count)))
  {
  }

  lemma StreamGrows(cfg: RedisConfig, g: Group, step: RedisStep)
    requires GroupShape(cfg, g) && RedisEnabled(cfg, g, step)
    ensures g.stream <= RedisNext(cfg, g, step).stream
  {
  }

  lemma {:induction false} WithoutKeeps(letters: seq<Letter>, letter: Letter)
    ensures forall l :: l in Without(letters, letter) <==> l in letters && l != letter
  {
    if letters == [] {
    } else {
      WithoutKeeps(letters[1..], letter);
    }
  }

  lemma GoodEventsStep(cfg: RedisConfig, universe: iset<DomainEvent>, g: Group, step: RedisStep)
    requires Basic(cfg, universe, g) && RedisEnabled(cfg, g, step) && Stocked(universe, step)
    ensures GoodEvents(universe, RedisNext(cfg, g, step))
  {
    hide HasRoom, Routed;
    var g' := RedisNext(cfg, g, step);
    if step.RedriveRemove? {
      WithoutKeeps(g.dlq, g.redriving[step.j].letter);
      forall i | 0 <= i < |g'.dlq| ensures g'.dlq[i].event in universe {
        assert g'.dlq[i] in g.dlq;
      }
    }
    if step.Bury? {
      assert GoodJob(g, universe, g.d.workers[step.worker].item);
    }
  }

  lemma BasicStep(cfg: RedisConfig, universe: iset<DomainEvent>, g: Group, step: RedisStep)
    requires Basic(cfg, universe, g) && RedisEnabled(cfg, g, step) && Stocked(universe, step)
    ensures Basic(cfg, universe, RedisNext(cfg, g, step))
  {
    hide Routed, GoodJobs, GoodEvents, HasRoom;
    RoutedStep(cfg, g, step);
    GoodJobsStep(cfg, universe, g, step);
    GoodEventsStep(cfg, universe, g, step);
  }

  lemma OneWorkerPerId(cfg: RedisConfig, universe: iset<DomainEvent>, g: Group, v: nat, w: nat)
    requires Basic(cfg, universe, g) && IdsShareWorker(cfg.pool, universe)
    requires v < cfg.pool.n && w < cfg.pool.n && g.d.workers[v].Busy? && g.d.workers[w].Busy?
    requires Job(g, v).event.eventId == Job(g, w).event.eventId
    ensures v == w
  {
    assert GoodJob(g, universe, g.d.workers[v].item) && GoodJob(g, universe, g.d.workers[w].item);
  }

  // ---------------------------------------------------------------- no loss

  ghost predicate KeyMeaning(cfg: RedisConfig, g: Group)
    requires GroupShape(cfg, g)
  {
    forall id :: id in g.dedup ==>
      id in g.handled || exists w :: 0 <= w < cfg.pool.n && Exposed(g, w) && Job(g, w).event.eventId == id
  }

  /** The message was handled, or is among the dead letters. */
  ghost predicate DealtWith(g: Group, m: nat) {
    m < |g.stream| && match g.stream[m]
                      case Envelope(e) => e.eventId in g.handled || m in g.buried
                      case NoEnvelope => true
                      case Garbled => false
  }

  ghost predicate AcksAreEarned(cfg: RedisConfig, g: Group)
    requires GroupShape(cfg, g)
  {
    forall w :: 0 <= w < cfg.pool.n && g.d.workers[w].Busy? ==> AckEarned(cfg, g, w)
  }

  /** Delivered messages are pending or acknowledged, and acknowledged only when
      dealt with. */
  ghost predicate Delivered(g: Group) {
    && (forall m :: 0 <= m < g.cursor ==> m in g.pending || m in g.acked)
    && (forall m :: m in g.acked ==> DealtWith(g, m))
  }

  /** A dead letter is in the DLQ until its event is in the stream again. */
  ghost predicate LettersKept(cfg: RedisConfig, g: Group) {
    && (forall m :: m in g.buried ==> m in g.republished || exists i :: 0 <= i < |g.dlq| && g.dlq[i].message == m)
    && (forall j :: 0 <= j < |g.redriving| && g.redriving[j].published ==> g.redriving[j].letter.message in g.republished)
    && (forall i :: 0 <= i < |g.dlq| ==> g.dlq[i].attempts >= cfg.maxDeliveries)
  }

  ghost predicate Safe(cfg: RedisConfig, universe: iset<DomainEvent>, g: Group) {
    && Basic(cfg, universe, g)
    && KeyMeaning(cfg, g) && AcksAreEarned(cfg, g) && Delivered(g) && LettersKept(cfg, g)
  }

  predicate Concerns(step: RedisStep, w: nat) {
    match step
    case Begin(v) => v == w
    case Ask(v) => v == w
    case Succeed(v) => v == w
    case Fail(v) => v == w
    case Clear(v) => v == w
    case Bury(v) => v == w
    case Ack(v) => v == w
    case Abort(v) => v == w
    case Crash => true
    case _ => false
  }

  lemma OthersStay(cfg: RedisConfig, g: Group, step: RedisStep, w: nat)
    requires GroupShape(cfg, g) && RedisEnabled(cfg, g, step) && w < cfg.pool.n && !Concerns(step, w)
    ensures RedisNext(cfg, g, step).d.workers[w] == g.d.workers[w] && RedisNext(cfg, g, step).phase[w] == g.phase[w]
  {
    hide HasRoom;
  }

  /** The step of the worker at hand, or of the process. */
  lemma KeyMeaningOwn(cfg: RedisConfig, g: Group, step: RedisStep, w: nat, id: string)
    requires GroupShape(cfg, g) && RedisEnabled(cfg, g, step) && Gentle(g, step) && w < cfg.pool.n && Concerns(step, w)
    requires Exposed(g, w) && Job(g, w).event.eventId == id
    ensures var g' := RedisNext(cfg, g, step);
            id in g'.handled || id !in g'.dedup || (Exposed(g', w) && Job(g', w).event.eventId == id)
  {
    hide HasRoom;
    assert step.Crash? || step.Abort? ==> !Orphans(g, w);
  }

  lemma KeyMeaningStep(cfg: RedisConfig, g: Group, step: RedisStep)
    requires GroupShape(cfg, g) && KeyMeaning(cfg, g) && RedisEnabled(cfg, g, step) && Gentle(g, step)
    ensures KeyMeaning(cfg, RedisNext(cfg, g, step))
  {
    var g' := RedisNext(cfg, g, step);
    forall id | id in g'.dedup
      ensures id in g'.handled || exists w :: 0 <= w < cfg.pool.n && Exposed(g', w) && Job(g', w).event.eventId == id
    {
      KeysAndHandled(cfg, g, step, id);
      if id !in g.dedup {
        assert Exposed(g', step.worker);
      } else if id !in g.handled {
        var w :| 0 <= w < cfg.pool.n && Exposed(g, w) && Job(g, w).event.eventId == id;
        if Concerns(step, w) {
          KeyMeaningOwn(cfg, g, step, w, id);
        } else {
          OthersStay(cfg, g, step, w);
          assert Exposed(g', w);
        }
      }
    }
  }

  lemma KeysAndHandled(cfg: RedisConfig, g: Group, step: RedisStep, id: string)
    requires GroupShape(cfg, g) && RedisEnabled(cfg, g, step)
    ensures var g' := RedisNext(cfg, g, step);
            && g.handled <= g'.handled && g.buried <= g'.buried
            && (id in g'.dedup && id !in g.dedup ==>
                  step.Ask? && step.worker < cfg.pool.n
                  && Exposed(g', step.worker) && Job(g', step.worker).event.eventId == id)
  {
    hide HasRoom;
  }

  ghost predicate AckEarned(cfg: RedisConfig, g: Group, w: nat)
    requires GroupShape(cfg, g) && w < cfg.pool.n && g.d.workers[w].Busy?
  {
    && (InPhase(g, w, AckDuplicate) || InPhase(g, w, AckDone) ==> Job(g, w).event.eventId in g.handled)
    && (InPhase(g, w, AckDead) ==> Job(g, w).message in g.buried)
    && (InPhase(g, w, Burying) ==> Job(g, w).count >= cfg.maxDeliveries)
  }

  lemma AckEarnedOwn(cfg: RedisConfig, universe: iset<DomainEvent>, g: Group, step: RedisStep, w: nat)
    requires Basic(cfg, universe, g) && IdsShareWorker(cfg.pool, universe) && KeyMeaning(cfg, g)
    requires RedisEnabled(cfg, g, step) && w < cfg.pool.n && Concerns(step, w)
    requires RedisNext(cfg, g, step).d.workers[w].Busy?
    requires g.d.workers[w].Busy? ==> AckEarned(cfg, g, w)
    ensures AckEarned(cfg, RedisNext(cfg, g, step), w)
  {
    hide HasRoom, Routed, GoodJobs, GoodEvents, IdsShareWorker;
    if step.Ask? {
      var id := Job(g, w).event.eventId;
      if id in g.dedup && id !in g.handled {
        var v :| 0 <= v < cfg.pool.n && Exposed(g, v) && Job(g, v).event.eventId == id;
        OneWorkerPerId(cfg, universe, g, v, w);
      }
    }
  }

  lemma AcksStep(cfg: RedisConfig, universe: iset<DomainEvent>, g: Group, step: RedisStep)
    requires Basic(cfg, universe, g) && IdsShareWorker(cfg.pool, universe)
    requires KeyMeaning(cfg, g) && AcksAreEarned(cfg, g) && RedisEnabled(cfg, g, step)
    ensures AcksAreEarned(cfg, RedisNext(cfg, g, step))
  {
    hide Routed, GoodJobs, GoodEvents, IdsShareWorker, KeyMeaning, RedisNext;
    var g' := RedisNext(cfg, g, step);
    KeysAndHandled(cfg, g, step, "");
    forall w | 0 <= w < cfg.pool.n && g'.d.workers[w].Busy? ensures AckEarned(cfg, g', w) {
      if Concerns(step, w) {
        AckEarnedOwn(cfg, universe, g, step, w);
      } else {
        OthersStay(cfg, g, step, w);
      }
    }
  }

  lemma DeliveredStep(cfg: RedisConfig, universe: iset<DomainEvent>, g: Group, step: RedisStep)
    requires Basic(cfg, universe, g) && AcksAreEarned(cfg, g) && Delivered(g) && RedisEnabled(cfg, g, step)
    ensures Delivered(RedisNext(cfg, g, step))
  {
    hide HasRoom, Routed, GoodEvents;
    var g' := RedisNext(cfg, g, step);
    if step.Ack? {
      assert GoodJob(g, universe, g.d.workers[step.worker].item);
    }
    forall m | m in g'.acked ensures DealtWith(g', m) {
      if m in g.acked {
        assert DealtWith(g, m);
      }
    }
  }

  /** What a step does to the letters, and to what has been said of them. */
  lemma LettersAfter(cfg: RedisConfig, g: Group, step: RedisStep)
    requires GroupShape(cfg, g) && RedisEnabled(cfg, g, step)
    ensures var g' := RedisNext(cfg, g, step);
            && g.republished <= g'.republished
            && (step.Bury? ==> var job := Job(g, step.worker);
                  g'.dlq == g.dlq + [Letter(job.message, job.event, job.count)] && g'.buried == g.buried + {job.message})
            && (step.RedriveRemove? ==> g'.dlq == Without(g.dlq, g.redriving[step.j].letter))
            && (!step.Bury? ==> g'.buried == g.buried)
            && (!step.Bury? && !step.RedriveRemove? ==> g'.dlq == g.dlq)
            && (forall j :: 0 <= j < |g'.redriving| && g'.redriving[j].published ==>
                  g'.redriving[j].letter.message in g'.republished
                  || exists i :: 0 <= i < |g.redriving| && g.redriving[i] == g'.redriving[j])
  {
    hide HasRoom, Without, NextDispatch, Enabled;
  }

  lemma LettersStep(cfg: RedisConfig, g: Group, step: RedisStep)
    requires GroupShape(cfg, g) && AcksAreEarned(cfg, g) && LettersKept(cfg, g) && RedisEnabled(cfg, g, step)
    ensures LettersKept(cfg, RedisNext(cfg, g, step))
  {
    var g' := RedisNext(cfg, g, step);
    LettersAfter(cfg, g, step);
    assert step.RedriveRemove? ==> step.j < |g.redriving| && g.redriving[step.j].published;
    assert step.Bury? ==> InPhase(g, step.worker, Burying);
    hide RedisNext, RedisEnabled, GroupShape, Without;
    if step.RedriveRemove? {
      WithoutKeeps(g.dlq, g.redriving[step.j].letter);
      forall i | 0 <= i < |g'.dlq| ensures g'.dlq[i].attempts >= cfg.maxDeliveries {
        assert g'.dlq[i] in g.dlq;
      }
    }
    forall m | m in g'.buried
      ensures m in g'.republished || exists i :: 0 <= i < |g'.dlq| && g'.dlq[i].message == m
    {
      if m in g.buried && m !in g.republished {
        var i :| 0 <= i < |g.dlq| && g.dlq[i].message == m;
        assert g.dlq[i] in g'.dlq;
      } else if m !in g.buried {
        assert g'.dlq[|g.dlq|].message == m;
      }
    }
  }

  lemma SafeStep(cfg: RedisConfig, universe: iset<DomainEvent>, g: Group, step: RedisStep)
    requires Safe(cfg, universe, g) && IdsShareWorker(cfg.pool, universe)
    requires RedisEnabled(cfg, g, step) && Gentle(g, step) && Stocked(universe, step)
    ensures Safe(cfg, universe, RedisNext(cfg, g, step))
  {
    hide HasRoom, KeyMeaning, AcksAreEarned, Delivered, LettersKept, IdsShareWorker, Routed, GoodJobs, GoodEvents;
    BasicStep(cfg, universe, g, step);
    KeyMeaningStep(cfg, g, step);
    AcksStep(cfg, universe, g, step);
    DeliveredStep(cfg, universe, g, step);
    LettersStep(cfg, g, step);
  }

  lemma NewGroupSafe(cfg: RedisConfig, universe: iset<DomainEvent>)
    requires Sane(cfg)
    ensures Safe(cfg, universe, NewGroup(cfg))
  {
    StartRouted(cfg.pool);
  }

  lemma {:induction false} GentleRunsAreSafe(cfg: RedisConfig, universe: iset<DomainEvent>, g: Group, steps: seq<RedisStep>)
    requires GroupShape(cfg, g) && Safe(cfg, universe, g) && IdsShareWorker(cfg.pool, universe)
    requires Run(cfg, universe, g, steps, NoOrphans)
    ensures Safe(cfg, universe, RedisExec(cfg, g, steps).value)
    decreases |steps|
  {
    hide RedisEnabled, RedisNext, Stocked, Run, IdsShareWorker, Safe, Gentle;
    if steps == [] {
      assert RedisExec(cfg, g, steps) == Some(g);
    } else {
      LastStep(cfg, universe, g, steps, NoOrphans);
      GentleRunsAreSafe(cfg, universe, g, steps[..|steps| - 1]);
      SafeStep(cfg, universe, RedisExec(cfg, g, steps[..|steps| - 1]).value, steps[|steps| - 1]);
    }
  }

  // ---------------------------------------------------------------- no repetition

  /** A settled id has its dedup key, and so has every handler that runs; the key is
      the lock, so that whatever the routing one id has one handler. A handler that has
      failed may lack the key only if no other worker can get at its id. */
  ghost predicate OnceInv(cfg: RedisConfig, universe: iset<DomainEvent>, g: Group)
    requires GroupShape(cfg, g)
  {
    && HandledOnce(g.log)
    && (forall id :: Settled(g.log, id) ==> id in g.dedup)
    && (forall w :: 0 <= w < cfg.pool.n && Exposed(g, w) ==> Locked(cfg, universe, g, w))
    && (forall v, w :: 0 <= v < w < cfg.pool.n && Exposed(g, v) && Exposed(g, w) ==>
          Job(g, v).event.eventId != Job(g, w).event.eventId)
  }

  ghost predicate Locked(cfg: RedisConfig, universe: iset<DomainEvent>, g: Group, w: nat)
    requires GroupShape(cfg, g) && w < cfg.pool.n && Exposed(g, w)
  {
    var id := Job(g, w).event.eventId;
    !Settled(g.log, id) && (id in g.dedup || (InPhase(g, w, Clearing) && SoleWorker(cfg, universe, id, w)))
  }

  lemma ExposedJob(cfg: RedisConfig, g: Group, step: RedisStep, w: nat)
    requires GroupShape(cfg, g) && RedisEnabled(cfg, g, step) && w < cfg.pool.n && Exposed(RedisNext(cfg, g, step), w)
    ensures g.d.workers[w].Busy? && Job(RedisNext(cfg, g, step), w) == Job(g, w)
  {
    hide HasRoom, Without;
  }

  lemma ExposedBefore(cfg: RedisConfig, g: Group, step: RedisStep, w: nat)
    requires GroupShape(cfg, g) && RedisEnabled(cfg, g, step) && w < cfg.pool.n && Exposed(RedisNext(cfg, g, step), w)
    requires g.d.workers[w].Busy?
    ensures Exposed(g, w) || (step == Ask(w) && Job(g, w).event.eventId !in g.dedup)
    ensures step != Clear(w) && step != Succeed(w)
  {
    hide HasRoom, Without;
  }

  lemma ExposedOrigin(cfg: RedisConfig, g: Group, step: RedisStep, w: nat)
    requires GroupShape(cfg, g) && RedisEnabled(cfg, g, step) && w < cfg.pool.n && Exposed(RedisNext(cfg, g, step), w)
    ensures g.d.workers[w].Busy? && Job(RedisNext(cfg, g, step), w) == Job(g, w)
    ensures Exposed(g, w) || (step == Ask(w) && Job(g, w).event.eventId !in g.dedup)
    ensures step != Clear(w) && step != Succeed(w)
    ensures InPhase(g, w, Clearing) ==> InPhase(RedisNext(cfg, g, step), w, Clearing)
    ensures step == Ask(w) ==> Job(g, w).event.eventId in RedisNext(cfg, g, step).dedup
  {
    hide HasRoom, Without;
    ExposedJob(cfg, g, step, w);
    ExposedBefore(cfg, g, step, w);
  }

  /** Two handlers never have one id: the second would have found the key. */
  lemma ApartStep(cfg: RedisConfig, universe: iset<DomainEvent>, g: Group, step: RedisStep, v: nat, w: nat)
    requires Basic(cfg, universe, g) && OnceInv(cfg, universe, g) && RedisEnabled(cfg, g, step)
    requires v < cfg.pool.n && w < cfg.pool.n && v != w && g.d.workers[v].Busy? && g.d.workers[w].Busy?
    requires Exposed(RedisNext(cfg, g, step), v) && Exposed(RedisNext(cfg, g, step), w)
    ensures Job(g, v).event.eventId != Job(g, w).event.eventId
  {
    hide HasRoom, Routed, GoodEvents, HandledOnce, Settled, RedisNext, RedisEnabled;
    ExposedOrigin(cfg, g, step, v);
    ExposedOrigin(cfg, g, step, w);
    assert GoodJob(g, universe, g.d.workers[v].item) && GoodJob(g, universe, g.d.workers[w].item);
    if Exposed(g, v) && Exposed(g, w) {
    } else if Exposed(g, v) {
      NotItsJob(cfg, universe, g, v, w);
    } else {
      NotItsJob(cfg, universe, g, w, v);
    }
  }

  /** A worker about to set an absent key does not hold the id of one exposed. */
  lemma NotItsJob(cfg: RedisConfig, universe: iset<DomainEvent>, g: Group, v: nat, w: nat)
    requires Basic(cfg, universe, g) && v < cfg.pool.n && w < cfg.pool.n && v != w && Exposed(g, v) && Locked(cfg, universe, g, v)
    requires g.d.workers[w].Busy? && Job(g, w).event.eventId !in g.dedup
    ensures Job(g, v).event.eventId != Job(g, w).event.eventId
  {
    hide GoodEvents, Settled;
    assert GoodJob(g, universe, g.d.workers[w].item);
  }

  lemma LockedStep(cfg: RedisConfig, universe: iset<DomainEvent>, g: Group, step: RedisStep, w: nat)
    requires Basic(cfg, universe, g) && OnceInv(cfg, universe, g) && RedisEnabled(cfg, g, step) && !Races(cfg, universe, g, step)
    requires w < cfg.pool.n && Exposed(RedisNext(cfg, g, step), w)
    ensures Locked(cfg, universe, RedisNext(cfg, g, step), w)
  {
    hide HasRoom, Routed, GoodJobs, GoodEvents, HandledOnce, Settled, SoleWorker, RedisNext, RedisEnabled;
    var g' := RedisNext(cfg, g, step);
    ExposedOrigin(cfg, g, step, w);
    var id := Job(g, w).event.eventId;
    if step.Succeed? || step.Clear? {
      BusyStep(cfg, g, step);
    }
    NotSettledStep(cfg, g, step, id);
    if id in g.dedup {
      KeyStep(cfg, g, step, id);
    }
    if step.RedriveClear? && step.i < |g.dlq| && g.dlq[step.i].event.eventId == id && Exposed(g, w) {
      assert !RacesWith(cfg, universe, g, step.i, w);
    }
  }

  /** Only a success settles an id. */
  lemma NotSettledStep(cfg: RedisConfig, g: Group, step: RedisStep, id: string)
    requires GroupShape(cfg, g) && RedisEnabled(cfg, g, step) && !Settled(g.log, id)
    requires step.Succeed? ==> Job(g, step.worker).event.eventId != id
    ensures !Settled(RedisNext(cfg, g, step).log, id)
  {
    hide HasRoom, Settled;
    var g' := RedisNext(cfg, g, step);
    if g'.log != g.log {
      assert g'.log == g.log + [g'.log[|g.log|]];
      SettledAppend(g.log, g'.log[|g.log|], id);
    }
  }

  /** Only its own handler and a redrive delete a key. */
  lemma KeyStep(cfg: RedisConfig, g: Group, step: RedisStep, id: string)
    requires GroupShape(cfg, g) && RedisEnabled(cfg, g, step) && id in g.dedup
    requires step.Clear? ==> Job(g, step.worker).event.eventId != id
    ensures id in RedisNext(cfg, g, step).dedup || (step.RedriveClear? && step.i < |g.dlq| && g.dlq[step.i].event.eventId == id)
  {
    hide HasRoom;
  }

  lemma OnceStep(cfg: RedisConfig, universe: iset<DomainEvent>, g: Group, step: RedisStep)
    requires Basic(cfg, universe, g) && OnceInv(cfg, universe, g) && RedisEnabled(cfg, g, step) && !Races(cfg, universe, g, step)
    ensures OnceInv(cfg, universe, RedisNext(cfg, g, step))
  {
    hide HasRoom, Routed, GoodJobs, GoodEvents, HandledOnce, Settled, Races, Locked, RedisNext, RedisEnabled;
    var g' := RedisNext(cfg, g, step);
    LogStep(cfg, universe, g, step);
    forall w | 0 <= w < cfg.pool.n && Exposed(g', w) ensures Locked(cfg, universe, g', w) {
      LockedStep(cfg, universe, g, step, w);
    }
    forall v, w | 0 <= v < w < cfg.pool.n && Exposed(g', v) && Exposed(g', w)
      ensures Job(g', v).event.eventId != Job(g', w).event.eventId
    {
      ExposedOrigin(cfg, g, step, v);
      ExposedOrigin(cfg, g, step, w);
      ApartStep(cfg, universe, g, step, v, w);
    }
  }

  lemma BusyStep(cfg: RedisConfig, g: Group, step: RedisStep)
    requires GroupShape(cfg, g) && RedisEnabled(cfg, g, step) && (step.Succeed? || step.Clear?)
    ensures step.worker < cfg.pool.n && g.d.workers[step.worker].Busy? && Exposed(g, step.worker)
    ensures step.Succeed? ==> InPhase(g, step.worker, Handling)
  {
    hide HasRoom;
  }

  lemma LogStep(cfg: RedisConfig, universe: iset<DomainEvent>, g: Group, step: RedisStep)
    requires GroupShape(cfg, g) && OnceInv(cfg, universe, g) && RedisEnabled(cfg, g, step)
    ensures var g' := RedisNext(cfg, g, step);
            && HandledOnce(g'.log)
            && (forall id :: Settled(g'.log, id) ==> id in g'.dedup)
  {
    hide HasRoom, HandledOnce, Settled, SoleWorker;
    var g' := RedisNext(cfg, g, step);
    if step.Clear? || step.Succeed? {
      assert Exposed(g, step.worker);
    }
    if g'.log != g.log {
      var fact := g'.log[|g.log|];
      assert g'.log == g.log + [fact];
      HandledOnceAppend(g.log, fact);
      forall id | Settled(g'.log, id) ensures id in g'.dedup {
        SettledAppend(g.log, fact, id);
      }
    }
  }

  lemma {:induction false} UnracedRunsHandleOnce(cfg: RedisConfig, universe: iset<DomainEvent>, g: Group, steps: seq<RedisStep>)
    requires GroupShape(cfg, g) && Basic(cfg, universe, g) && OnceInv(cfg, universe, g)
    requires Run(cfg, universe, g, steps, NoRaces)
    ensures Basic(cfg, universe, RedisExec(cfg, g, steps).value) && OnceInv(cfg, universe, RedisExec(cfg, g, steps).value)
    decreases |steps|
  {
    hide RedisEnabled, RedisNext, Stocked, Run, OnceInv, Basic, Races;
    if steps == [] {
      assert RedisExec(cfg, g, steps) == Some(g);
    } else {
      LastStep(cfg, universe, g, steps, NoRaces);
      UnracedRunsHandleOnce(cfg, universe, g, steps[..|steps| - 1]);
      var h := RedisExec(cfg, g, steps[..|steps| - 1]).value;
      BasicStep(cfg, universe, h, steps[|steps| - 1]);
      OnceStep(cfg, universe, h, steps[|steps| - 1]);
    }
  }

  /** For any events and any routing, crashes and failing commands included: after a
      success on an id the handler is not called again for it before a redrive on this
      very consumer, whatever other consumers redrive or publishers repeat. */
  lemma HandlersAreNotRepeated(cfg: RedisConfig, universe: iset<DomainEvent>, steps: seq<RedisStep>)
    requires Sane(cfg) && Run(cfg, universe, NewGroup(cfg), steps, NoRaces)
    ensures HandledOnce(RedisExec(cfg, NewGroup(cfg), steps).value.log)
  {
    NewGroupOnce(cfg, universe);
    UnracedRunsHandleOnce(cfg, universe, NewGroup(cfg), steps);
  }

  lemma NewGroupOnce(cfg: RedisConfig, universe: iset<DomainEvent>)
    requires Sane(cfg)
    ensures Basic(cfg, universe, NewGroup(cfg)) && OnceInv(cfg, universe, NewGroup(cfg))
  {
    StartRouted(cfg.pool);
  }
}
