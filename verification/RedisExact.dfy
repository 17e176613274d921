/** Exactly when the promises of the Redis bus hold: each step that a rule forbids has
    a continuation that breaks the promise, and so has each set of events with an id on
    two workers. The runs that show it start from an empty bus. */
module RedisExact {
  import opened Basics
  import opened Partitioning
  import opened Events
  import opened RedisBus
  import opened RedisRuns
  import opened RedisSafety
  import opened RedisDelivery

  // ---------------------------------------------------------------- an interrupted delivery

  /** No continuation without further orphaned keys loses a message. */
  ghost predicate StaysDelivered(cfg: RedisConfig, universe: iset<DomainEvent>, g: Group)
    requires GroupShape(cfg, g)
  {
    forall more :: Run(cfg, universe, g, more, NoOrphans) ==> Delivered(RedisExec(cfg, g, more).value)
  }

  /** A key without a handler makes the next delivery of its event vanish: it is
      acknowledged as a duplicate of nothing. */
  lemma OrphanedKeyLoses(cfg: RedisConfig, universe: iset<DomainEvent>, g: Group, e: DomainEvent)
    requires GroupShape(cfg, g) && e in universe && (forall m :: m in g.buried ==> m < |g.stream|)
    requires e.eventId in g.dedup && e.eventId !in g.handled && g.d.workers[WorkerFor(cfg.pool, RoutingKey(e))].Idle?
    ensures !StaysDelivered(cfg, universe, g)
  {
    hide Run, RedisExec, HasRoom, Delivered, RedisEnabled, RedisNext;
    var w, m := WorkerFor(cfg.pool, RoutingKey(e)), |g.stream|;
    var more, h := DeliverTo(cfg, universe, g, e, NoOrphans);
    LastLeg(cfg, h, w, m, e);
    more, h := HarmlessStep(cfg, universe, g, more, NoOrphans, h, Ask(w));
    more, h := HarmlessStep(cfg, universe, g, more, NoOrphans, h, Ack(w));
    assert !Delivered(h) by { NotDelivered(h, m); }
  }

  lemma LastLeg(cfg: RedisConfig, g: Group, v: nat, m: nat, e: DomainEvent)
    requires GroupShape(cfg, g) && InPhase(g, v, Asking) && Job(g, v).message == m && Job(g, v).event == e
    requires m < |g.stream| && g.stream[m] == Envelope(e)
    requires e.eventId in g.dedup && e.eventId !in g.handled && m !in g.buried
    ensures RedisEnabled(cfg, g, Ask(v)) && RedisEnabled(cfg, RedisNext(cfg, g, Ask(v)), Ack(v))
    ensures var end := RedisNext(cfg, RedisNext(cfg, g, Ask(v)), Ack(v));
            && m in end.acked && m !in end.pending && !DealtWith(end, m)
            && end == g.(acked := g.acked + {m}, pending := g.pending - {m}, d := end.d, phase := end.phase)
            && end.d.workers == g.d.workers[v := Idle] && end.d.queues == g.d.queues && end.phase == g.phase[v := AckDuplicate]
  {
  }

  lemma NotDelivered(g: Group, m: nat)
    requires m in g.acked && !DealtWith(g, m)
    ensures !Delivered(g)
  {
  }

  /** In whatever state a run has reached: a crash or an interruption is harmless if and
      only if it leaves no dedup key of an unhandled event behind. */
  lemma CutShortExactly(cfg: RedisConfig, universe: iset<DomainEvent>, steps: seq<RedisStep>, step: RedisStep)
    requires Sane(cfg) && IdsShareWorker(cfg.pool, universe) && Run(cfg, universe, NewGroup(cfg), steps, NoOrphans)
    requires RedisEnabled(cfg, RedisExec(cfg, NewGroup(cfg), steps).value, step) && Stocked(universe, step)
    ensures var g := RedisExec(cfg, NewGroup(cfg), steps).value;
            Gentle(g, step) <==> StaysDelivered(cfg, universe, RedisNext(cfg, g, step))
  {
    hide Run, RedisExec, IdsShareWorker, RedisEnabled, RedisNext, Stocked, Gentle, Safe;
    var g := RedisExec(cfg, NewGroup(cfg), steps).value;
    NewGroupSafe(cfg, universe);
    GentleRunsAreSafe(cfg, universe, NewGroup(cfg), steps);
    if Gentle(g, step) {
      SafeStep(cfg, universe, g, step);
      SafeStaysDelivered(cfg, universe, RedisNext(cfg, g, step));
    } else {
      var e := Orphaned(cfg, universe, g, step);
      OrphanedKeyLoses(cfg, universe, RedisNext(cfg, g, step), e);
    }
  }

  lemma SafeStaysDelivered(cfg: RedisConfig, universe: iset<DomainEvent>, g: Group)
    requires GroupShape(cfg, g) && Safe(cfg, universe, g) && IdsShareWorker(cfg.pool, universe)
    ensures StaysDelivered(cfg, universe, g)
  {
    hide Run, RedisExec, IdsShareWorker, Basic, KeyMeaning, AcksAreEarned, Delivered, LettersKept;
    forall more | Run(cfg, universe, g, more, NoOrphans) ensures Delivered(RedisExec(cfg, g, more).value) {
      GentleRunsAreSafe(cfg, universe, g, more);
    }
  }

  /** The event whose key is left behind. */
  lemma Orphaned(cfg: RedisConfig, universe: iset<DomainEvent>, g: Group, step: RedisStep) returns (e: DomainEvent)
    requires GroupShape(cfg, g) && Safe(cfg, universe, g) && RedisEnabled(cfg, g, step) && !Gentle(g, step)
    ensures var g' := RedisNext(cfg, g, step);
            && e in universe && e.eventId in g'.dedup && e.eventId !in g'.handled
            && g'.d.workers[WorkerFor(cfg.pool, RoutingKey(e))].Idle?
            && forall m :: m in g'.buried ==> m < |g'.stream|
  {
    hide KeyMeaning, AcksAreEarned, Delivered, LettersKept, HasRoom;
    var w;
    if step.Crash? {
      w :| 0 <= w < |g.d.workers| && Orphans(g, w);
    } else {
      w := step.worker;
    }
    assert GoodJob(g, universe, g.d.workers[w].item);
    e := Job(g, w).event;
  }

  /** And it takes no further publish when the message in hand is still pending: it is
      claimed again and acknowledged as a duplicate of itself. */
  lemma CutShortLosesItsMessage(cfg: RedisConfig, universe: iset<DomainEvent>, g: Group, step: RedisStep, w: nat)
    returns (more: seq<RedisStep>, end: Group)
    requires GroupShape(cfg, g) && Basic(cfg, universe, g) && Orphans(g, w) && w < cfg.pool.n && (step == Crash || step == Abort(w))
    requires Job(g, w).message in g.pending && Job(g, w).message < g.cursor && Job(g, w).message !in g.buried
    ensures RedisEnabled(cfg, g, step) && Leads(cfg, iset{}, RedisNext(cfg, g, step), more, NoOrphans, end)
    ensures Job(g, w).message in end.acked && Job(g, w).message !in end.pending && !DealtWith(end, Job(g, w).message)
  {
    hide Run, RedisExec, HasRoom, RedisNext, RedisEnabled, Basic, DealtWith;
    CutShortLeaves(cfg, universe, g, step, w);
    var g0 := RedisNext(cfg, g, step);
    var m, e := Job(g, w).message, Job(g, w).event;
    more, end := DrainQueue(cfg, iset{}, g0, w, NoOrphans);
    DropEnabled(cfg, end);
    more, end := HarmlessStep(cfg, iset{}, g0, more, NoOrphans, end, DropFetched);
    var g1, g2, g3 := ClaimAgain(cfg, end, w, m, e);
    more, end := HarmlessStep(cfg, iset{}, g0, more, NoOrphans, end, Reclaim(m));
    more, end := HarmlessStep(cfg, iset{}, g0, more, NoOrphans, end, Submit);
    more, end := HarmlessStep(cfg, iset{}, g0, more, NoOrphans, end, Begin(w));
    LastLeg(cfg, end, w, m, e);
    more, end := HarmlessStep(cfg, iset{}, g0, more, NoOrphans, end, Ask(w));
    more, end := HarmlessStep(cfg, iset{}, g0, more, NoOrphans, end, Ack(w));
  }

  lemma CutShortLeaves(cfg: RedisConfig, universe: iset<DomainEvent>, g: Group, step: RedisStep, w: nat)
    requires GroupShape(cfg, g) && Basic(cfg, universe, g) && w < cfg.pool.n && g.d.workers[w].Busy?
    requires step == Crash || step == Abort(w)
    ensures RedisEnabled(cfg, g, step)
    ensures var g', job := RedisNext(cfg, g, step), Job(g, w);
            && g' == g.(d := g'.d, fetched := g'.fetched, redriving := g'.redriving) && g'.d.workers[w].Idle?
            && job.message < |g.stream| && g.stream[job.message] == Envelope(job.event)
            && WorkerFor(cfg.pool, RoutingKey(job.event)) == w
  {
    assert GoodJob(g, universe, g.d.workers[w].item);
  }

  lemma DropEnabled(cfg: RedisConfig, g: Group)
    requires GroupShape(cfg, g)
    ensures RedisEnabled(cfg, g, DropFetched) && RedisNext(cfg, g, DropFetched) == g.(fetched := [])
  {
  }

  // ---------------------------------------------------------------- failing to the end

  /** A handler that fails on every delivery: the message ends as a dead letter, its
      worker is free and its key is gone. */
  lemma {:induction false} FailToTheEnd(cfg: RedisConfig, universe: iset<DomainEvent>, g: Group, v: nat, rule: Rule)
    returns (steps: seq<RedisStep>, g': Group, count: nat)
    requires GroupShape(cfg, g) && v < cfg.pool.n && InPhase(g, v, Handling) && g.d.queues[v] == [] && g.fetched == []
    requires var job := Job(g, v);
             && job.message in g.pending && g.pending[job.message] == job.count && job.message < g.cursor
             && g.stream[job.message] == Envelope(job.event) && WorkerFor(cfg.pool, RoutingKey(job.event)) == v
    ensures Leads(cfg, universe, g, steps, rule, g') && Buried(g, g', v, count)
    decreases cfg.maxDeliveries - Job(g, v).count
  {
    hide Run, RedisExec, HasRoom, RedisEnabled, RedisNext;
    NoSteps(cfg, universe, g, rule);
    FailAndClear(cfg, g, v);
    steps, g' := HarmlessStep(cfg, universe, g, [], rule, g, Fail(v));
    steps, g' := HarmlessStep(cfg, universe, g, steps, rule, g', Clear(v));
    count := Job(g, v).count;
    if count >= cfg.maxDeliveries {
      BuryAndAck(cfg, g', v);
      steps, g' := HarmlessStep(cfg, universe, g, steps, rule, g', Bury(v));
      steps, g' := HarmlessStep(cfg, universe, g, steps, rule, g', Ack(v));
    } else {
      var g1, g2, g3, g4 := TryAgain(cfg, g', v, Job(g, v).message, Job(g, v).event);
      steps, g' := HarmlessStep(cfg, universe, g, steps, rule, g', Reclaim(Job(g, v).message));
      steps, g' := HarmlessStep(cfg, universe, g, steps, rule, g', Submit);
      steps, g' := HarmlessStep(cfg, universe, g, steps, rule, g', Begin(v));
      steps, g' := HarmlessStep(cfg, universe, g, steps, rule, g', Ask(v));
      var more, end;
      more, end, count := FailToTheEnd(cfg, universe, g', v, rule);
      Onwards(cfg, universe, g, steps, rule, g', more, end);
      assert g'.pending - {Job(g, v).message} == g.pending - {Job(g, v).message};
      steps, g' := steps + more, end;
    }
  }

  /** The message worker v was handling at g is a dead letter at g'. */
  ghost predicate Buried(g: Group, g': Group, v: nat, count: nat)
    requires v < |g.d.workers| && g.d.workers[v].Busy?
  {
    var job := Job(g, v);
    && Free(g', v) && g'.fetched == [] && g'.dedup == g.dedup - {job.event.eventId}
    && g'.stream == g.stream && g'.cursor == g.cursor && g'.redriving == g.redriving && g'.handled == g.handled
    && g'.pending == g.pending - {job.message} && g'.acked == g.acked + {job.message} && g'.buried == g.buried + {job.message}
    && g'.dlq == g.dlq + [Letter(job.message, job.event, count)]
    && |g'.d.workers| == |g.d.workers| && |g'.d.queues| == |g.d.queues|
    && (forall w :: 0 <= w < |g.d.workers| && w != v ==> g'.d.workers[w] == g.d.workers[w])
    && (forall w :: 0 <= w < |g.d.queues| && w != v ==> g'.d.queues[w] == g.d.queues[w])
  }

  /** A pending message is claimed again and taken up by its worker. */
  lemma ClaimAgain(cfg: RedisConfig, g: Group, v: nat, m: nat, e: DomainEvent) returns (g1: Group, g2: Group, g3: Group)
    requires GroupShape(cfg, g) && Free(g, v) && g.fetched == [] && m in g.pending && m < g.cursor
    requires g.stream[m] == Envelope(e) && WorkerFor(cfg.pool, RoutingKey(e)) == v
    ensures RedisEnabled(cfg, g, Reclaim(m)) && g1 == RedisNext(cfg, g, Reclaim(m)) && GroupShape(cfg, g1)
    ensures RedisEnabled(cfg, g1, Submit) && g2 == RedisNext(cfg, g1, Submit) && GroupShape(cfg, g2)
    ensures RedisEnabled(cfg, g2, Begin(v)) && g3 == RedisNext(cfg, g2, Begin(v)) && GroupShape(cfg, g3)
    ensures InPhase(g3, v, Asking) && Job(g3, v) == Delivery(m, e, g.pending[m] + 1)
    ensures g3 == g.(pending := g.pending[m := g.pending[m] + 1], d := g3.d, phase := g3.phase)
    ensures g3.d.queues == g.d.queues && g3.d.workers == g.d.workers[v := g3.d.workers[v]]
  {
    g1 := RedisNext(cfg, g, Reclaim(m));
    assert g1.fetched == [(m, g.pending[m] + 1)];
    g2 := RedisNext(cfg, g1, Submit);
    var item := Item(RoutingKey(e), Delivery(m, e, g.pending[m] + 1));
    assert [] + [item] == [item] && [item][1..] == [];
    assert g2.d.queues == g.d.queues[v := [item]];
    g3 := RedisNext(cfg, g2, Begin(v));
    assert g3.d.queues == g.d.queues[v := []];
    assert g3.d.queues == g.d.queues;
  }

  /** And handled again, when there is no key. */
  lemma TryAgain(cfg: RedisConfig, g: Group, v: nat, m: nat, e: DomainEvent) returns (g1: Group, g2: Group, g3: Group, g4: Group)
    requires GroupShape(cfg, g) && Free(g, v) && g.fetched == [] && m in g.pending && m < g.cursor
    requires g.stream[m] == Envelope(e) && WorkerFor(cfg.pool, RoutingKey(e)) == v && e.eventId !in g.dedup
    ensures RedisEnabled(cfg, g, Reclaim(m)) && g1 == RedisNext(cfg, g, Reclaim(m)) && GroupShape(cfg, g1)
    ensures RedisEnabled(cfg, g1, Submit) && g2 == RedisNext(cfg, g1, Submit) && GroupShape(cfg, g2)
    ensures RedisEnabled(cfg, g2, Begin(v)) && g3 == RedisNext(cfg, g2, Begin(v)) && GroupShape(cfg, g3)
    ensures RedisEnabled(cfg, g3, Ask(v)) && g4 == RedisNext(cfg, g3, Ask(v)) && GroupShape(cfg, g4)
    ensures InPhase(g4, v, Handling) && Job(g4, v) == Delivery(m, e, g.pending[m] + 1)
    ensures g4 == g.(pending := g.pending[m := g.pending[m] + 1], dedup := g.dedup + {e.eventId}, log := g.log + [Called(e.eventId)],
                     d := g4.d, phase := g4.phase)
    ensures g4.d.queues == g.d.queues && g4.d.workers == g.d.workers[v := g4.d.workers[v]]
  {
    hide RedisNext, RedisEnabled;
    g1, g2, g3 := ClaimAgain(cfg, g, v, m, e);
    AskNew(cfg, g3, v);
    g4 := RedisNext(cfg, g3, Ask(v));
  }

  // ---------------------------------------------------------------- one id on two workers

  /** Nothing is left to do: all read, nothing pending or in the process, no keys. */
  ghost predicate AtRest(g: Group) {
    && g.cursor == |g.stream| && g.fetched == [] && g.pending == map[] && g.redriving == [] && g.dedup == {}
    && forall w :: 0 <= w < |g.d.workers| ==> Free(g, w)
  }

  /** In every gentle run over these events: a delivered message is pending or was
      acknowledged, an acknowledged one was handled or is a dead letter, and a dead
      letter stays in the DLQ until its event is back in the stream. */
  ghost predicate NothingLost(cfg: RedisConfig, universe: iset<DomainEvent>)
    requires Sane(cfg)
  {
    forall steps :: Run(cfg, universe, NewGroup(cfg), steps, NoOrphans) ==>
      var g := RedisExec(cfg, NewGroup(cfg), steps).value;
      Delivered(g) && LettersKept(cfg, g)
  }

  /** The same of the runs that have come to rest only. */
  ghost predicate NothingLostAtRest(cfg: RedisConfig, universe: iset<DomainEvent>)
    requires Sane(cfg)
  {
    forall steps :: Run(cfg, universe, NewGroup(cfg), steps, NoOrphans) ==>
      var g := RedisExec(cfg, NewGroup(cfg), steps).value;
      AtRest(g) ==> Delivered(g) && LettersKept(cfg, g)
  }

  lemma NothingLostExactly(cfg: RedisConfig, universe: iset<DomainEvent>)
    requires Sane(cfg)
    ensures NothingLost(cfg, universe) <==> IdsShareWorker(cfg.pool, universe)
    ensures NothingLostAtRest(cfg, universe) <==> IdsShareWorker(cfg.pool, universe)
  {
    hide RedisExec, Delivered, LettersKept, AtRest, Run;
    if IdsShareWorker(cfg.pool, universe) {
      NewGroupSafe(cfg, universe);
      forall steps | Run(cfg, universe, NewGroup(cfg), steps, NoOrphans)
        ensures var g := RedisExec(cfg, NewGroup(cfg), steps).value;
                Delivered(g) && LettersKept(cfg, g)
      {
        GentleRunsAreSafe(cfg, universe, NewGroup(cfg), steps);
      }
    } else {
      var a, b :| a in universe && b in universe && a.eventId == b.eventId
                  && WorkerFor(cfg.pool, RoutingKey(a)) != WorkerFor(cfg.pool, RoutingKey(b));
      var steps, g := LostAtRest(cfg, universe, a, b);
    }
  }

  /** The second delivery of an id is acknowledged as a duplicate while the first is
      still in its handler, on another worker, and the first then fails to the end: the
      second message was neither handled nor dead-lettered, and never will be. */
  lemma LostAtRest(cfg: RedisConfig, universe: iset<DomainEvent>, a: DomainEvent, b: DomainEvent)
    returns (steps: seq<RedisStep>, g: Group)
    requires Sane(cfg) && a in universe && b in universe && a.eventId == b.eventId
    requires WorkerFor(cfg.pool, RoutingKey(a)) != WorkerFor(cfg.pool, RoutingKey(b))
    ensures Leads(cfg, universe, NewGroup(cfg), steps, NoOrphans, g) && AtRest(g) && !Delivered(g)
  {
    hide Run, RedisExec, HasRoom, RedisEnabled, RedisNext, Delivered;
    var start := NewGroup(cfg);
    var v, w := WorkerFor(cfg.pool, RoutingKey(a)), WorkerFor(cfg.pool, RoutingKey(b));
    var g1, g2;
    steps, g1 := HandleNew(cfg, universe, start, a, NoOrphans);
    steps, g2 := AckedAside(cfg, universe, start, steps, g1, b);
    var more, count;
    more, g, count := FailToTheEnd(cfg, universe, g2, v, NoOrphans);
    Onwards(cfg, universe, start, steps, NoOrphans, g2, more, g);
    steps := steps + more;
    CountsAreDeliveries(cfg, steps);
    assert g.pending == map[];
    NotDelivered(g, 1);
  }

  /** One more copy of an event, brought into its handler. */
  lemma HandleNew(cfg: RedisConfig, universe: iset<DomainEvent>, g: Group, e: DomainEvent, rule: Rule)
    returns (steps: seq<RedisStep>, g': Group)
    requires GroupShape(cfg, g) && e in universe && e.eventId !in g.dedup && g.d.workers[WorkerFor(cfg.pool, RoutingKey(e))].Idle?
    ensures Leads(cfg, universe, g, steps, rule, g') && InHandler(cfg, g, g', e)
  {
    hide Run, RedisExec, HasRoom, RedisEnabled, RedisNext;
    var v := WorkerFor(cfg.pool, RoutingKey(e));
    var h;
    steps, h := DeliverTo(cfg, universe, g, e, rule);
    AskNew(cfg, h, v);
    steps, g' := HarmlessStep(cfg, universe, g, steps, rule, h, Ask(v));
  }

  /** From g to g' one copy of the event came into its handler; the rest is as it was. */
  ghost predicate InHandler(cfg: RedisConfig, g: Group, g': Group, e: DomainEvent)
    requires Sane(cfg)
  {
    var v, m := WorkerFor(cfg.pool, RoutingKey(e)), |g.stream|;
    && InPhase(g', v, Handling) && Job(g', v) == Delivery(m, e, 1)
    && g'.stream == g.stream + [Envelope(e)] && g'.cursor == |g'.stream| && g'.fetched == []
    && m in g'.pending && g'.pending[m] == 1
    && g'.dedup == g.dedup + {e.eventId} && g'.log == g.log + [Called(e.eventId)]
    && g'.acked == g.acked && g'.handled == g.handled && g'.buried == g.buried && g'.dlq == g.dlq && g'.redriving == g.redriving
    && |g'.d.workers| == |g.d.workers| && |g'.d.queues| == |g.d.queues|
    && v < |g'.d.queues| && g'.d.queues[v] == [] && |g'.phase| == |g.phase|
    && (forall w :: 0 <= w < |g.phase| && w != v ==> g'.phase[w] == g.phase[w])
    && (forall w :: 0 <= w < |g.d.workers| && w != v ==> g'.d.workers[w] == g.d.workers[w])
    && (forall w :: 0 <= w < |g.d.queues| && w != v ==> g'.d.queues[w] == g.d.queues[w])
  }

  lemma AskNew(cfg: RedisConfig, g: Group, v: nat)
    requires GroupShape(cfg, g) && v < cfg.pool.n && InPhase(g, v, Asking) && Job(g, v).event.eventId !in g.dedup
    ensures RedisEnabled(cfg, g, Ask(v))
    ensures var g', id := RedisNext(cfg, g, Ask(v)), Job(g, v).event.eventId;
            g' == g.(phase := g.phase[v := Handling], dedup := g.dedup + {id}, log := g.log + [Called(id)])
  {
  }

  /** A second copy, on another worker, is acknowledged as a duplicate. */
  lemma AckedAside(cfg: RedisConfig, universe: iset<DomainEvent>, start: Group, steps: seq<RedisStep>, g: Group, b: DomainEvent)
    returns (longer: seq<RedisStep>, g': Group)
    requires GroupShape(cfg, start) && Leads(cfg, universe, start, steps, NoOrphans, g) && b in universe
    requires b.eventId in g.dedup && b.eventId !in g.handled && |g.stream| !in g.buried
    requires g.d.workers[WorkerFor(cfg.pool, RoutingKey(b))].Idle?
    ensures var w, m := WorkerFor(cfg.pool, RoutingKey(b)), |g.stream|;
            && Leads(cfg, universe, start, longer, NoOrphans, g')
            && g'.stream == g.stream + [Envelope(b)] && g'.cursor == |g'.stream| && g'.fetched == [] && Free(g', w)
            && g'.acked == g.acked + {m} && m !in g'.pending && !DealtWith(g', m)
            && g'.dedup == g.dedup && g'.handled == g.handled && g'.buried == g.buried && g'.redriving == g.redriving
            && (forall k :: k < g.cursor && k in g.pending && k != m ==> k in g'.pending && g'.pending[k] == g.pending[k])
            && (forall u :: 0 <= u < |g.d.workers| && u != w ==> g'.d.workers[u] == g.d.workers[u])
            && (forall u :: 0 <= u < |g.d.queues| && u != w ==> g'.d.queues[u] == g.d.queues[u])
            && (forall u :: 0 <= u < |g.phase| && u != w ==> g'.phase[u] == g.phase[u])
  {
    hide Run, RedisExec, HasRoom, RedisEnabled, RedisNext;
    var w, m := WorkerFor(cfg.pool, RoutingKey(b)), |g.stream|;
    var more, h := DeliverTo(cfg, universe, g, b, NoOrphans);
    LastLeg(cfg, h, w, m, b);
    more, g' := HarmlessStep(cfg, universe, g, more, NoOrphans, h, Ask(w));
    more, g' := HarmlessStep(cfg, universe, g, more, NoOrphans, g', Ack(w));
    Onwards(cfg, universe, start, steps, NoOrphans, g, more, g');
    longer := steps + more;
  }

  /** The window is not hypothetical: each event can be brought to where a crash loses
      it. */
  lemma WindowIsReachable(cfg: RedisConfig, universe: iset<DomainEvent>, e: DomainEvent)
    returns (steps: seq<RedisStep>, g: Group)
    requires Sane(cfg) && e in universe
    ensures Leads(cfg, universe, NewGroup(cfg), steps, NoOrphans, g)
    ensures !Gentle(g, Crash) && !Gentle(g, Abort(WorkerFor(cfg.pool, RoutingKey(e))))
  {
    hide Run, RedisExec;
    steps, g := HandleNew(cfg, universe, NewGroup(cfg), e, NoOrphans);
    assert Orphans(g, WorkerFor(cfg.pool, RoutingKey(e)));
  }

  // ---------------------------------------------------------------- a racing redrive

  /** No continuation without races repeats a handler. */
  ghost predicate StaysOnce(cfg: RedisConfig, universe: iset<DomainEvent>, g: Group)
    requires GroupShape(cfg, g)
  {
    forall more :: Run(cfg, universe, g, more, NoRaces) ==> HandledOnce(RedisExec(cfg, g, more).value.log)
  }

  /** In whatever state a run without races has reached: a redrive is harmless if and
      only if it does not race. */
  lemma RacesExactly(cfg: RedisConfig, universe: iset<DomainEvent>, steps: seq<RedisStep>, i: nat)
    requires Sane(cfg) && Run(cfg, universe, NewGroup(cfg), steps, NoRaces)
    requires i < |RedisExec(cfg, NewGroup(cfg), steps).value.dlq|
    ensures var g := RedisExec(cfg, NewGroup(cfg), steps).value;
            && RedisEnabled(cfg, g, RedriveClear(i))
            && (StaysOnce(cfg, universe, RedisNext(cfg, g, RedriveClear(i))) <==> !Races(cfg, universe, g, RedriveClear(i)))
  {
    hide Run, RedisExec, OnceInv, Basic, RedisNext;
    var g := RedisExec(cfg, NewGroup(cfg), steps).value;
    NewGroupOnce(cfg, universe);
    UnracedRunsHandleOnce(cfg, universe, NewGroup(cfg), steps);
    if Races(cfg, universe, g, RedriveClear(i)) {
      var w :| RacesWith(cfg, universe, g, i, w);
      if InPhase(g, w, Handling) {
        RaceWithRunning(cfg, universe, g, i, w);
      } else {
        RaceWithFailed(cfg, universe, g, i, w);
      }
    } else {
      OnceStep(cfg, universe, g, RedriveClear(i));
      BasicStep(cfg, universe, g, RedriveClear(i));
      forall more | Run(cfg, universe, RedisNext(cfg, g, RedriveClear(i)), more, NoRaces)
        ensures HandledOnce(RedisExec(cfg, RedisNext(cfg, g, RedriveClear(i)), more).value.log)
      {
        UnracedRunsHandleOnce(cfg, universe, RedisNext(cfg, g, RedriveClear(i)), more);
        OnceInvMeans(cfg, universe, RedisExec(cfg, RedisNext(cfg, g, RedriveClear(i)), more).value);
      }
    }
  }

  lemma OnceInvMeans(cfg: RedisConfig, universe: iset<DomainEvent>, g: Group)
    requires GroupShape(cfg, g) && OnceInv(cfg, universe, g)
    ensures HandledOnce(g.log)
  {
  }

  lemma UnracedStep(cfg: RedisConfig, universe: iset<DomainEvent>, g: Group, steps: seq<RedisStep>, h: Group, step: RedisStep)
    returns (longer: seq<RedisStep>, h': Group)
    requires GroupShape(cfg, g) && Leads(cfg, universe, g, steps, NoRaces, h)
    requires RedisEnabled(cfg, h, step) && Stocked(universe, step) && !step.RedriveClear?
    ensures Leads(cfg, universe, g, longer, NoRaces, h') && h' == RedisNext(cfg, h, step)
  {
    hide RedisEnabled, RedisNext, Stocked, Run;
    OneMore(cfg, universe, g, steps, NoRaces, h, step);
    longer, h' := steps + [step], RedisNext(cfg, h, step);
  }

  /** A worker is cut short, and what waits for it too. */
  lemma MakeFree(cfg: RedisConfig, universe: iset<DomainEvent>, g: Group, v: nat)
    returns (steps: seq<RedisStep>, g': Group)
    requires GroupShape(cfg, g) && v < cfg.pool.n && !g.d.workers[v].Gone?
    ensures Leads(cfg, universe, g, steps, NoRaces, g') && Free(g', v) && Aside(g, g', v)
    ensures g'.stream == g.stream && g'.cursor == g.cursor
  {
    hide Run, RedisExec, HasRoom;
    NoSteps(cfg, universe, g, NoRaces);
    steps, g' := [], g;
    if g.d.workers[v].Busy? {
      steps, g' := UnracedStep(cfg, universe, g, steps, g', Abort(v));
    }
    var more, end := DrainQueue(cfg, universe, g', v, NoRaces);
    Onwards(cfg, universe, g, steps, NoRaces, g', more, end);
    steps, g' := steps + more, end;
  }

  /** A settled id without its key is handled again at the next delivery. */
  lemma LastRepeats(cfg: RedisConfig, universe: iset<DomainEvent>, g: Group, e: DomainEvent)
    returns (steps: seq<RedisStep>, g': Group)
    requires GroupShape(cfg, g) && g.cursor < |g.stream| && g.stream[|g.stream| - 1] == Envelope(e)
    requires Settled(g.log, e.eventId) && e.eventId !in g.dedup && !g.d.workers[WorkerFor(cfg.pool, RoutingKey(e))].Gone?
    ensures Leads(cfg, universe, g, steps, NoRaces, g') && !HandledOnce(g'.log)
  {
    hide Run, RedisExec, HasRoom, RedisEnabled, RedisNext, Settled, HandledOnce;
    var v := WorkerFor(cfg.pool, RoutingKey(e));
    var h, more;
    steps, h := MakeFree(cfg, universe, g, v);
    more, g' := DeliverLast(cfg, universe, h, e, NoRaces);
    Onwards(cfg, universe, g, steps, NoRaces, h, more, g');
    CallAfterRace(cfg, g', v);
    steps, g' := UnracedStep(cfg, universe, g, steps + more, g', Ask(v));
  }

  /** A call for an id that is settled but has no key breaks the promise. */
  lemma CallAfterRace(cfg: RedisConfig, g: Group, v: nat)
    requires GroupShape(cfg, g) && v < cfg.pool.n && InPhase(g, v, Asking)
    requires var id := Job(g, v).event.eventId; Settled(g.log, id) && id !in g.dedup
    ensures RedisEnabled(cfg, g, Ask(v)) && !HandledOnce(RedisNext(cfg, g, Ask(v)).log)
  {
    hide HasRoom;
    var id := Job(g, v).event.eventId;
    var i :| 0 <= i < |g.log| && g.log[i] == Succeeded(id) && forall j :: i < j < |g.log| ==> g.log[j] != Redriven(id);
    var log := RedisNext(cfg, g, Ask(v)).log;
    assert log == g.log + [Called(id)];
    assert log[i] == Succeeded(id) && log[|g.log|] == Called(id);
    assert forall k :: i < k < |g.log| ==> log[k] == g.log[k];
  }

  lemma SucceedSettles(cfg: RedisConfig, g: Group, w: nat)
    requires GroupShape(cfg, g) && w < cfg.pool.n && InPhase(g, w, Handling)
    ensures RedisEnabled(cfg, g, Succeed(w))
    ensures var id, g' := Job(g, w).event.eventId, RedisNext(cfg, g, Succeed(w));
            && g' == g.(phase := g'.phase, handled := g'.handled, log := g.log + [Succeeded(id)])
            && Settled(g'.log, id)
  {
    hide Settled;
    SettledAppend(g.log, Succeeded(Job(g, w).event.eventId), Job(g, w).event.eventId);
  }

  lemma ClearedByRedrive(cfg: RedisConfig, universe: iset<DomainEvent>, g: Group, i: nat)
    requires GroupShape(cfg, g) && Basic(cfg, universe, g) && i < |g.dlq|
    ensures RedisEnabled(cfg, g, RedriveClear(i)) && g.dlq[i].event in universe
    ensures var e, g' := g.dlq[i].event, RedisNext(cfg, g, RedriveClear(i));
            g' == g.(dedup := g.dedup - {e.eventId}, log := g.log + [Redriven(e.eventId)],
                     redriving := g.redriving + [Redriving(g.dlq[i], false)])
    ensures forall w :: 0 <= w < cfg.pool.n ==> !g.d.workers[w].Gone?
  {
  }

  /** The redrive clears the key of a running handler: its success goes unrecorded, and
      the very copy that the redrive publishes is handled once more. */
  lemma RaceWithRunning(cfg: RedisConfig, universe: iset<DomainEvent>, g: Group, i: nat, w: nat)
    requires GroupShape(cfg, g) && Basic(cfg, universe, g) && i < |g.dlq|
    requires w < cfg.pool.n && InPhase(g, w, Handling) && Job(g, w).event.eventId == g.dlq[i].event.eventId
    ensures RedisEnabled(cfg, g, RedriveClear(i)) && !StaysOnce(cfg, universe, RedisNext(cfg, g, RedriveClear(i)))
  {
    hide Run, RedisExec, HasRoom, Routed, GoodEvents, Settled, HandledOnce;
    var e := g.dlq[i].event;
    var g1 := RedisNext(cfg, g, RedriveClear(i));
    NoSteps(cfg, universe, g1, NoRaces);
    SucceedSettles(cfg, g1, w);
    var steps, h := UnracedStep(cfg, universe, g1, [], g1, Succeed(w));
    steps, h := UnracedStep(cfg, universe, g1, steps, h, RedrivePublish(|g.redriving|));
    var more, end := LastRepeats(cfg, universe, h, e);
    Onwards(cfg, universe, g1, steps, NoRaces, h, more, end);
  }

  /** The redrive clears the key of a handler that has failed; another worker sets it
      and starts; and the failed one deletes it as its own. */
  lemma RaceWithFailed(cfg: RedisConfig, universe: iset<DomainEvent>, g: Group, i: nat, w: nat)
    requires GroupShape(cfg, g) && Basic(cfg, universe, g) && i < |g.dlq|
    requires RacesWith(cfg, universe, g, i, w) && InPhase(g, w, Clearing)
    ensures RedisEnabled(cfg, g, RedriveClear(i)) && !StaysOnce(cfg, universe, RedisNext(cfg, g, RedriveClear(i)))
  {
    hide Run, RedisExec, RedisNext, RedisEnabled, Basic, Settled, HandledOnce, StaysOnce;
    var id := Job(g, w).event.eventId;
    var e :| e in universe && e.eventId == id && WorkerFor(cfg.pool, RoutingKey(e)) != w;
    var v := WorkerFor(cfg.pool, RoutingKey(e));
    ClearedByRedrive(cfg, universe, g, i);
    var g1 := RedisNext(cfg, g, RedriveClear(i));
    var steps, h := MakeFree(cfg, universe, g1, v);
    var more, h2 := HandleNew(cfg, universe, h, e, NoRaces);
    Onwards(cfg, universe, g1, steps, NoRaces, h, more, h2);
    StolenKey(cfg, universe, g1, steps + more, h2, e, w);
  }

  lemma StolenKey(cfg: RedisConfig, universe: iset<DomainEvent>, g: Group, steps: seq<RedisStep>, h: Group, e: DomainEvent, w: nat)
    requires GroupShape(cfg, g) && Leads(cfg, universe, g, steps, NoRaces, h) && e in universe
    requires w < cfg.pool.n && InPhase(h, w, Clearing) && Job(h, w).event.eventId == e.eventId
    requires var v := WorkerFor(cfg.pool, RoutingKey(e)); v != w && InPhase(h, v, Handling) && Job(h, v).event == e
    ensures !StaysOnce(cfg, universe, g)
  {
    hide Run, RedisExec, HasRoom, Settled, HandledOnce;
    var v := WorkerFor(cfg.pool, RoutingKey(e));
    var longer, h1 := UnracedStep(cfg, universe, g, steps, h, Clear(w));
    SucceedSettles(cfg, h1, v);
    longer, h1 := UnracedStep(cfg, universe, g, longer, h1, Succeed(v));
    longer, h1 := UnracedStep(cfg, universe, g, longer, h1, Publish(Envelope(e)));
    var more, end := LastRepeats(cfg, universe, h1, e);
    Onwards(cfg, universe, g, longer, NoRaces, h1, more, end);
  }

  /** Each event can be brought to where a redrive of it races: one copy fails to the
      end, and another is in its handler. */
  lemma RaceIsReachable(cfg: RedisConfig, universe: iset<DomainEvent>, e: DomainEvent)
    returns (steps: seq<RedisStep>, g: Group)
    requires Sane(cfg) && e in universe
    ensures Leads(cfg, universe, NewGroup(cfg), steps, NoRaces, g)
    ensures |g.dlq| == 1 && g.dlq[0].event == e && Races(cfg, universe, g, RedriveClear(0))
  {
    hide Run, RedisExec, HasRoom, RedisNext, RedisEnabled;
    var v := WorkerFor(cfg.pool, RoutingKey(e));
    var g1, g2, more, count;
    steps, g1 := HandleNew(cfg, universe, NewGroup(cfg), e, NoRaces);
    more, g2, count := FailToTheEnd(cfg, universe, g1, v, NoRaces);
    Onwards(cfg, universe, NewGroup(cfg), steps, NoRaces, g1, more, g2);
    steps := steps + more;
    more, g := HandleNew(cfg, universe, g2, e, NoRaces);
    Onwards(cfg, universe, NewGroup(cfg), steps, NoRaces, g2, more, g);
    steps := steps + more;
    assert RacesWith(cfg, universe, g, 0, v);
  }
}
