/** Runs of the Redis bus under a rule that forbids certain steps, and the runs that
    bring one more delivery to its worker whatever else is going on. */
module RedisRuns {
  import opened Basics
  import opened Partitioning
  import opened Events
  import opened RedisBus

  ghost predicate Stocked(universe: iset<DomainEvent>, step: RedisStep) {
    step.Publish? && step.entry.Envelope? ==> step.entry.event in universe
  }

  /** A delivery cut short here leaves a dedup key that stands for nothing. */
  predicate Orphans(g: Group, w: nat) {
    Exposed(g, w) && Job(g, w).event.eventId in g.dedup && Job(g, w).event.eventId !in g.handled
  }

  /** Nothing is cut short that would leave such a key. */
  ghost predicate Gentle(g: Group, step: RedisStep) {
    match step
    case Abort(w) => !Orphans(g, w)
    case Crash => forall w :: 0 <= w < |g.d.workers| ==> !Orphans(g, w)
    case _ => true
  }

  /** Every event of the id is routed to worker w. */
  ghost predicate SoleWorker(cfg: RedisConfig, universe: iset<DomainEvent>, id: string, w: nat)
    requires Sane(cfg)
  {
    forall e :: e in universe && e.eventId == id ==> WorkerFor(cfg.pool, RoutingKey(e)) == w
  }

  ghost predicate RacesWith(cfg: RedisConfig, universe: iset<DomainEvent>, g: Group, i: nat, w: nat)
    requires Sane(cfg) && i < |g.dlq|
  {
    && w < cfg.pool.n && Exposed(g, w) && Job(g, w).event.eventId == g.dlq[i].event.eventId
    && (InPhase(g, w, Handling) || !SoleWorker(cfg, universe, Job(g, w).event.eventId, w))
  }

  /** A redrive clears the dedup key of a handler still running, or of one that has
      failed and is about to clear the key itself while another worker may set it. */
  ghost predicate Races(cfg: RedisConfig, universe: iset<DomainEvent>, g: Group, step: RedisStep)
    requires Sane(cfg)
  {
    step.RedriveClear? && step.i < |g.dlq| && exists w :: RacesWith(cfg, universe, g, step.i, w)
  }

  datatype Rule = NoOrphans | NoRaces

  ghost predicate Allowed(cfg: RedisConfig, universe: iset<DomainEvent>, rule: Rule, g: Group, step: RedisStep)
    requires Sane(cfg)
  {
    match rule
    case NoOrphans => Gentle(g, step)
    case NoRaces => !Races(cfg, universe, g, step)
  }

  /** From g, every step is enabled where it is taken, publishes only these events, and
      is allowed. */
  ghost predicate Run(cfg: RedisConfig, universe: iset<DomainEvent>, g: Group, steps: seq<RedisStep>, rule: Rule)
    requires GroupShape(cfg, g)
    ensures Run(cfg, universe, g, steps, rule) ==> RedisExec(cfg, g, steps).Some?
    decreases |steps|
  {
    if steps == [] then true
    else
      var init, last := steps[..|steps| - 1], steps[|steps| - 1];
      && Run(cfg, universe, g, init, rule)
      && var h := RedisExec(cfg, g, init).value;
         RedisEnabled(cfg, h, last) && Stocked(universe, last) && Allowed(cfg, universe, rule, h, last)
  }

  /** A run leads from g to g'. */
  ghost predicate Leads(cfg: RedisConfig, universe: iset<DomainEvent>, g: Group, steps: seq<RedisStep>, rule: Rule, g': Group)
    requires GroupShape(cfg, g)
  {
    Run(cfg, universe, g, steps, rule) && RedisExec(cfg, g, steps) == Some(g') && GroupShape(cfg, g')
  }

  lemma NoSteps(cfg: RedisConfig, universe: iset<DomainEvent>, g: Group, rule: Rule)
    requires GroupShape(cfg, g)
    ensures Leads(cfg, universe, g, [], rule, g)
  {
  }

  lemma OneMore(cfg: RedisConfig, universe: iset<DomainEvent>, g: Group, steps: seq<RedisStep>, rule: Rule, h: Group, step: RedisStep)
    requires GroupShape(cfg, g) && Leads(cfg, universe, g, steps, rule, h)
    requires RedisEnabled(cfg, h, step) && Stocked(universe, step) && Allowed(cfg, universe, rule, h, step)
    ensures Leads(cfg, universe, g, steps + [step], rule, RedisNext(cfg, h, step))
  {
    hide RedisEnabled, RedisNext, Stocked, Allowed;
    RedisSnoc(cfg, g, steps, step);
    assert (steps + [step])[..|steps + [step]| - 1] == steps;
  }

  lemma {:induction false} Onwards(cfg: RedisConfig, universe: iset<DomainEvent>, g: Group, a: seq<RedisStep>, rule: Rule,
                                   h: Group, b: seq<RedisStep>, k: Group)
    requires GroupShape(cfg, g) && Leads(cfg, universe, g, a, rule, h) && Leads(cfg, universe, h, b, rule, k)
    ensures Leads(cfg, universe, g, a + b, rule, k)
    decreases |b|
  {
    hide RedisEnabled, RedisNext, Stocked, Allowed;
    if b == [] {
      assert a + b == a;
    } else {
      var init, last := b[..|b| - 1], b[|b| - 1];
      var before := RedisExec(cfg, h, init).value;
      Onwards(cfg, universe, g, a, rule, h, init, before);
      OneMore(cfg, universe, g, a + init, rule, before, last);
      assert a + b == (a + init) + [last];
    }
  }

  /** The last step of a run, and what it came after. */
  lemma LastStep(cfg: RedisConfig, universe: iset<DomainEvent>, g: Group, steps: seq<RedisStep>, rule: Rule)
    requires GroupShape(cfg, g) && Run(cfg, universe, g, steps, rule) && steps != []
    ensures var init, last := steps[..|steps| - 1], steps[|steps| - 1];
            && Run(cfg, universe, g, init, rule)
            && var h := RedisExec(cfg, g, init).value;
               && GroupShape(cfg, h) && RedisEnabled(cfg, h, last) && Stocked(universe, last)
               && Allowed(cfg, universe, rule, h, last) && RedisExec(cfg, g, steps) == Some(RedisNext(cfg, h, last))
  {
    hide RedisEnabled, RedisNext, Stocked, Allowed;
  }

  // ---------------------------------------------------------------- one more delivery

  /** Steps that no rule forbids. */
  predicate Harmless(g: Group, step: RedisStep) {
    match step
    case Abort(w) => !Exposed(g, w)
    case Crash => false
    case RedriveClear(_) => false
    case _ => true
  }

  lemma HarmlessStep(cfg: RedisConfig, universe: iset<DomainEvent>, g: Group, steps: seq<RedisStep>, rule: Rule, h: Group, step: RedisStep)
    returns (longer: seq<RedisStep>, h': Group)
    requires GroupShape(cfg, g) && Leads(cfg, universe, g, steps, rule, h)
    requires RedisEnabled(cfg, h, step) && Stocked(universe, step) && Harmless(h, step)
    ensures Leads(cfg, universe, g, longer, rule, h') && h' == RedisNext(cfg, h, step)
  {
    hide RedisEnabled, RedisNext, Stocked, Run;
    OneMore(cfg, universe, g, steps, rule, h, step);
    longer, h' := steps + [step], RedisNext(cfg, h, step);
  }

  /** Nothing has happened but at worker v and in what is read from the stream. */
  ghost predicate Aside(g: Group, g': Group, v: nat) {
    && g.stream <= g'.stream && g'.dedup == g.dedup && g'.dlq == g.dlq && g'.redriving == g.redriving && g'.log == g.log
    && g'.acked == g.acked && g'.handled == g.handled && g'.buried == g.buried && g'.republished == g.republished
    && |g'.d.workers| == |g.d.workers| && |g'.phase| == |g.phase|
    && g.cursor <= g'.cursor && |g'.d.queues| == |g.d.queues|
    && (forall m :: m < g.cursor ==> (m in g'.pending <==> m in g.pending))
    && (forall m :: m < g.cursor && m in g.pending ==> g'.pending[m] == g.pending[m])
    && (forall w :: 0 <= w < |g.d.workers| && w != v ==> g'.d.workers[w] == g.d.workers[w])
    && (forall w :: 0 <= w < |g.d.queues| && w != v ==> g'.d.queues[w] == g.d.queues[w])
    && (forall w :: 0 <= w < |g.phase| && w != v ==> g'.phase[w] == g.phase[w])
  }

  /** The worker is free and nothing waits for it. */
  predicate Free(g: Group, v: nat) {
    v < |g.d.workers| && v < |g.d.queues| && g.d.workers[v].Idle? && g.d.queues[v] == []
  }

  /** What waits for an idle worker is begun and cut short at once. */
  lemma {:induction false} DrainQueue(cfg: RedisConfig, universe: iset<DomainEvent>, g: Group, v: nat, rule: Rule)
    returns (steps: seq<RedisStep>, g': Group)
    requires GroupShape(cfg, g) && v < cfg.pool.n && g.d.workers[v].Idle?
    ensures Leads(cfg, universe, g, steps, rule, g') && Free(g', v) && Aside(g, g', v)
    ensures g'.stream == g.stream && g'.cursor == g.cursor
    decreases |g.d.queues[v]|
  {
    hide Run, RedisExec, HasRoom;
    NoSteps(cfg, universe, g, rule);
    steps, g' := [], g;
    if g.d.queues[v] != [] {
      steps, g' := HarmlessStep(cfg, universe, g, steps, rule, g', Begin(v));
      steps, g' := HarmlessStep(cfg, universe, g, steps, rule, g', Abort(v));
      var more, end := DrainQueue(cfg, universe, g', v, rule);
      Onwards(cfg, universe, g, steps, rule, g', more, end);
      steps, g' := steps + more, end;
    }
  }

  /** Everything but the last message is read and dropped. */
  lemma {:induction false} CatchUp(cfg: RedisConfig, universe: iset<DomainEvent>, g: Group, rule: Rule)
    returns (steps: seq<RedisStep>, g': Group)
    requires GroupShape(cfg, g) && g.cursor < |g.stream|
    ensures Leads(cfg, universe, g, steps, rule, g')
    ensures g' == g.(cursor := |g.stream| - 1, fetched := [], pending := g'.pending)
    ensures forall m :: m < g.cursor ==> (m in g'.pending <==> m in g.pending)
    ensures forall m :: m < g.cursor && m in g.pending ==> g'.pending[m] == g.pending[m]
    decreases |g.stream| - g.cursor
  {
    hide Run, RedisExec, HasRoom;
    NoSteps(cfg, universe, g, rule);
    if g.cursor == |g.stream| - 1 {
      steps, g' := HarmlessStep(cfg, universe, g, [], rule, g, DropFetched);
    } else {
      steps, g' := HarmlessStep(cfg, universe, g, [], rule, g, Read);
      var more, end := CatchUp(cfg, universe, g', rule);
      Onwards(cfg, universe, g, steps, rule, g', more, end);
      steps, g' := steps + more, end;
    }
  }

  /** The next message is read and queued. */
  lemma NextQueues(cfg: RedisConfig, g: Group, e: DomainEvent) returns (g1: Group, g2: Group)
    requires GroupShape(cfg, g) && g.fetched == [] && g.cursor < |g.stream| && g.stream[g.cursor] == Envelope(e)
    requires g.d.queues[WorkerFor(cfg.pool, RoutingKey(e))] == []
    ensures GroupShape(cfg, g1) && GroupShape(cfg, g2)
    ensures RedisEnabled(cfg, g, Read) && g1 == RedisNext(cfg, g, Read)
    ensures RedisEnabled(cfg, g1, Submit) && g2 == RedisNext(cfg, g1, Submit)
    ensures g2 == g.(cursor := g.cursor + 1, pending := g.pending[g.cursor := 1], d := g2.d)
    ensures g2.d.queues == g.d.queues[WorkerFor(cfg.pool, RoutingKey(e)) := [Item(RoutingKey(e), Delivery(g.cursor, e, 1))]]
    ensures g2.d.workers == g.d.workers
  {
    g1 := RedisNext(cfg, g, Read);
    g2 := RedisNext(cfg, g1, Submit);
    assert [] + [Item(RoutingKey(e), Delivery(g.cursor, e, 1))] == [Item(RoutingKey(e), Delivery(g.cursor, e, 1))];
  }

  /** The last message of the stream is brought to its worker, which was free. */
  lemma DeliverLast(cfg: RedisConfig, universe: iset<DomainEvent>, g: Group, e: DomainEvent, rule: Rule)
    returns (steps: seq<RedisStep>, g': Group)
    requires GroupShape(cfg, g) && g.cursor < |g.stream| && g.stream[|g.stream| - 1] == Envelope(e)
    requires Free(g, WorkerFor(cfg.pool, RoutingKey(e)))
    ensures var v := WorkerFor(cfg.pool, RoutingKey(e));
            && Leads(cfg, universe, g, steps, rule, g') && Aside(g, g', v) && g'.stream == g.stream && g'.fetched == []
            && InPhase(g', v, Asking) && Job(g', v) == Delivery(|g.stream| - 1, e, 1)
            && g'.d.queues[v] == [] && g'.cursor == |g.stream|
            && |g.stream| - 1 in g'.pending && g'.pending[|g.stream| - 1] == 1
  {
    hide Run, RedisExec, HasRoom, RedisEnabled;
    var v := WorkerFor(cfg.pool, RoutingKey(e));
    var h;
    steps, h := CatchUp(cfg, universe, g, rule);
    var g1, g2 := NextQueues(cfg, h, e);
    steps, g' := HarmlessStep(cfg, universe, g, steps, rule, h, Read);
    steps, g' := HarmlessStep(cfg, universe, g, steps, rule, g', Submit);
    assert RedisEnabled(cfg, g2, Begin(v)) by { BeginEnabled(cfg, g2, v); }
    steps, g' := HarmlessStep(cfg, universe, g, steps, rule, g', Begin(v));
  }

  lemma BeginEnabled(cfg: RedisConfig, g: Group, v: nat)
    requires GroupShape(cfg, g) && v < cfg.pool.n && g.d.workers[v].Idle? && g.d.queues[v] != []
    ensures RedisEnabled(cfg, g, Begin(v))
  {
  }

  lemma PublishEnabled(cfg: RedisConfig, g: Group, entry: Entry)
    requires GroupShape(cfg, g)
    ensures RedisEnabled(cfg, g, Publish(entry))
  {
  }

  /** One more copy of an event is published and brought to its worker. */
  lemma DeliverTo(cfg: RedisConfig, universe: iset<DomainEvent>, g: Group, e: DomainEvent, rule: Rule)
    returns (steps: seq<RedisStep>, g': Group)
    requires GroupShape(cfg, g) && e in universe && g.d.workers[WorkerFor(cfg.pool, RoutingKey(e))].Idle?
    ensures var v := WorkerFor(cfg.pool, RoutingKey(e));
            && Leads(cfg, universe, g, steps, rule, g') && Aside(g, g', v) && g'.stream == g.stream + [Envelope(e)]
            && InPhase(g', v, Asking) && Job(g', v) == Delivery(|g.stream|, e, 1)
            && g'.fetched == [] && g'.d.queues[v] == [] && g'.cursor == |g'.stream|
            && |g.stream| in g'.pending && g'.pending[|g.stream|] == 1
  {
    hide Run, RedisExec, HasRoom, RedisEnabled;
    var h;
    steps, h := DrainQueue(cfg, universe, g, WorkerFor(cfg.pool, RoutingKey(e)), rule);
    assert RedisEnabled(cfg, h, Publish(Envelope(e))) by { PublishEnabled(cfg, h, Envelope(e)); }
    var longer, h' := HarmlessStep(cfg, universe, g, steps, rule, h, Publish(Envelope(e)));
    var more, end := DeliverLast(cfg, universe, h', e, rule);
    Onwards(cfg, universe, g, longer, rule, h', more, end);
    steps, g' := longer + more, end;
  }
}
