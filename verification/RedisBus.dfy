/** One consumer group of the Redis Streams event bus: the stream with the group's
    cursor and pending list, the dedup keys and the dead letter stream, all kept by
    Redis, and the process that reads, dispatches, handles and acknowledges.

    Every Redis command is one step, so anything may happen between two of them:
    other workers, redrives, publishes (including those made by the redrives of
    other consumers), a command that raises, or a crash of the whole process. */
module RedisBus {
  import opened Basics
  import opened Partitioning
  import opened Events

  datatype RedisConfig = RedisConfig(pool: Config, maxDeliveries: nat)

  predicate Sane(cfg: RedisConfig) { cfg.pool.n >= 1 && cfg.maxDeliveries >= 1 }

  /** A stream entry: an event, an entry without the envelope field, or one whose
      envelope does not decode. A message is named by its place in the stream. */
  datatype Entry = Envelope(event: DomainEvent) | NoEnvelope | Garbled

  datatype Delivery = Delivery(message: nat, event: DomainEvent, count: nat)

  /** Where a busy worker is in `_process`: about to SET the dedup key, about to
      acknowledge a duplicate, inside the handler, about to acknowledge a success,
      about to delete the dedup key after a failure, about to write to the DLQ,
      about to acknowledge after writing. */
  datatype Phase = Asking | AckDuplicate | Handling | AckDone | Clearing | Burying | AckDead

  datatype Letter = Letter(message: nat, event: DomainEvent, attempts: nat)

  datatype Redriving = Redriving(letter: Letter, published: bool)

  datatype Group = Group(
    // in Redis
    stream: seq<Entry>, cursor: nat, pending: map<nat, nat>, dedup: set<string>, dlq: seq<Letter>,
    // in the process
    fetched: seq<(nat, nat)>, d: Dispatch<Delivery>, phase: seq<Phase>, redriving: seq<Redriving>,
    // what has happened
    log: seq<Fact>, acked: set<nat>, handled: set<string>, buried: set<nat>, republished: set<nat>)

  datatype RedisStep =
    | Publish(entry: Entry)
    | Read                       // XREADGROUP hands out the next message
    | Reclaim(message: nat)      // XCLAIM of a pending message
    | Submit                     // the next fetched message goes to the dispatcher
    | DropFetched                // the consume loop failed before submitting the rest
    | Begin(worker: nat)
    | Ask(worker: nat)           // SET NX
    | Succeed(worker: nat)
    | Fail(worker: nat)
    | Clear(worker: nat)         // DEL of the dedup key
    | Bury(worker: nat)          // XADD to the DLQ
    | Ack(worker: nat)           // XACK
    | Abort(worker: nat)         // a Redis command raised or the work was cut short
    | Crash
    | RedriveClear(i: nat)       // redrive: DEL of the dedup key, for the letter at i
    | RedrivePublish(j: nat)
    | RedriveRemove(j: nat)      // redrive: XDEL of the letter

  function NewGroup(cfg: RedisConfig): Group {
    Group([], 0, map[], {}, [], [], Start<Delivery>(cfg.pool).d, seq(cfg.pool.n, _ => Asking), [], [], {}, {}, {}, {})
  }

  ghost predicate GroupShape(cfg: RedisConfig, g: Group) {
    && Sane(cfg) && Shape(cfg.pool, g.d) && |g.phase| == cfg.pool.n
    && g.cursor <= |g.stream|
    && (forall i :: 0 <= i < |g.fetched| ==> g.fetched[i].0 < g.cursor)
  }

  predicate InPhase(g: Group, w: nat, phase: Phase) {
    w < |g.d.workers| && w < |g.phase| && g.d.workers[w].Busy? && g.phase[w] == phase
  }

  function Job(g: Group, w: nat): Delivery
    requires w < |g.d.workers| && g.d.workers[w].Busy?
  {
    g.d.workers[w].item.work
  }

  /** The window in which the dedup key stands for nothing done yet. */
  predicate Exposed(g: Group, w: nat) {
    InPhase(g, w, Handling) || InPhase(g, w, Clearing)
  }

  ghost predicate RedisEnabled(cfg: RedisConfig, g: Group, step: RedisStep)
    requires GroupShape(cfg, g)
  {
    match step
    case Publish(_) => true
    case Read => g.cursor < |g.stream|
    case Reclaim(m) => m in g.pending && m < g.cursor
    case Submit =>
      && g.fetched != []
      && var entry := g.stream[g.fetched[0].0];
         entry.Envelope? ==> HasRoom(cfg.pool, g.d, RoutingKey(entry.event))
    case DropFetched => true
    case Begin(w) => Enabled(cfg.pool, g.d, Take(w))
    case Ask(w) => InPhase(g, w, Asking)
    case Succeed(w) => InPhase(g, w, Handling)
    case Fail(w) => InPhase(g, w, Handling)
    case Clear(w) => InPhase(g, w, Clearing)
    case Bury(w) => InPhase(g, w, Burying)
    case Ack(w) => InPhase(g, w, AckDuplicate) || InPhase(g, w, AckDone) || InPhase(g, w, AckDead)
    case Abort(w) => w < cfg.pool.n && g.d.workers[w].Busy?
    case Crash => true
    case RedriveClear(i) => i < |g.dlq|
    case RedrivePublish(j) => j < |g.redriving| && !g.redriving[j].published
    case RedriveRemove(j) => j < |g.redriving| && g.redriving[j].published
  }

  function Without(letters: seq<Letter>, letter: Letter): seq<Letter> {
    if letters == [] then []
    else (if letters[0] == letter then [] else [letters[0]]) + Without(letters[1..], letter)
  }

  ghost function RedisNext(cfg: RedisConfig, g: Group, step: RedisStep): (g': Group)
    requires GroupShape(cfg, g) && RedisEnabled(cfg, g, step)
    ensures GroupShape(cfg, g')
  {
    var pool := cfg.pool;
    match step
    case Publish(entry) => g.(stream := g.stream + [entry])
    case Read =>
      g.(cursor := g.cursor + 1, pending := g.pending[g.cursor := 1], fetched := g.fetched + [(g.cursor, 1)])
    case Reclaim(m) =>
      g.(pending := g.pending[m := g.pending[m] + 1], fetched := g.fetched + [(m, g.pending[m] + 1)])
    case Submit =>
      var (m, count) := g.fetched[0];
      (match g.stream[m]
       case NoEnvelope => g.(fetched := g.fetched[1..], pending := g.pending - {m}, acked := g.acked + {m})
       case Garbled => g.(fetched := [])
       case Envelope(e) =>
         var asked := NextDispatch(pool, g.d, Announce(count > 1));
         g.(fetched := g.fetched[1..],
            d := NextDispatch(pool, asked, Put(Item(RoutingKey(e), Delivery(m, e, count))))))
    case DropFetched => g.(fetched := [])
    case Begin(w) => g.(d := NextDispatch(pool, g.d, Take(w)), phase := g.phase[w := Asking])
    case Ask(w) =>
      var id := Job(g, w).event.eventId;
      if id in g.dedup then g.(phase := g.phase[w := AckDuplicate])
      else g.(phase := g.phase[w := Handling], dedup := g.dedup + {id}, log := g.log + [Called(id)])
    case Succeed(w) =>
      var id := Job(g, w).event.eventId;
      g.(phase := g.phase[w := AckDone], handled := g.handled + {id}, log := g.log + [Succeeded(id)])
    case Fail(w) => g.(phase := g.phase[w := Clearing])
    case Clear(w) =>
      var id := Job(g, w).event.eventId;
      if Job(g, w).count >= cfg.maxDeliveries
      then g.(dedup := g.dedup - {id}, phase := g.phase[w := Burying])
      else g.(dedup := g.dedup - {id}, d := NextDispatch(pool, g.d, Return(w)))
    case Bury(w) =>
      var job := Job(g, w);
      g.(phase := g.phase[w := AckDead], buried := g.buried + {job.message},
         dlq := g.dlq + [Letter(job.message, job.event, job.count)])
    case Ack(w) =>
      var m := Job(g, w).message;
      g.(pending := g.pending - {m}, acked := g.acked + {m}, d := NextDispatch(pool, g.d, Return(w)))
    case Abort(w) => g.(d := NextDispatch(pool, g.d, Raise(w)))
    case Crash => g.(fetched := [], redriving := [], d := Start<Delivery>(pool).d)
    case RedriveClear(i) =>
      var id := g.dlq[i].event.eventId;
      g.(dedup := g.dedup - {id}, log := g.log + [Redriven(id)], redriving := g.redriving + [Redriving(g.dlq[i], false)])
    case RedrivePublish(j) =>
      var letter := g.redriving[j].letter;
      g.(stream := g.stream + [Envelope(letter.event)], republished := g.republished + {letter.message},
         redriving := g.redriving[j := Redriving(letter, true)])
    case RedriveRemove(j) =>
      g.(dlq := Without(g.dlq, g.redriving[j].letter), redriving := g.redriving[..j] + g.redriving[j + 1..])
  }

  ghost function RedisExec(cfg: RedisConfig, g: Group, steps: seq<RedisStep>): (r: Option<Group>)
    requires GroupShape(cfg, g)
    ensures r.Some? ==> GroupShape(cfg, r.value)
    decreases |steps|
  {
    if steps == [] then Some(g)
    else
      var before := RedisExec(cfg, g, steps[..|steps| - 1]);
      var step := steps[|steps| - 1];
      if before.Some? && RedisEnabled(cfg, before.value, step) then Some(RedisNext(cfg, before.value, step)) else None
  }

  lemma RedisSnoc(cfg: RedisConfig, g: Group, steps: seq<RedisStep>, step: RedisStep)
    requires GroupShape(cfg, g) && RedisExec(cfg, g, steps).Some?
    requires RedisEnabled(cfg, RedisExec(cfg, g, steps).value, step)
    ensures RedisExec(cfg, g, steps + [step]) == Some(RedisNext(cfg, RedisExec(cfg, g, steps).value, step))
  {
    assert (steps + [step])[..|steps + [step]| - 1] == steps;
  }
}
