/** The in-memory bus, event by event: every copy of an event is accounted for, the dead
    letters are those that failed for good and were not redriven, and the events of one
    partition key are handled one at a time, in the order in which they came. */
module BusLedger {
  import opened Basics
  import opened Partitioning
  import opened Events
  import opened InMemoryBus

  // ---------------------------------------------------------------- copies of one event

  function Is(e: DomainEvent): Copy -> int { (c: Copy) => if c.event == e then 1 else 0 }

  function ItemIs(e: DomainEvent): Item<Copy> -> int { (item: Item<Copy>) => Is(e)(item.work) }

  function QueueHas(e: DomainEvent): seq<Item<Copy>> -> int { (q: seq<Item<Copy>>) => SumOf(q, ItemIs(e)) }

  function WorkerHas(e: DomainEvent): Worker<Copy> -> int {
    (w: Worker<Copy>) => if w.Busy? then Is(e)(w.item.work) else 0
  }

  function LetterIs(e: DomainEvent): DeadLetter -> int { (letter: DeadLetter) => if letter.event == e then 1 else 0 }

  function PoolHas(d: Dispatch<Copy>, e: DomainEvent): int {
    SumOf(d.queues, QueueHas(e)) + SumOf(d.workers, WorkerHas(e))
  }

  /** The copies of the event that are waiting, queued or with a worker. */
  function InLane(l: Lane, e: DomainEvent): int { SumOf(l.entering, Is(e)) + PoolHas(l.h.d, e) }

  /** The letters of the event in the list. */
  function LettersOf(l: Lane, e: DomainEvent): int { SumOf(l.dead, LetterIs(e)) }

  // ---------------------------------------------------------------- what a step does to an event

  function One(b: bool): int { if b then 1 else 0 }

  /** The event worker w is at. */
  function EventAt(l: Lane, w: nat): Option<DomainEvent> {
    if w < |l.h.d.workers| && l.h.d.workers[w].Busy? then Some(l.h.d.workers[w].item.work.event) else None
  }

  /** The event of the oldest letter with this id. */
  function LetterFor(dead: seq<DeadLetter>, id: string): Option<DomainEvent> {
    if dead == [] then None
    else if dead[0].event.eventId == id then Some(dead[0].event)
    else LetterFor(dead[1..], id)
  }

  /** A copy of e is published, or taken from the dead letters. */
  function Published(step: BusStep, e: DomainEvent): int { One(step == Offer(e)) }

  function Redriven(l: Lane, step: BusStep, e: DomainEvent): int {
    One(step.Redrive? && LetterFor(l.dead, step.id) == Some(e))
  }

  /** A copy of e is handled, skipped as a duplicate, or fails for good. */
  function Handled(l: Lane, step: BusStep, e: DomainEvent): int {
    One(step.Succeed? && EventAt(l, step.worker) == Some(e))
  }

  function Skipped(l: Lane, step: BusStep, e: DomainEvent): int {
    One(step.Begin? && step.worker < |l.h.d.queues| && l.h.d.queues[step.worker] != []
        && l.h.d.queues[step.worker][0].work.event == e && e.eventId in l.processed)
  }

  function Failed(cfg: BusConfig, l: Lane, step: BusStep, e: DomainEvent): int {
    One(step.Fail? && EventAt(l, step.worker) == Some(e) && l.h.d.workers[step.worker].item.work.attempt >= cfg.maxAttempts)
  }

  /** How often it happens in a run. */
  datatype Ledger = Ledger(published: int, redriven: int, handled: int, skipped: int, failed: int)

  ghost function LedgerOf(cfg: BusConfig, l: Lane, steps: seq<BusStep>, e: DomainEvent): Ledger
    requires LaneShape(cfg, l) && Exec(cfg, l, steps).Some?
    decreases |steps|
  {
    if steps == [] then Ledger(0, 0, 0, 0, 0)
    else
      var step, rest := steps[0], LedgerOf(cfg, BusNext(cfg, l, steps[0]), steps[1..], e);
      Ledger(rest.published + Published(step, e), rest.redriven + Redriven(l, step, e), rest.handled + Handled(l, step, e),
             rest.skipped + Skipped(l, step, e), rest.failed + Failed(cfg, l, step, e))
  }

  // ---------------------------------------------------------------- steps

  lemma SumOfSnoc<T>(s: seq<T>, x: T, f: T -> int)
    ensures SumOf(s + [x], f) == SumOf(s, f) + f(x)
  {
    SumOfAppend(s, [x], f);
    assert SumOf([x], f) == f(x) + SumOf([], f);
  }

  lemma PutHas(pool: Config, d: Dispatch<Copy>, c: Copy, e: DomainEvent)
    requires Shape(pool, d) && HasRoom(pool, d, RoutingKey(c.event))
    ensures PoolHas(NextDispatch(pool, d, Put(ItemFor(c))), e) == PoolHas(d, e) + Is(e)(c)
  {
    var w := WorkerFor(pool, RoutingKey(c.event));
    SumOfUpdate(d.queues, w, d.queues[w] + [ItemFor(c)], QueueHas(e));
    SumOfSnoc(d.queues[w], ItemFor(c), ItemIs(e));
  }

  lemma TakeHas(pool: Config, d: Dispatch<Copy>, w: nat, e: DomainEvent)
    requires Shape(pool, d) && Enabled(pool, d, Take(w))
    ensures PoolHas(NextDispatch(pool, d, Take(w)), e) == PoolHas(d, e)
  {
    var q := d.queues[w];
    SumOfUpdate(d.queues, w, q[1..], QueueHas(e));
    SumOfUpdate(d.workers, w, Busy(q[0]), WorkerHas(e));
    assert SumOf(q, ItemIs(e)) == ItemIs(e)(q[0]) + SumOf(q[1..], ItemIs(e));
  }

  lemma ReturnHas(pool: Config, d: Dispatch<Copy>, w: nat, e: DomainEvent)
    requires Shape(pool, d) && Enabled(pool, d, Return(w))
    ensures PoolHas(NextDispatch(pool, d, Return(w)), e) == PoolHas(d, e) - Is(e)(d.workers[w].item.work)
  {
    SumOfUpdate(d.workers, w, Idle, WorkerHas(e));
  }

  lemma {:induction false} LetterForIs(dead: seq<DeadLetter>, id: string)
    requires HasLetter(dead, id)
    ensures LetterFor(dead, id) == Some(dead[LetterIndex(dead, id)].event)
  {
    if dead[0].event.eventId != id {
      assert dead == [dead[0]] + dead[1..];
      LetterForIs(dead[1..], id);
    }
  }

  /** What one step does to the copies of e, and to its letters. */
  ghost predicate Accounted(cfg: BusConfig, l: Lane, step: BusStep, e: DomainEvent)
    requires LaneShape(cfg, l) && BusEnabled(cfg, l, step)
  {
    var l' := BusNext(cfg, l, step);
    && InLane(l', e) == InLane(l, e) + Published(step, e) + Redriven(l, step, e)
                        - Handled(l, step, e) - Skipped(l, step, e) - Failed(cfg, l, step, e)
    && LettersOf(l', e) == LettersOf(l, e) + Failed(cfg, l, step, e) - Redriven(l, step, e)
  }

  lemma NewAccounted(cfg: BusConfig, l: Lane, step: BusStep, e: DomainEvent)
    requires LaneShape(cfg, l) && BusEnabled(cfg, l, step) && (step.Offer? || step.Redrive?)
    ensures Accounted(cfg, l, step, e)
  {
    hide HasRoom;
    if step.Offer? {
      SumOfSnoc(l.entering, Copy(step.event, 1, l.offered), Is(e));
    } else {
      var i := LetterIndex(l.dead, step.id);
      LetterForIs(l.dead, step.id);
      SumOfSnoc(l.entering, Copy(l.dead[i].event, 1, l.offered), Is(e));
      SumOfRemove(l.dead, i, LetterIs(e));
    }
  }

  lemma EnterAccounted(cfg: BusConfig, l: Lane, i: nat, e: DomainEvent)
    requires LaneShape(cfg, l) && BusEnabled(cfg, l, Enter(i))
    ensures Accounted(cfg, l, Enter(i), e)
  {
    hide HasRoom, PoolHas;
    SumOfRemove(l.entering, i, Is(e));
    PutHas(cfg.pool, l.h.d, l.entering[i], e);
  }

  lemma BeginAccounted(cfg: BusConfig, l: Lane, w: nat, e: DomainEvent)
    requires LaneShape(cfg, l) && BusEnabled(cfg, l, Begin(w))
    ensures Accounted(cfg, l, Begin(w), e)
  {
    hide HasRoom, PoolHas;
    TakeHas(cfg.pool, l.h.d, w, e);
    ReturnHas(cfg.pool, NextDispatch(cfg.pool, l.h.d, Take(w)), w, e);
  }

  lemma EndAccounted(cfg: BusConfig, l: Lane, step: BusStep, e: DomainEvent)
    requires LaneShape(cfg, l) && BusEnabled(cfg, l, step) && (step.Succeed? || step.Fail?)
    ensures Accounted(cfg, l, step, e)
  {
    hide HasRoom, PoolHas;
    var c := l.h.d.workers[step.worker].item.work;
    ReturnHas(cfg.pool, l.h.d, step.worker, e);
    SumOfSnoc(l.dead, DeadLetter(c.event, c.attempt), LetterIs(e));
    SameHas(l.h.d, NextDispatch(cfg.pool, l.h.d, Announce(true)), e);
  }

  lemma SameHas(d: Dispatch<Copy>, d': Dispatch<Copy>, e: DomainEvent)
    requires d'.queues == d.queues && d'.workers == d.workers
    ensures PoolHas(d', e) == PoolHas(d, e)
  {
  }

  lemma RequeueAccounted(cfg: BusConfig, l: Lane, w: nat, e: DomainEvent)
    requires LaneShape(cfg, l) && BusEnabled(cfg, l, Requeue(w))
    ensures Accounted(cfg, l, Requeue(w), e)
  {
    hide HasRoom, PoolHas;
    var c := l.h.d.workers[w].item.work;
    var next := c.(attempt := c.attempt + 1);
    PutHas(cfg.pool, l.h.d, next, e);
    ReturnHas(cfg.pool, NextDispatch(cfg.pool, l.h.d, Put(ItemFor(next))), w, e);
  }

  lemma StepAccounted(cfg: BusConfig, l: Lane, step: BusStep, e: DomainEvent)
    requires LaneShape(cfg, l) && BusEnabled(cfg, l, step)
    ensures Accounted(cfg, l, step, e)
  {
    hide BusNext, BusEnabled, Accounted;
    match step
    case Enter(i) => EnterAccounted(cfg, l, i, e);
    case Begin(w) => BeginAccounted(cfg, l, w, e);
    case Requeue(w) => RequeueAccounted(cfg, l, w, e);
    case Offer(_) => NewAccounted(cfg, l, step, e);
    case Redrive(_) => NewAccounted(cfg, l, step, e);
    case _ => EndAccounted(cfg, l, step, e);
  }

  // ---------------------------------------------------------------- whole runs

  lemma {:induction false} RunAccounted(cfg: BusConfig, l: Lane, steps: seq<BusStep>, e: DomainEvent)
    requires LaneShape(cfg, l) && Exec(cfg, l, steps).Some?
    ensures var l', b := Exec(cfg, l, steps).value, LedgerOf(cfg, l, steps, e);
            && InLane(l, e) + b.published + b.redriven == InLane(l', e) + b.handled + b.skipped + b.failed
            && LettersOf(l, e) + b.failed == LettersOf(l', e) + b.redriven
    decreases |steps|
  {
    hide BusNext, BusEnabled, InLane, LettersOf, Published, Redriven, Handled, Skipped, Failed;
    if steps != [] {
      StepAccounted(cfg, l, steps[0], e);
      RunAccounted(cfg, BusNext(cfg, l, steps[0]), steps[1..], e);
    }
  }

  /** No event is lost, made up or exchanged for another: for each event, every copy
      published or redriven is still in the lane, was handled, skipped as a duplicate, or
      failed for good; and its letters in the list are its failures for good less its
      redrives. */
  lemma EveryEventIsAccountedFor(cfg: BusConfig, steps: seq<BusStep>, e: DomainEvent)
    requires Sane(cfg) && Exec(cfg, NewLane(cfg), steps).Some?
    ensures var l, b := Exec(cfg, NewLane(cfg), steps).value, LedgerOf(cfg, NewLane(cfg), steps, e);
            && b.published + b.redriven == InLane(l, e) + b.handled + b.skipped + b.failed
            && LettersOf(l, e) == b.failed - b.redriven
  {
    hide Exec, LedgerOf;
    var start := NewLane(cfg);
    RunAccounted(cfg, start, steps, e);
    SumOfZero(start.h.d.workers, WorkerHas(e));
    SumOfZero(start.h.d.queues, QueueHas(e));
  }
}
