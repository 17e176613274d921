/** One consumer of the in-memory event bus: a partitioned dispatcher, the set of
    processed ids and the dead letters, with retries and redrive.

    A publisher, a redrive or a retrying worker waits inside `submit` until its
    queue has room, and a worker waits while its handler runs: every such wait is
    a point where any other step may come in between. */
module InMemoryBus {
  import opened Basics
  import opened Partitioning
  import opened Events

  datatype BusConfig = BusConfig(pool: Config, maxAttempts: nat)

  /** The constructor and ConsumerSpec reject anything below one. */
  predicate Sane(cfg: BusConfig) { cfg.pool.n >= 1 && cfg.maxAttempts >= 1 }

  /** `origin` numbers the publishes and redrives; retries keep it. */
  datatype Copy = Copy(event: DomainEvent, attempt: nat, origin: nat)

  datatype DeadLetter = DeadLetter(event: DomainEvent, attempts: nat)

  /** `entering` are the submissions waiting for room and `retrying` marks the
      workers whose failed item waits for room; the last seven fields only record
      what has happened, `calls` the handler calls for each origin. */
  datatype Lane = Lane(
    h: History<Copy>,
    entering: seq<Copy>,
    retrying: seq<bool>,
    processed: set<string>,
    dead: seq<DeadLetter>,
    log: seq<Fact>,
    offered: nat,
    succeeded: nat,
    skipped: nat,
    deadLettered: nat,
    retried: nat,
    calls: seq<nat>)

  datatype BusStep =
    | Offer(event: DomainEvent)         // publish reaches this consumer
    | Enter(i: nat)                     // a waiting submission enters its queue
    | Begin(worker: nat)                // the worker takes an item and checks the processed set
    | Succeed(worker: nat)              // the handler returns
    | Fail(worker: nat)                 // the handler raises
    | Requeue(worker: nat)              // the next attempt enters the queue
    | Redrive(id: string)

  predicate Internal(step: BusStep) { !step.Offer? && !step.Redrive? }

  function NewLane(cfg: BusConfig): Lane {
    Lane(Start(cfg.pool), [], seq(cfg.pool.n, _ => false), {}, [], [], 0, 0, 0, 0, 0, [])
  }

  ghost predicate LaneShape(cfg: BusConfig, l: Lane) {
    Sane(cfg) && Shape(cfg.pool, l.h.d) && |l.retrying| == cfg.pool.n
  }

  predicate InHandler(l: Lane, w: nat)
    requires w < |l.h.d.workers| && |l.retrying| == |l.h.d.workers|
  {
    l.h.d.workers[w].Busy? && !l.retrying[w]
  }

  predicate HasLetter(dead: seq<DeadLetter>, id: string) {
    exists i :: 0 <= i < |dead| && dead[i].event.eventId == id
  }

  /** The oldest letter of an event. */
  function LetterIndex(dead: seq<DeadLetter>, id: string): (i: nat)
    requires HasLetter(dead, id)
    ensures i < |dead| && dead[i].event.eventId == id
    ensures forall j :: 0 <= j < i ==> dead[j].event.eventId != id
  {
    if dead[0].event.eventId == id then 0
    else
      assert dead == [dead[0]] + dead[1..];
      1 + LetterIndex(dead[1..], id)
  }

  function ItemFor(c: Copy): Item<Copy> { Item(RoutingKey(c.event), c) }

  ghost predicate BusEnabled(cfg: BusConfig, l: Lane, step: BusStep)
    requires LaneShape(cfg, l)
  {
    match step
    case Offer(_) => true
    case Enter(i) => i < |l.entering| && HasRoom(cfg.pool, l.h.d, RoutingKey(l.entering[i].event))
    case Begin(w) => Enabled(cfg.pool, l.h.d, Take(w))
    case Succeed(w) => w < cfg.pool.n && InHandler(l, w)
    case Fail(w) => w < cfg.pool.n && InHandler(l, w)
    case Requeue(w) =>
      && w < cfg.pool.n && l.retrying[w] && l.h.d.workers[w].Busy?
      && HasRoom(cfg.pool, l.h.d, RoutingKey(l.h.d.workers[w].item.work.event))
    case Redrive(id) => HasLetter(l.dead, id)
  }

  function Tally(calls: seq<nat>, origin: nat): seq<nat> {
    if origin < |calls| then calls[origin := calls[origin] + 1] else calls
  }

  function CallsOf(l: Lane, origin: nat): nat { if origin < |l.calls| then l.calls[origin] else 0 }

  ghost function BusNext(cfg: BusConfig, l: Lane, step: BusStep): (l': Lane)
    requires LaneShape(cfg, l) && BusEnabled(cfg, l, step)
    ensures LaneShape(cfg, l')
  {
    var pool, d := cfg.pool, l.h.d;
    match step
    case Offer(e) =>
      l.(h := Next(pool, l.h, Announce(false)), entering := l.entering + [Copy(e, 1, l.offered)],
         offered := l.offered + 1, calls := l.calls + [0])
    case Enter(i) =>
      l.(h := Next(pool, l.h, Put(ItemFor(l.entering[i]))), entering := l.entering[..i] + l.entering[i + 1..])
    case Begin(w) =>
      var h := Next(pool, l.h, Take(w));
      var c := d.queues[w][0].work;
      var id := c.event.eventId;
      if id in l.processed
      then l.(h := Next(pool, h, Return(w)), skipped := l.skipped + 1)
      else l.(h := h, retrying := l.retrying[w := false], log := l.log + [Called(id)], calls := Tally(l.calls, c.origin))
    case Succeed(w) =>
      var id := d.workers[w].item.work.event.eventId;
      l.(h := Next(pool, l.h, Return(w)), processed := l.processed + {id},
         log := l.log + [Succeeded(id)], succeeded := l.succeeded + 1)
    case Fail(w) =>
      var c := d.workers[w].item.work;
      if c.attempt < cfg.maxAttempts
      then l.(h := Next(pool, l.h, Announce(true)), retrying := l.retrying[w := true])
      else l.(h := Next(pool, l.h, Return(w)), dead := l.dead + [DeadLetter(c.event, c.attempt)],
              deadLettered := l.deadLettered + 1)
    case Requeue(w) =>
      var c := d.workers[w].item.work;
      var h := Next(pool, l.h, Put(ItemFor(c.(attempt := c.attempt + 1))));
      l.(h := Next(pool, h, Return(w)), retrying := l.retrying[w := false], retried := l.retried + 1)
    case Redrive(id) =>
      var i := LetterIndex(l.dead, id);
      l.(h := Next(pool, l.h, Announce(false)), dead := l.dead[..i] + l.dead[i + 1..], processed := l.processed - {id},
         entering := l.entering + [Copy(l.dead[i].event, 1, l.offered)],
         log := l.log + [Redriven(id)], offered := l.offered + 1, calls := l.calls + [0])
  }

  /** The lane a schedule leads to; None if one of its steps is not enabled. */
  ghost function Exec(cfg: BusConfig, l: Lane, steps: seq<BusStep>): (r: Option<Lane>)
    requires LaneShape(cfg, l)
    ensures r.Some? ==> LaneShape(cfg, r.value)
    decreases |steps|
  {
    if steps == [] then Some(l)
    else if BusEnabled(cfg, l, steps[0]) then Exec(cfg, BusNext(cfg, l, steps[0]), steps[1..])
    else None
  }

  lemma {:induction false} ExecConcat(cfg: BusConfig, l: Lane, first: seq<BusStep>, second: seq<BusStep>)
    requires LaneShape(cfg, l) && Exec(cfg, l, first).Some?
    ensures Exec(cfg, l, first + second) == Exec(cfg, Exec(cfg, l, first).value, second)
    decreases |first|
  {
    if first == [] {
      assert first + second == second;
    } else {
      assert (first + second)[1..] == first[1..] + second;
      ExecConcat(cfg, BusNext(cfg, l, first[0]), first[1..], second);
    }
  }

  // ---------------------------------------------------------------- accounts

  ghost predicate GoodCopy(cfg: BusConfig, universe: iset<DomainEvent>, c: Copy) {
    1 <= c.attempt <= cfg.maxAttempts && c.event in universe
  }

  ghost predicate GoodItem(cfg: BusConfig, universe: iset<DomainEvent>, item: Item<Copy>) {
    GoodCopy(cfg, universe, item.work) && item.key == RoutingKey(item.work.event)
  }

  ghost predicate GoodPool(cfg: BusConfig, universe: iset<DomainEvent>, d: Dispatch<Copy>)
    requires Shape(cfg.pool, d)
  {
    && (forall w, i :: 0 <= w < cfg.pool.n && 0 <= i < |d.queues[w]| ==> GoodItem(cfg, universe, d.queues[w][i]))
    && (forall w :: 0 <= w < cfg.pool.n && d.workers[w].Busy? ==> GoodItem(cfg, universe, d.workers[w].item))
    && (forall w :: 0 <= w < cfg.pool.n ==> !d.workers[w].Gone?)
  }

  ghost predicate GoodContents(cfg: BusConfig, universe: iset<DomainEvent>, l: Lane)
    requires LaneShape(cfg, l)
  {
    && (forall i :: 0 <= i < |l.entering| ==> GoodCopy(cfg, universe, l.entering[i]))
    && GoodPool(cfg, universe, l.h.d)
    && (forall w :: 0 <= w < cfg.pool.n && l.retrying[w] ==>
          l.h.d.workers[w].Busy? && l.h.d.workers[w].item.work.attempt < cfg.maxAttempts)
    && (forall i :: 0 <= i < |l.dead| ==> l.dead[i].attempts == cfg.maxAttempts && l.dead[i].event in universe)
  }

  ghost predicate Accounts(cfg: BusConfig, l: Lane)
    requires LaneShape(cfg, l)
  {
    Counted(l) && forall origin :: Afforded(cfg, l, origin)
  }

  ghost predicate Counted(l: Lane) {
    && |l.h.entered| + |l.entering| == l.offered + l.retried && |l.calls| == l.offered
    && SumOf(l.h.d.processed, Count) == l.succeeded + l.skipped + l.deadLettered + l.retried
    && SumOf(l.h.d.failed, Count) == 0
    && l.h.cancelled == 0
  }

  /** A copy's handler calls so far and still to come are within its attempts. */
  ghost predicate Afforded(cfg: BusConfig, l: Lane, origin: nat) {
    CallsOf(l, origin) + CallsLeft(cfg, l, Some(origin)) <= if origin < l.offered then cfg.maxAttempts else 0
  }

  ghost predicate LaneInv(cfg: BusConfig, universe: iset<DomainEvent>, l: Lane) {
    && LaneShape(cfg, l)
    && Inv(cfg.pool, l.h)
    && GoodContents(cfg, universe, l)
    && Accounts(cfg, l)
  }

  /** Handler calls that a copy may still make, for all copies or those of one origin. */
  function Left(max: nat, of: Option<nat>): Copy -> int {
    (c: Copy) => if of.None? || of.value == c.origin then max - c.attempt + 1 else 0
  }

  function ItemLeft(max: nat, of: Option<nat>): Item<Copy> -> int { (item: Item<Copy>) => Left(max, of)(item.work) }

  function QueueLeft(max: nat, of: Option<nat>): seq<Item<Copy>> -> int { (q: seq<Item<Copy>>) => SumOf(q, ItemLeft(max, of)) }

  /** The call that a running copy is making has been counted. */
  function WorkerLeft(max: nat, of: Option<nat>): Worker<Copy> -> int {
    (w: Worker<Copy>) => if w.Busy? then CalledLeft(max, of, w.item.work) else 0
  }

  function CalledLeft(max: nat, of: Option<nat>, c: Copy): int {
    if of.None? || of.value == c.origin then max - c.attempt else 0
  }

  ghost function CallsLeft(cfg: BusConfig, l: Lane, of: Option<nat>): int {
    SumOf(l.entering, Left(cfg.maxAttempts, of)) + SumOf(l.h.d.queues, QueueLeft(cfg.maxAttempts, of))
    + SumOf(l.h.d.workers, WorkerLeft(cfg.maxAttempts, of))
  }

  function Unit(b: bool): int { if b then 1 else 0 }

  /** Work that `drain` still has to wait for. */
  ghost function Outstanding(l: Lane): int {
    |l.entering| + SumOf(l.h.d.queues, QueueLength) + SumOf(l.h.d.workers, BusyUnit)
  }

  /** Goes down with every step that is not a publish or a redrive. */
  ghost function Measure(cfg: BusConfig, l: Lane): int {
    3 * CallsLeft(cfg, l, None) + |l.entering| + 2 * SumOf(l.h.d.workers, BusyUnit) - SumOf(l.retrying, Unit)
  }

  lemma SumOfRemove<T>(s: seq<T>, i: nat, f: T -> int)
    requires i < |s|
    ensures SumOf(s[..i] + s[i + 1..], f) == SumOf(s, f) - f(s[i])
  {
    SumOfAppend(s[..i], s[i + 1..], f);
    SumOfAppend(s[..i], s[i..], f);
    assert s == s[..i] + s[i..];
    assert s[i..][1..] == s[i + 1..];
  }

  /** How much a step takes off the calls left, and off the measure. */
  lemma PutCost(cfg: BusConfig, d: Dispatch<Copy>, c: Copy, of: Option<nat>)
    requires Sane(cfg) && Shape(cfg.pool, d) && HasRoom(cfg.pool, d, RoutingKey(c.event))
    ensures var d' := NextDispatch(cfg.pool, d, Put(ItemFor(c)));
            SumOf(d'.queues, QueueLeft(cfg.maxAttempts, of))
            == SumOf(d.queues, QueueLeft(cfg.maxAttempts, of)) + Left(cfg.maxAttempts, of)(c)
  {
    var left, w := ItemLeft(cfg.maxAttempts, of), WorkerFor(cfg.pool, RoutingKey(c.event));
    SumOfUpdate(d.queues, w, d.queues[w] + [ItemFor(c)], QueueLeft(cfg.maxAttempts, of));
    SumOfAppend(d.queues[w], [ItemFor(c)], left);
    assert SumOf([ItemFor(c)], left) == left(ItemFor(c)) + SumOf([], left);
  }

  lemma TakeCost(cfg: BusConfig, d: Dispatch<Copy>, w: nat, of: Option<nat>)
    requires Sane(cfg) && Shape(cfg.pool, d) && Enabled(cfg.pool, d, Take(w))
    ensures var d' := NextDispatch(cfg.pool, d, Take(w));
            var c := d.queues[w][0].work;
            && SumOf(d'.queues, QueueLeft(cfg.maxAttempts, of))
               == SumOf(d.queues, QueueLeft(cfg.maxAttempts, of)) - Left(cfg.maxAttempts, of)(c)
            && SumOf(d'.workers, WorkerLeft(cfg.maxAttempts, of))
               == SumOf(d.workers, WorkerLeft(cfg.maxAttempts, of)) + CalledLeft(cfg.maxAttempts, of, c)
            && SumOf(d'.workers, BusyUnit) == SumOf(d.workers, BusyUnit) + 1
  {
    var max, q := cfg.maxAttempts, d.queues[w];
    SumOfUpdate(d.queues, w, q[1..], QueueLeft(max, of));
    assert SumOf(q, ItemLeft(max, of)) == ItemLeft(max, of)(q[0]) + SumOf(q[1..], ItemLeft(max, of));
    SumOfUpdate(d.workers, w, Busy(q[0]), WorkerLeft(max, of));
    SumOfUpdate(d.workers, w, Busy(q[0]), BusyUnit);
  }

  lemma ReturnCost(cfg: BusConfig, d: Dispatch<Copy>, w: nat, of: Option<nat>)
    requires Sane(cfg) && Shape(cfg.pool, d) && Enabled(cfg.pool, d, Return(w))
    ensures var d' := NextDispatch(cfg.pool, d, Return(w));
            && SumOf(d'.workers, WorkerLeft(cfg.maxAttempts, of))
               == SumOf(d.workers, WorkerLeft(cfg.maxAttempts, of)) - CalledLeft(cfg.maxAttempts, of, d.workers[w].item.work)
            && SumOf(d'.workers, BusyUnit) == SumOf(d.workers, BusyUnit) - 1
            && SumOf(d'.processed, Count) == SumOf(d.processed, Count) + 1
  {
    SumOfUpdate(d.workers, w, Idle, WorkerLeft(cfg.maxAttempts, of));
    SumOfUpdate(d.workers, w, Idle, BusyUnit);
    SumOfUpdate(d.processed, w, d.processed[w] + 1, Count);
  }

  lemma EnterCost(cfg: BusConfig, l: Lane, c: Copy, of: Option<nat>)
    ensures SumOf(l.entering + [c], Left(cfg.maxAttempts, of))
            == SumOf(l.entering, Left(cfg.maxAttempts, of)) + Left(cfg.maxAttempts, of)(c)
  {
    var left := Left(cfg.maxAttempts, of);
    SumOfAppend(l.entering, [c], left);
    assert SumOf([c], left) == left(c) + SumOf([], left);
  }

  /** The price of every step for the copy of one origin: each handler call is paid
      from the calls it has left, and only a new origin gets any. */
  ghost predicate Priced(cfg: BusConfig, l: Lane, l': Lane, origin: nat) {
    CallsOf(l', origin) + CallsLeft(cfg, l', Some(origin))
    <= CallsOf(l, origin) + CallsLeft(cfg, l, Some(origin)) + if l.offered <= origin < l'.offered then cfg.maxAttempts else 0
  }

  /** What a step does to the calls left, to be read for one origin or for all. */
  ghost predicate Costs(cfg: BusConfig, universe: iset<DomainEvent>, l: Lane, step: BusStep, of: Option<nat>)
    requires LaneInv(cfg, universe, l) && BusEnabled(cfg, l, step)
  {
    var l', max, d := BusNext(cfg, l, step), cfg.maxAttempts, l.h.d;
    var before, after := CallsLeft(cfg, l, of), CallsLeft(cfg, l', of);
    match step
    case Offer(e) => after == before + Left(max, of)(Copy(e, 1, l.offered))
    case Redrive(id) => after == before + Left(max, of)(Copy(l.dead[LetterIndex(l.dead, id)].event, 1, l.offered))
    case Enter(i) => after == before
    case Begin(w) =>
      var c := d.queues[w][0].work;
      if c.event.eventId in l.processed then after == before - Left(max, of)(c)
      else after == before - Left(max, of)(c) + CalledLeft(max, of, c)
    case Succeed(w) => after == before - CalledLeft(max, of, d.workers[w].item.work)
    case Fail(w) =>
      var c := d.workers[w].item.work;
      after == before - if c.attempt < max then 0 else CalledLeft(max, of, c)
    case Requeue(w) => after == before
  }

  lemma BeginCosts(cfg: BusConfig, universe: iset<DomainEvent>, l: Lane, w: nat, of: Option<nat>)
    requires LaneInv(cfg, universe, l) && BusEnabled(cfg, l, Begin(w))
    ensures Costs(cfg, universe, l, Begin(w), of)
  {
    hide Inv, Accounts, GoodContents, HasRoom, Left, CalledLeft;
    var d := l.h.d;
    TakeCost(cfg, d, w, of);
    if d.queues[w][0].work.event.eventId in l.processed {
      ReturnCost(cfg, NextDispatch(cfg.pool, d, Take(w)), w, of);
    }
  }

  lemma RequeueCosts(cfg: BusConfig, universe: iset<DomainEvent>, l: Lane, w: nat, of: Option<nat>)
    requires LaneInv(cfg, universe, l) && BusEnabled(cfg, l, Requeue(w))
    ensures Costs(cfg, universe, l, Requeue(w), of)
  {
    hide Inv, Accounts, GoodContents, HasRoom;
    var d, c := l.h.d, l.h.d.workers[w].item.work;
    var next := c.(attempt := c.attempt + 1);
    PutCost(cfg, d, next, of);
    ReturnCost(cfg, NextDispatch(cfg.pool, d, Put(ItemFor(next))), w, of);
  }

  lemma NewCosts(cfg: BusConfig, universe: iset<DomainEvent>, l: Lane, step: BusStep, of: Option<nat>)
    requires LaneInv(cfg, universe, l) && BusEnabled(cfg, l, step) && (step.Offer? || step.Redrive?)
    ensures Costs(cfg, universe, l, step, of)
  {
    hide Inv, Accounts, GoodContents, HasRoom, Left, CalledLeft;
    EnterCost(cfg, l, Copy(if step.Offer? then step.event else l.dead[LetterIndex(l.dead, step.id)].event, 1, l.offered), of);
  }

  lemma AdmitCosts(cfg: BusConfig, universe: iset<DomainEvent>, l: Lane, i: nat, of: Option<nat>)
    requires LaneInv(cfg, universe, l) && BusEnabled(cfg, l, Enter(i))
    ensures Costs(cfg, universe, l, Enter(i), of)
  {
    hide Inv, Accounts, GoodContents, HasRoom, Left, CalledLeft;
    SumOfRemove(l.entering, i, Left(cfg.maxAttempts, of));
    PutCost(cfg, l.h.d, l.entering[i], of);
  }

  lemma EndCosts(cfg: BusConfig, universe: iset<DomainEvent>, l: Lane, step: BusStep, of: Option<nat>)
    requires LaneInv(cfg, universe, l) && BusEnabled(cfg, l, step) && (step.Succeed? || step.Fail?)
    ensures Costs(cfg, universe, l, step, of)
  {
    hide Inv, Accounts, GoodContents, HasRoom, Left, CalledLeft;
    ReturnCost(cfg, l.h.d, step.worker, of);
  }

  lemma StepCosts(cfg: BusConfig, universe: iset<DomainEvent>, l: Lane, step: BusStep, of: Option<nat>)
    requires LaneInv(cfg, universe, l) && BusEnabled(cfg, l, step)
    ensures Costs(cfg, universe, l, step, of)
  {
    hide LaneInv, BusEnabled, Costs;
    match step
    case Enter(i) => AdmitCosts(cfg, universe, l, i, of);
    case Begin(w) => BeginCosts(cfg, universe, l, w, of);
    case Requeue(w) => RequeueCosts(cfg, universe, l, w, of);
    case Succeed(_) => EndCosts(cfg, universe, l, step, of);
    case Fail(_) => EndCosts(cfg, universe, l, step, of);
    case _ => NewCosts(cfg, universe, l, step, of);
  }

  lemma CopyPays(cfg: BusConfig, universe: iset<DomainEvent>, l: Lane, step: BusStep, origin: nat)
    requires LaneInv(cfg, universe, l) && BusEnabled(cfg, l, step)
    ensures Priced(cfg, l, BusNext(cfg, l, step), origin)
  {
    hide Inv, CallsLeft, HasRoom, GoodPool;
    StepCosts(cfg, universe, l, step, Some(origin));
    match step
    case Begin(w) => QueuedIsGood(cfg, universe, l, w);
    case Succeed(w) => BusyIsGood(cfg, universe, l.h.d, w);
    case Fail(w) => BusyIsGood(cfg, universe, l.h.d, w);
    case _ =>
  }

  lemma QueuedIsGood(cfg: BusConfig, universe: iset<DomainEvent>, l: Lane, w: nat)
    requires LaneShape(cfg, l) && GoodPool(cfg, universe, l.h.d) && BusEnabled(cfg, l, Begin(w))
    ensures GoodItem(cfg, universe, l.h.d.queues[w][0])
  {
  }

  lemma BusyIsGood(cfg: BusConfig, universe: iset<DomainEvent>, d: Dispatch<Copy>, w: nat)
    requires Shape(cfg.pool, d) && GoodPool(cfg, universe, d) && w < cfg.pool.n && d.workers[w].Busy?
    ensures GoodItem(cfg, universe, d.workers[w].item)
  {
  }

  lemma BusyStep(cfg: BusConfig, l: Lane, step: BusStep)
    requires LaneShape(cfg, l) && BusEnabled(cfg, l, step)
    requires step.Begin? || step.Succeed? || step.Fail? || step.Requeue?
    ensures var l', w := BusNext(cfg, l, step), step.worker;
            && |l'.entering| == |l.entering|
            && SumOf(l'.h.d.workers, BusyUnit) - SumOf(l.h.d.workers, BusyUnit)
               == (if l'.h.d.workers[w].Busy? then 1 else 0) - (if l.h.d.workers[w].Busy? then 1 else 0)
  {
    hide HasRoom;
    var d := l.h.d;
    OneWorkerChanges(cfg, l, step);
    hide BusNext, BusEnabled;
    SumOfUpdate(d.workers, step.worker, BusNext(cfg, l, step).h.d.workers[step.worker], BusyUnit);
  }

  lemma OneWorkerChanges(cfg: BusConfig, l: Lane, step: BusStep)
    requires LaneShape(cfg, l) && BusEnabled(cfg, l, step)
    requires step.Begin? || step.Succeed? || step.Fail? || step.Requeue?
    ensures var l', w := BusNext(cfg, l, step), step.worker;
            && w < cfg.pool.n && |l'.entering| == |l.entering|
            && l'.h.d.workers == l.h.d.workers[w := l'.h.d.workers[w]]
  {
    hide HasRoom;
  }

  lemma RetryingStep(cfg: BusConfig, l: Lane, step: BusStep)
    requires LaneShape(cfg, l) && BusEnabled(cfg, l, step)
    requires step.Begin? || step.Succeed? || step.Fail? || step.Requeue?
    ensures var l', w := BusNext(cfg, l, step), step.worker;
            SumOf(l'.retrying, Unit) - SumOf(l.retrying, Unit) == Unit(l'.retrying[w]) - Unit(l.retrying[w])
  {
    hide HasRoom;
    SumOfUpdate(l.retrying, step.worker, BusNext(cfg, l, step).retrying[step.worker], Unit);
    assert BusNext(cfg, l, step).retrying == l.retrying[step.worker := BusNext(cfg, l, step).retrying[step.worker]];
  }

  lemma MeasureFalls(cfg: BusConfig, universe: iset<DomainEvent>, l: Lane, step: BusStep)
    requires LaneInv(cfg, universe, l) && BusEnabled(cfg, l, step) && Internal(step)
    ensures Measure(cfg, BusNext(cfg, l, step)) < Measure(cfg, l)
  {
    hide Inv, Accounts, CallsLeft, HasRoom, GoodPool;
    StepCosts(cfg, universe, l, step, None);
    if !step.Enter? {
      BusyStep(cfg, l, step);
      RetryingStep(cfg, l, step);
    }
    match step
    case Begin(w) => QueuedIsGood(cfg, universe, l, w);
    case Succeed(w) => BusyIsGood(cfg, universe, l.h.d, w);
    case Fail(w) => BusyIsGood(cfg, universe, l.h.d, w);
    case _ =>
  }

  /** Every step, for every copy: a handler call is one of the calls that copy had left.
      And every internal step makes progress. */
  lemma StepCost(cfg: BusConfig, universe: iset<DomainEvent>, l: Lane, step: BusStep)
    requires LaneInv(cfg, universe, l) && BusEnabled(cfg, l, step)
    ensures forall origin :: Priced(cfg, l, BusNext(cfg, l, step), origin)
    ensures Internal(step) ==> Measure(cfg, BusNext(cfg, l, step)) < Measure(cfg, l)
  {
    hide Inv, Accounts, GoodContents, BusEnabled, BusNext, Priced, Measure;
    forall origin ensures Priced(cfg, l, BusNext(cfg, l, step), origin) {
      CopyPays(cfg, universe, l, step, origin);
    }
    if Internal(step) {
      MeasureFalls(cfg, universe, l, step);
    }
  }

  /** Each step of the bus is one or two steps of its dispatcher. */
  lemma PoolInvKept(cfg: BusConfig, universe: iset<DomainEvent>, l: Lane, step: BusStep)
    requires LaneInv(cfg, universe, l) && BusEnabled(cfg, l, step)
    ensures Inv(cfg.pool, BusNext(cfg, l, step).h)
  {
    hide Inv, Accounts, GoodContents;
    var pool, d := cfg.pool, l.h.d;
    match step
    case Offer(_) => NextInv(pool, l.h, Announce(false));
    case Redrive(_) => NextInv(pool, l.h, Announce(false));
    case Enter(i) => NextInv(pool, l.h, Put(ItemFor(l.entering[i])));
    case Begin(w) =>
      NextInv(pool, l.h, Take(w));
      NextInv(pool, Next(pool, l.h, Take(w)), Return(w));
    case Succeed(w) => NextInv(pool, l.h, Return(w));
    case Fail(w) =>
      NextInv(pool, l.h, Announce(true));
      NextInv(pool, l.h, Return(w));
    case Requeue(w) =>
      var c := d.workers[w].item.work;
      var put := Put(ItemFor(c.(attempt := c.attempt + 1)));
      NextInv(pool, l.h, put);
      NextInv(pool, Next(pool, l.h, put), Return(w));
  }

  lemma GoodPoolKept(cfg: BusConfig, universe: iset<DomainEvent>, d: Dispatch<Copy>, step: Step<Copy>)
    requires Shape(cfg.pool, d) && GoodPool(cfg, universe, d) && Enabled(cfg.pool, d, step)
    requires !step.Cancel? && (step.Put? ==> GoodItem(cfg, universe, step.item))
    ensures GoodPool(cfg, universe, NextDispatch(cfg.pool, d, step))
  {
    hide GoodItem, HasRoom;
    var d' := NextDispatch(cfg.pool, d, step);
    forall w, i | 0 <= w < cfg.pool.n && 0 <= i < |d'.queues[w]|
      ensures GoodItem(cfg, universe, d'.queues[w][i])
    {
      if step.Take? && w == step.worker {
        assert d'.queues[w][i] == d.queues[w][i + 1];
      }
    }
  }

  lemma PoolContentsKept(cfg: BusConfig, universe: iset<DomainEvent>, l: Lane, step: BusStep)
    requires LaneInv(cfg, universe, l) && BusEnabled(cfg, l, step)
    ensures GoodPool(cfg, universe, BusNext(cfg, l, step).h.d)
  {
    hide Inv, Accounts, HasRoom, GoodPool;
    var pool, d := cfg.pool, l.h.d;
    match step
    case Offer(_) => GoodPoolKept(cfg, universe, d, Announce(false));
    case Redrive(_) => GoodPoolKept(cfg, universe, d, Announce(false));
    case Enter(i) => GoodPoolKept(cfg, universe, d, Put(ItemFor(l.entering[i])));
    case Begin(w) =>
      GoodPoolKept(cfg, universe, d, Take(w));
      GoodPoolKept(cfg, universe, NextDispatch(pool, d, Take(w)), Return(w));
    case Succeed(w) => GoodPoolKept(cfg, universe, d, Return(w));
    case Fail(w) =>
      GoodPoolKept(cfg, universe, d, Announce(true));
      GoodPoolKept(cfg, universe, d, Return(w));
    case Requeue(w) =>
      var c := d.workers[w].item.work;
      var put := Put(ItemFor(c.(attempt := c.attempt + 1)));
      BusyIsGood(cfg, universe, d, w);
      GoodPoolKept(cfg, universe, d, put);
      GoodPoolKept(cfg, universe, NextDispatch(pool, d, put), Return(w));
  }

  lemma ContentsKept(cfg: BusConfig, universe: iset<DomainEvent>, l: Lane, step: BusStep)
    requires LaneInv(cfg, universe, l) && BusEnabled(cfg, l, step)
    requires step.Offer? ==> step.event in universe
    ensures GoodContents(cfg, universe, BusNext(cfg, l, step))
  {
    hide Inv, Accounts, HasRoom, GoodPool;
    PoolContentsKept(cfg, universe, l, step);
    if step.Fail? {
      BusyIsGood(cfg, universe, l.h.d, step.worker);
    }
  }

  lemma CallsKept(cfg: BusConfig, universe: iset<DomainEvent>, l: Lane, step: BusStep, origin: nat)
    requires LaneInv(cfg, universe, l) && BusEnabled(cfg, l, step)
    ensures Afforded(cfg, BusNext(cfg, l, step), origin)
  {
    hide Inv, GoodContents, CallsLeft, BusEnabled, BusNext;
    CopyPays(cfg, universe, l, step, origin);
    OfferedStep(cfg, l, step);
    assert Afforded(cfg, l, origin);
  }

  lemma OfferedStep(cfg: BusConfig, l: Lane, step: BusStep)
    requires LaneShape(cfg, l) && BusEnabled(cfg, l, step)
    ensures l.offered <= BusNext(cfg, l, step).offered
  {
    hide HasRoom;
  }

  lemma RequeueCounted(cfg: BusConfig, l: Lane, w: nat)
    requires LaneShape(cfg, l) && BusEnabled(cfg, l, Requeue(w)) && Counted(l)
    ensures Counted(BusNext(cfg, l, Requeue(w)))
  {
    hide HasRoom;
    var d, c := l.h.d, l.h.d.workers[w].item.work;
    ReturnCost(cfg, NextDispatch(cfg.pool, d, Put(ItemFor(c.(attempt := c.attempt + 1)))), w, None);
  }

  lemma CountedKept(cfg: BusConfig, l: Lane, step: BusStep)
    requires LaneShape(cfg, l) && BusEnabled(cfg, l, step) && Counted(l)
    ensures Counted(BusNext(cfg, l, step))
  {
    hide HasRoom;
    var pool, d := cfg.pool, l.h.d;
    if step.Requeue? {
      RequeueCounted(cfg, l, step.worker);
    } else {
      match step
      case Begin(w) => ReturnCost(cfg, NextDispatch(pool, d, Take(w)), w, None);
      case Succeed(w) => ReturnCost(cfg, d, w, None);
      case Fail(w) => ReturnCost(cfg, d, w, None);
      case _ =>
    }
  }

  lemma AccountsKept(cfg: BusConfig, universe: iset<DomainEvent>, l: Lane, step: BusStep)
    requires LaneInv(cfg, universe, l) && BusEnabled(cfg, l, step)
    ensures Accounts(cfg, BusNext(cfg, l, step))
  {
    hide Inv, GoodContents, BusEnabled, BusNext, Afforded, Counted;
    CountedKept(cfg, l, step);
    forall origin ensures Afforded(cfg, BusNext(cfg, l, step), origin) {
      CallsKept(cfg, universe, l, step, origin);
    }
  }

  lemma LaneInvKept(cfg: BusConfig, universe: iset<DomainEvent>, l: Lane, step: BusStep)
    requires LaneInv(cfg, universe, l) && BusEnabled(cfg, l, step)
    requires step.Offer? ==> step.event in universe
    ensures LaneInv(cfg, universe, BusNext(cfg, l, step))
  {
    PoolInvKept(cfg, universe, l, step);
    ContentsKept(cfg, universe, l, step);
    AccountsKept(cfg, universe, l, step);
  }

  lemma NewLaneInv(cfg: BusConfig, universe: iset<DomainEvent>)
    requires Sane(cfg)
    ensures LaneInv(cfg, universe, NewLane(cfg))
  {
    var l := NewLane(cfg);
    StartInv<Copy>(cfg.pool);
    SumOfZero(l.h.d.processed, Count);
    SumOfZero(l.h.d.failed, Count);
    forall origin ensures Afforded(cfg, l, origin) {
      SumOfZero(l.h.d.workers, WorkerLeft(cfg.maxAttempts, Some(origin)));
      forall q | q in l.h.d.queues ensures QueueLeft(cfg.maxAttempts, Some(origin))(q) == 0 {
        assert q == [];
      }
      SumOfZero(l.h.d.queues, QueueLeft(cfg.maxAttempts, Some(origin)));
    }
  }

  ghost predicate Within(steps: seq<BusStep>, universe: iset<DomainEvent>) {
    forall i :: 0 <= i < |steps| && steps[i].Offer? ==> steps[i].event in universe
  }

  lemma {:induction false} ReachableLaneInv(cfg: BusConfig, universe: iset<DomainEvent>, l: Lane, steps: seq<BusStep>)
    requires LaneInv(cfg, universe, l) && Within(steps, universe) && Exec(cfg, l, steps).Some?
    ensures LaneInv(cfg, universe, Exec(cfg, l, steps).value)
    decreases |steps|
  {
    hide Inv, Accounts, GoodContents, BusNext;
    if steps == [] {
    } else {
      LaneInvKept(cfg, universe, l, steps[0]);
      ReachableLaneInv(cfg, universe, BusNext(cfg, l, steps[0]), steps[1..]);
    }
  }

  /** Everything about a bus started empty that holds of any events at all. */
  lemma Reachable(cfg: BusConfig, steps: seq<BusStep>)
    requires Sane(cfg) && Exec(cfg, NewLane(cfg), steps).Some?
    ensures LaneInv(cfg, ALL_EVENTS, Exec(cfg, NewLane(cfg), steps).value)
  {
    NewLaneInv(cfg, ALL_EVENTS);
    ReachableLaneInv(cfg, ALL_EVENTS, NewLane(cfg), steps);
  }

  /** No event is lost or duplicated by the bus: every copy published or redriven is
      outstanding or ended in exactly one of three ways. Each of them got at most its
      attempts of handler calls, and a dead letter used them all. */
  lemma Conservation(cfg: BusConfig, steps: seq<BusStep>)
    requires Sane(cfg) && Exec(cfg, NewLane(cfg), steps).Some?
    ensures var l := Exec(cfg, NewLane(cfg), steps).value;
            && l.offered == Outstanding(l) + l.succeeded + l.skipped + l.deadLettered
            && |l.calls| == l.offered && (forall origin :: 0 <= origin < l.offered ==> l.calls[origin] <= cfg.maxAttempts)
            && (forall i :: 0 <= i < |l.dead| ==> l.dead[i].attempts == cfg.maxAttempts)
  {
    Reachable(cfg, steps);
    var l := Exec(cfg, NewLane(cfg), steps).value;
    forall origin | 0 <= origin < l.offered ensures l.calls[origin] <= cfg.maxAttempts {
      assert Afforded(cfg, l, origin);
      CallsLeftNonNegative(cfg, ALL_EVENTS, l, Some(origin));
    }
  }

  lemma CallsLeftNonNegative(cfg: BusConfig, universe: iset<DomainEvent>, l: Lane, of: Option<nat>)
    requires LaneInv(cfg, universe, l)
    ensures CallsLeft(cfg, l, of) >= 0
    ensures Measure(cfg, l) >= CallsLeft(cfg, l, None) || of.Some?
  {
    hide Inv, Accounts;
    var max := cfg.maxAttempts;
    SumOfNonNegative(l.entering, Left(max, of));
    forall q | q in l.h.d.queues ensures QueueLeft(max, of)(q) >= 0 {
      SumOfNonNegative(q, ItemLeft(max, of));
    }
    SumOfNonNegative(l.h.d.queues, QueueLeft(max, of));
    SumOfNonNegative(l.h.d.workers, WorkerLeft(max, of));
    RetryingAreBusy(l.retrying, l.h.d.workers);
  }

  lemma {:induction false} RetryingAreBusy(retrying: seq<bool>, workers: seq<Worker<Copy>>)
    requires |retrying| == |workers|
    requires forall w :: 0 <= w < |workers| && retrying[w] ==> workers[w].Busy?
    ensures SumOf(retrying, Unit) <= SumOf(workers, BusyUnit)
    ensures 0 <= SumOf(workers, BusyUnit)
  {
    if workers == [] {
    } else {
      RetryingAreBusy(retrying[1..], workers[1..]);
    }
  }

  /** Without new publishes or redrives every schedule is finite: its length is
      bounded by the measure of the state it starts from. */
  lemma {:induction false} DrainTerminates(cfg: BusConfig, universe: iset<DomainEvent>, l: Lane, steps: seq<BusStep>)
    requires LaneInv(cfg, universe, l) && Exec(cfg, l, steps).Some?
    requires forall i :: 0 <= i < |steps| ==> Internal(steps[i])
    ensures |steps| <= Measure(cfg, l)
    decreases |steps|
  {
    hide Inv, Accounts, GoodContents, BusNext, Measure;
    CallsLeftNonNegative(cfg, universe, l, None);
    if steps == [] {
    } else {
      StepCost(cfg, universe, l, steps[0]);
      LaneInvKept(cfg, universe, l, steps[0]);
      DrainTerminates(cfg, universe, BusNext(cfg, l, steps[0]), steps[1..]);
    }
  }
}
