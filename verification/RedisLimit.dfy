/** Limited retry on the Redis bus: how often the handler is called for one message, and
    how often the message is dead-lettered. */
module RedisLimit {
  import opened Basics
  import opened Partitioning
  import opened Events
  import opened RedisBus
  import opened RedisRuns
  import opened RedisDelivery
  import opened RedisExact

  // ---------------------------------------------------------------- deliveries in the process

  /** Where a delivery can be: read but not submitted, queued, or with a worker. */
  datatype Place = Fetched(i: nat) | Queued(w: nat, i: nat) | Held(w: nat)

  ghost predicate Taken(g: Group, p: Place) {
    match p
    case Fetched(i) => i < |g.fetched|
    case Queued(w, i) => w < |g.d.queues| && i < |g.d.queues[w]|
    case Held(w) => w < |g.d.workers| && w < |g.phase| && g.d.workers[w].Busy?
  }

  /** The delivery there: which message, for the how-many-eth time. */
  ghost function At(g: Group, p: Place): (nat, nat)
    requires Taken(g, p)
  {
    match p
    case Fetched(i) => g.fetched[i]
    case Queued(w, i) => (g.d.queues[w][i].work.message, g.d.queues[w][i].work.count)
    case Held(w) => (Job(g, w).message, Job(g, w).count)
  }

  ghost predicate Holds(g: Group, p: Place, m: nat) { Taken(g, p) && At(g, p).0 == m }

  ghost predicate InProcess(g: Group, m: nat) { exists p :: Holds(g, p, m) }

  /** The handler has been called for this delivery. */
  ghost predicate Used(g: Group, p: Place) {
    p.Held? && Taken(g, p) && g.phase[p.w] != Asking && g.phase[p.w] != AckDuplicate
  }

  /** A new delivery goes to the end of what is fetched. */
  ghost predicate IsNew(g: Group, step: RedisStep, p: Place) {
    (step.Read? || step.Reclaim?) && p == Fetched(|g.fetched|)
  }

  /** Where the delivery at p was before the step. */
  ghost function Before(cfg: RedisConfig, g: Group, step: RedisStep, p: Place): Place
    requires GroupShape(cfg, g) && RedisEnabled(cfg, g, step)
  {
    match p
    case Fetched(i) => if step.Submit? then Fetched(i + 1) else p
    case Queued(w, i) =>
      if step == Begin(w) then Queued(w, i + 1)
      else if step.Submit? && w < |g.d.queues| && i == |g.d.queues[w]| then Fetched(0)
      else p
    case Held(w) => if step == Begin(w) then Queued(w, 0) else p
  }

  lemma FetchedFrom(cfg: RedisConfig, g: Group, step: RedisStep, i: nat)
    requires GroupShape(cfg, g) && RedisEnabled(cfg, g, step) && Taken(RedisNext(cfg, g, step), Fetched(i))
    ensures var p, new' := Fetched(i), RedisNext(cfg, g, step).fetched[i];
            if IsNew(g, step, p) then
              if step.Read? then new' == (g.cursor, 1) else new' == (step.message, g.pending[step.message] + 1)
            else Taken(g, Before(cfg, g, step, p)) && At(g, Before(cfg, g, step, p)) == new'
  {
    hide NextDispatch, HasRoom, Without;
  }

  lemma QueuedFrom(cfg: RedisConfig, g: Group, step: RedisStep, w: nat, i: nat)
    requires GroupShape(cfg, g) && RedisEnabled(cfg, g, step) && Taken(RedisNext(cfg, g, step), Queued(w, i))
    ensures var p, q := Queued(w, i), Before(cfg, g, step, Queued(w, i));
            && Taken(g, q) && At(g, q) == At(RedisNext(cfg, g, step), p)
            && (q.Fetched? ==> w == WorkerFor(cfg.pool, RoutingKey(g.stream[g.fetched[0].0].event)))
  {
    hide HasRoom, Without;
  }

  lemma HeldFrom(cfg: RedisConfig, g: Group, step: RedisStep, w: nat)
    requires GroupShape(cfg, g) && RedisEnabled(cfg, g, step) && Taken(RedisNext(cfg, g, step), Held(w))
    ensures var p, q := Held(w), Before(cfg, g, step, Held(w));
            Taken(g, q) && At(g, q) == At(RedisNext(cfg, g, step), p)
  {
    hide HasRoom, Without;
  }

  /** Every delivery is a new one or was in the process before. */
  lemma CameFrom(cfg: RedisConfig, g: Group, step: RedisStep, p: Place)
    requires GroupShape(cfg, g) && RedisEnabled(cfg, g, step) && Taken(RedisNext(cfg, g, step), p)
    ensures var at := At(RedisNext(cfg, g, step), p);
            if IsNew(g, step, p) then
              if step.Read? then at == (g.cursor, 1) else at == (step.message, g.pending[step.message] + 1)
            else Taken(g, Before(cfg, g, step, p)) && At(g, Before(cfg, g, step, p)) == at
  {
    match p
    case Fetched(i) => FetchedFrom(cfg, g, step, i);
    case Queued(w, i) => QueuedFrom(cfg, g, step, w, i);
    case Held(w) => HeldFrom(cfg, g, step, w);
  }

  /** And no two were in the same place. */
  lemma BeforeIsOneToOne(cfg: RedisConfig, g: Group, step: RedisStep, p: Place, q: Place)
    requires GroupShape(cfg, g) && RedisEnabled(cfg, g, step)
    requires Taken(RedisNext(cfg, g, step), p) && Taken(RedisNext(cfg, g, step), q)
    requires Before(cfg, g, step, p) == Before(cfg, g, step, q)
    ensures p == q
  {
    if p.Queued? {
      QueuedFrom(cfg, g, step, p.w, p.i);
    }
    if q.Queued? {
      QueuedFrom(cfg, g, step, q.w, q.i);
    }
    hide RedisNext, HasRoom, Without, Taken;
  }

  /** The steps with which a delivery leaves the process. */
  ghost predicate Leaves(cfg: RedisConfig, g: Group, step: RedisStep, p: Place)
    requires GroupShape(cfg, g) && RedisEnabled(cfg, g, step) && Taken(g, p)
  {
    match step
    case Submit => p.Fetched? && (g.stream[g.fetched[0].0].Garbled? || (p.i == 0 && g.stream[g.fetched[0].0].NoEnvelope?))
    case DropFetched => p.Fetched?
    case Clear(w) => p == Held(w) && At(g, p).1 < cfg.maxDeliveries
    case Ack(w) => p == Held(w)
    case Abort(w) => p == Held(w)
    case Crash => true
    case _ => false
  }

  /** Where the delivery at p is after the step, if it stays. */
  ghost function Later(cfg: RedisConfig, g: Group, step: RedisStep, p: Place): Place
    requires GroupShape(cfg, g) && RedisEnabled(cfg, g, step) && Taken(g, p)
  {
    match p
    case Fetched(i) =>
      if !step.Submit? then p
      else if i > 0 then Fetched(i - 1)
      else if g.stream[g.fetched[0].0].Envelope? then
        var v := WorkerFor(cfg.pool, RoutingKey(g.stream[g.fetched[0].0].event));
        Queued(v, |g.d.queues[v]|)
      else p
    case Queued(w, i) => if step != Begin(w) then p else if i == 0 then Held(w) else Queued(w, i - 1)
    case Held(w) => p
  }

  lemma FetchedStays(cfg: RedisConfig, g: Group, step: RedisStep, i: nat)
    requires GroupShape(cfg, g) && RedisEnabled(cfg, g, step) && Taken(g, Fetched(i)) && !Leaves(cfg, g, step, Fetched(i))
    ensures var g', q := RedisNext(cfg, g, step), Later(cfg, g, step, Fetched(i)); Taken(g', q) && At(g', q) == g.fetched[i]
  {
    hide HasRoom, Without;
  }

  lemma QueuedStays(cfg: RedisConfig, g: Group, step: RedisStep, w: nat, i: nat)
    requires GroupShape(cfg, g) && RedisEnabled(cfg, g, step) && Taken(g, Queued(w, i)) && !Leaves(cfg, g, step, Queued(w, i))
    ensures var g', q := RedisNext(cfg, g, step), Later(cfg, g, step, Queued(w, i));
            Taken(g', q) && At(g', q) == At(g, Queued(w, i))
  {
    hide HasRoom, Without;
  }

  lemma HeldStays(cfg: RedisConfig, g: Group, step: RedisStep, w: nat)
    requires GroupShape(cfg, g) && RedisEnabled(cfg, g, step) && Taken(g, Held(w)) && !Leaves(cfg, g, step, Held(w))
    ensures var g' := RedisNext(cfg, g, step); Taken(g', Held(w)) && At(g', Held(w)) == At(g, Held(w))
  {
    hide HasRoom, Without;
  }

  lemma Stays(cfg: RedisConfig, g: Group, step: RedisStep, p: Place)
    requires GroupShape(cfg, g) && RedisEnabled(cfg, g, step) && Taken(g, p) && !Leaves(cfg, g, step, p)
    ensures var g', q := RedisNext(cfg, g, step), Later(cfg, g, step, p); Taken(g', q) && At(g', q) == At(g, p)
  {
    hide RedisNext, RedisEnabled, Leaves;
    match p
    case Fetched(i) => FetchedStays(cfg, g, step, i);
    case Queued(w, i) => QueuedStays(cfg, g, step, w, i);
    case Held(w) => HeldStays(cfg, g, step, w);
  }

  // ---------------------------------------------------------------- calls and letters

  /** The step calls the handler for m, or buries m. */
  ghost predicate Calls(g: Group, step: RedisStep, m: nat) {
    step.Ask? && Holds(g, Held(step.worker), m) && Job(g, step.worker).event.eventId !in g.dedup
  }

  ghost predicate Buries(g: Group, step: RedisStep, m: nat) {
    step.Bury? && Holds(g, Held(step.worker), m)
  }

  ghost function More(g: Group, step: RedisStep, m: nat, c: nat): nat { c + if Calls(g, step, m) then 1 else 0 }

  ghost function Letters(g: Group, step: RedisStep, m: nat, b: nat): nat { b + if Buries(g, step, m) then 1 else 0 }

  /** m is not reclaimed while an earlier delivery of it is in the process, and no
      delivery of it is cut short once the handler has been called. */
  ghost predicate Orderly(g: Group, step: RedisStep, m: nat) {
    match step
    case Reclaim(x) => x == m ==> !InProcess(g, m)
    case Abort(w) => !(Holds(g, Held(w), m) && Used(g, Held(w)))
    case Crash => forall w :: !(Holds(g, Held(w), m) && Used(g, Held(w)))
    case _ => true
  }

  /** What the delivery at p allows of c calls and b letters so far. */
  ghost predicate Spent(cfg: RedisConfig, g: Group, p: Place, c: nat, b: nat)
    requires Taken(g, p)
  {
    var n, max := At(g, p).1, cfg.maxDeliveries;
    if !Used(g, p) then c < n && c < max && b == 0
    else
      match g.phase[p.w]
      case AckDead => c <= max && b <= 1
      case AckDone => c <= max && b == 0
      case Burying => c <= max && b == 0
      case _ => c <= n && c <= max && b == 0
  }

  ghost predicate Limited(cfg: RedisConfig, g: Group, m: nat, c: nat, b: nat) {
    && c <= cfg.maxDeliveries && b <= 1
    && (m >= g.cursor ==> m !in g.pending && c == 0 && b == 0)
    && (forall p :: Holds(g, p, m) ==> m < g.cursor && m in g.pending && At(g, p).1 == g.pending[m] && Spent(cfg, g, p, c, b))
    && (forall p, q :: Holds(g, p, m) && Holds(g, q, m) ==> p == q)
    && (m in g.pending && !InProcess(g, m) ==> c <= g.pending[m] && c < cfg.maxDeliveries && b == 0)
  }

  /** The pending count of m. */
  lemma PendingAfter(cfg: RedisConfig, g: Group, step: RedisStep, m: nat)
    requires GroupShape(cfg, g) && RedisEnabled(cfg, g, step)
    ensures var g' := RedisNext(cfg, g, step);
            && (step.Read? && m == g.cursor ==> m in g'.pending && g'.pending[m] == 1 && g'.cursor == m + 1)
            && (step == Reclaim(m) ==> m in g.pending && m in g'.pending && g'.pending[m] == g.pending[m] + 1)
            && (!(step.Read? && m == g.cursor) && step != Reclaim(m) ==>
                  (m in g'.pending ==> m in g.pending && g'.pending[m] == g.pending[m]))
            && (!(step.Read? && m == g.cursor) && m in g.pending && m !in g'.pending ==>
                  || (step.Ack? && Holds(g, Held(step.worker), m) && Leaves(cfg, g, step, Held(step.worker)))
                  || (step.Submit? && Holds(g, Fetched(0), m) && Leaves(cfg, g, step, Fetched(0))))
            && g.cursor <= g'.cursor <= g.cursor + 1 && (g'.cursor > g.cursor ==> step.Read?)
            && (step.Ack? ==> m in g'.pending ==> !Holds(g, Held(step.worker), m))
  {
    hide NextDispatch, HasRoom, Without;
  }

  /** The phase of a worker that keeps its delivery: its own steps go one phase on. */
  lemma PhaseStep(cfg: RedisConfig, g: Group, step: RedisStep, w: nat)
    requires GroupShape(cfg, g) && RedisEnabled(cfg, g, step)
    requires Taken(g, Held(w)) && Taken(RedisNext(cfg, g, step), Held(w)) && w < cfg.pool.n
    ensures var old', new' := g.phase[w], RedisNext(cfg, g, step).phase[w];
            match step
            case Ask(v) =>
              if v != w then new' == old'
              else old' == Asking && new' == if Job(g, w).event.eventId in g.dedup then AckDuplicate else Handling
            case Succeed(v) => if v != w then new' == old' else old' == Handling && new' == AckDone
            case Fail(v) => if v != w then new' == old' else old' == Handling && new' == Clearing
            case Clear(v) => if v != w then new' == old' else old' == Clearing && new' == Burying
            case Bury(v) => if v != w then new' == old' else old' == Burying && new' == AckDead
            case _ => new' == old'
  {
    hide HasRoom, Without;
  }

  lemma JustBegun(cfg: RedisConfig, g: Group, w: nat)
    requires GroupShape(cfg, g) && RedisEnabled(cfg, g, Begin(w))
    ensures w < cfg.pool.n && RedisNext(cfg, g, Begin(w)).phase[w] == Asking && !Taken(g, Held(w))
  {
  }

  /** What a step makes of the allowance of a delivery that stays. */
  lemma SpentStays(cfg: RedisConfig, g: Group, step: RedisStep, p: Place, m: nat, c: nat, b: nat)
    requires GroupShape(cfg, g) && RedisEnabled(cfg, g, step) && Holds(RedisNext(cfg, g, step), p, m) && !IsNew(g, step, p)
    requires var q := Before(cfg, g, step, p);
             Holds(g, q, m) && At(g, q) == At(RedisNext(cfg, g, step), p) && Spent(cfg, g, q, c, b)
    requires forall x :: Holds(g, x, m) ==> x == Before(cfg, g, step, p)
    ensures Spent(cfg, RedisNext(cfg, g, step), p, More(g, step, m, c), Letters(g, step, m, b))
  {
    hide RedisNext, RedisEnabled, HasRoom, Without, GroupShape;
    if p.Held? {
      assert p.w < cfg.pool.n by { Workers(cfg, RedisNext(cfg, g, step)); }
      if step == Begin(p.w) {
        JustBegun(cfg, g, p.w);
      } else {
        PhaseStep(cfg, g, step, p.w);
      }
    }
  }

  lemma Workers(cfg: RedisConfig, g: Group)
    requires GroupShape(cfg, g)
    ensures |g.d.workers| == cfg.pool.n
  {
  }

  lemma DeliveryStep(cfg: RedisConfig, g: Group, step: RedisStep, p: Place, m: nat, c: nat, b: nat)
    requires GroupShape(cfg, g) && RedisEnabled(cfg, g, step) && Limited(cfg, g, m, c, b) && Orderly(g, step, m)
    requires Holds(RedisNext(cfg, g, step), p, m)
    ensures var g' := RedisNext(cfg, g, step);
            && m < g'.cursor && m in g'.pending && At(g', p).1 == g'.pending[m]
            && Spent(cfg, g', p, More(g, step, m, c), Letters(g, step, m, b))
  {
    hide RedisNext, RedisEnabled, NextDispatch, HasRoom, Without;
    CameFrom(cfg, g, step, p);
    PendingAfter(cfg, g, step, m);
    if IsNew(g, step, p) {
      NewIsUnused(cfg, g, step, p);
    } else {
      var q := Before(cfg, g, step, p);
      assert Holds(g, q, m) && InProcess(g, m);
      BeforeStays(cfg, g, step, p);
      SpentStays(cfg, g, step, p, m, c, b);
    }
  }

  lemma NewIsUnused(cfg: RedisConfig, g: Group, step: RedisStep, p: Place)
    requires IsNew(g, step, p)
    ensures !Used(g, p) && !step.Ask? && !step.Bury? && p.Fetched?
  {
  }

  /** What is still in the process after a step did not leave with it. */
  lemma BeforeStays(cfg: RedisConfig, g: Group, step: RedisStep, p: Place)
    requires GroupShape(cfg, g) && RedisEnabled(cfg, g, step) && Taken(RedisNext(cfg, g, step), p) && !IsNew(g, step, p)
    requires Taken(g, Before(cfg, g, step, p))
    ensures !Leaves(cfg, g, step, Before(cfg, g, step, p))
  {
    hide HasRoom, Without;
  }

  lemma NewOrOld(cfg: RedisConfig, g: Group, step: RedisStep, p: Place, m: nat, c: nat, b: nat)
    requires GroupShape(cfg, g) && RedisEnabled(cfg, g, step) && Limited(cfg, g, m, c, b) && Orderly(g, step, m)
    requires Holds(RedisNext(cfg, g, step), p, m)
    ensures if IsNew(g, step, p) then !InProcess(g, m) else Holds(g, Before(cfg, g, step, p), m) && InProcess(g, m)
  {
    hide RedisNext, RedisEnabled, HasRoom, Without, Spent;
    CameFrom(cfg, g, step, p);
  }

  lemma OneDelivery(cfg: RedisConfig, g: Group, step: RedisStep, p: Place, q: Place, m: nat, c: nat, b: nat)
    requires GroupShape(cfg, g) && RedisEnabled(cfg, g, step) && Limited(cfg, g, m, c, b) && Orderly(g, step, m)
    requires Holds(RedisNext(cfg, g, step), p, m) && Holds(RedisNext(cfg, g, step), q, m)
    ensures p == q
  {
    hide RedisNext, RedisEnabled, HasRoom, Without, Spent, Orderly, Before;
    NewOrOld(cfg, g, step, p, m, c, b);
    NewOrOld(cfg, g, step, q, m, c, b);
    if !IsNew(g, step, p) && !IsNew(g, step, q) {
      BeforeIsOneToOne(cfg, g, step, p, q);
    }
  }

  lemma StaysOrLeaves(cfg: RedisConfig, g: Group, step: RedisStep, p: Place, m: nat)
    requires GroupShape(cfg, g) && RedisEnabled(cfg, g, step) && Holds(g, p, m)
    ensures Leaves(cfg, g, step, p) || InProcess(RedisNext(cfg, g, step), m)
  {
    hide RedisNext, RedisEnabled, HasRoom, Without, Leaves, Later;
    if !Leaves(cfg, g, step, p) {
      Stays(cfg, g, step, p);
      assert Holds(RedisNext(cfg, g, step), Later(cfg, g, step, p), m);
    }
  }

  /** A message that waits for the next reclaim has a call left. */
  lemma WaitingStep(cfg: RedisConfig, g: Group, step: RedisStep, m: nat, c: nat, b: nat)
    requires GroupShape(cfg, g) && RedisEnabled(cfg, g, step) && Limited(cfg, g, m, c, b) && Orderly(g, step, m)
    requires m in RedisNext(cfg, g, step).pending && !InProcess(RedisNext(cfg, g, step), m)
    ensures var c' := More(g, step, m, c);
            c' <= RedisNext(cfg, g, step).pending[m] && c' < cfg.maxDeliveries && Letters(g, step, m, b) == 0
  {
    hide RedisNext, NextDispatch, HasRoom, Without;
    PendingAfter(cfg, g, step, m);
    NewIsTaken(cfg, g, step, m);
    if p :| Holds(g, p, m) {
      StaysOrLeaves(cfg, g, step, p, m);
    }
  }

  lemma NewIsTaken(cfg: RedisConfig, g: Group, step: RedisStep, m: nat)
    requires GroupShape(cfg, g) && RedisEnabled(cfg, g, step)
    ensures (step.Read? && m == g.cursor) || step == Reclaim(m) ==> InProcess(RedisNext(cfg, g, step), m)
  {
    if (step.Read? && m == g.cursor) || step == Reclaim(m) {
      assert Holds(RedisNext(cfg, g, step), Fetched(|g.fetched|), m);
    }
  }

  lemma CountsStep(cfg: RedisConfig, g: Group, step: RedisStep, m: nat, c: nat, b: nat)
    requires GroupShape(cfg, g) && RedisEnabled(cfg, g, step) && Limited(cfg, g, m, c, b)
    ensures More(g, step, m, c) <= cfg.maxDeliveries && Letters(g, step, m, b) <= 1
    ensures m >= g.cursor ==> More(g, step, m, c) == c && Letters(g, step, m, b) == b
  {
    hide RedisNext, HasRoom, Without;
  }

  lemma LimitedStep(cfg: RedisConfig, g: Group, step: RedisStep, m: nat, c: nat, b: nat)
    requires GroupShape(cfg, g) && RedisEnabled(cfg, g, step) && Limited(cfg, g, m, c, b) && Orderly(g, step, m)
    ensures Limited(cfg, RedisNext(cfg, g, step), m, More(g, step, m, c), Letters(g, step, m, b))
  {
    var g', c', b' := RedisNext(cfg, g, step), More(g, step, m, c), Letters(g, step, m, b);
    hide RedisNext, RedisEnabled, Spent, Holds, Calls, Buries, More, Letters, Orderly;
    CountsStep(cfg, g, step, m, c, b);
    PendingAfter(cfg, g, step, m);
    forall p | Holds(g', p, m)
      ensures m < g'.cursor && m in g'.pending && At(g', p).1 == g'.pending[m] && Spent(cfg, g', p, c', b')
    {
      DeliveryStep(cfg, g, step, p, m, c, b);
    }
    forall p, q | Holds(g', p, m) && Holds(g', q, m) ensures p == q {
      OneDelivery(cfg, g, step, p, q, m, c, b);
    }
    if m in g'.pending && !InProcess(g', m) {
      WaitingStep(cfg, g, step, m, c, b);
    }
  }

  // ---------------------------------------------------------------- whole runs

  /** How often a run calls the handler for m, and how often it buries m. */
  ghost function CallsOf(cfg: RedisConfig, steps: seq<RedisStep>, m: nat): nat
    requires Sane(cfg) && RedisExec(cfg, NewGroup(cfg), steps).Some?
  {
    if steps == [] then 0
    else
      var init, last := steps[..|steps| - 1], steps[|steps| - 1];
      More(RedisExec(cfg, NewGroup(cfg), init).value, last, m, CallsOf(cfg, init, m))
  }

  ghost function LettersOf(cfg: RedisConfig, steps: seq<RedisStep>, m: nat): nat
    requires Sane(cfg) && RedisExec(cfg, NewGroup(cfg), steps).Some?
  {
    if steps == [] then 0
    else
      var init, last := steps[..|steps| - 1], steps[|steps| - 1];
      Letters(RedisExec(cfg, NewGroup(cfg), init).value, last, m, LettersOf(cfg, init, m))
  }

  ghost predicate OrderlyRun(cfg: RedisConfig, steps: seq<RedisStep>, m: nat)
    requires Sane(cfg) && RedisExec(cfg, NewGroup(cfg), steps).Some?
  {
    steps == [] ||
    (var init, last := steps[..|steps| - 1], steps[|steps| - 1];
     OrderlyRun(cfg, init, m) && Orderly(RedisExec(cfg, NewGroup(cfg), init).value, last, m))
  }

  lemma NewGroupLimited(cfg: RedisConfig, m: nat)
    requires Sane(cfg)
    ensures Limited(cfg, NewGroup(cfg), m, 0, 0)
  {
  }

  lemma {:induction false} OrderlyRunsAreLimited(cfg: RedisConfig, steps: seq<RedisStep>, m: nat)
    requires Sane(cfg) && RedisExec(cfg, NewGroup(cfg), steps).Some? && OrderlyRun(cfg, steps, m)
    ensures Limited(cfg, RedisExec(cfg, NewGroup(cfg), steps).value, m, CallsOf(cfg, steps, m), LettersOf(cfg, steps, m))
    decreases |steps|
  {
    hide Limited, RedisEnabled, RedisNext, Orderly, More, Letters;
    if steps == [] {
      NewGroupLimited(cfg, m);
    } else {
      var init, last := steps[..|steps| - 1], steps[|steps| - 1];
      OrderlyRunsAreLimited(cfg, init, m);
      LimitedStep(cfg, RedisExec(cfg, NewGroup(cfg), init).value, last, m, CallsOf(cfg, init, m), LettersOf(cfg, init, m));
    }
  }

  /** Limited retry: whatever else goes on, a message that is reclaimed only when no
      earlier delivery of it is in the process, and whose deliveries are not cut short,
      has at most the configured number of handler calls and one dead letter. */
  lemma AtMostTheLimit(cfg: RedisConfig, steps: seq<RedisStep>, m: nat)
    requires Sane(cfg) && RedisExec(cfg, NewGroup(cfg), steps).Some? && OrderlyRun(cfg, steps, m)
    ensures CallsOf(cfg, steps, m) <= cfg.maxDeliveries && LettersOf(cfg, steps, m) <= 1
  {
    hide RedisExec, CallsOf, LettersOf, OrderlyRun;
    OrderlyRunsAreLimited(cfg, steps, m);
  }

  // ---------------------------------------------------------------- reclaimed too early

  function Times(fact: Fact, n: nat): seq<Fact> { if n == 0 then [] else Times(fact, n - 1) + [fact] }

  lemma {:induction false} TimesAdd(fact: Fact, n: nat)
    ensures [fact] + Times(fact, n) == Times(fact, n) + [fact]
  {
    if n > 0 {
      TimesAdd(fact, n - 1);
      assert [fact] + Times(fact, n) == ([fact] + Times(fact, n - 1)) + [fact];
    }
  }

  /** The n-th delivery of the message is with the handler, and no other. */
  ghost predicate Trying(cfg: RedisConfig, g: Group, v: nat, m: nat, e: DomainEvent, n: nat) {
    && GroupShape(cfg, g) && v < cfg.pool.n && InPhase(g, v, Handling) && g.d.queues[v] == [] && g.fetched == []
    && Job(g, v) == Delivery(m, e, n) && m in g.pending && g.pending[m] == n && m < g.cursor
    && g.stream[m] == Envelope(e) && WorkerFor(cfg.pool, RoutingKey(e)) == v
  }

  /** Failing each time, the message comes to its last try. */
  lemma {:induction false} LastTry(cfg: RedisConfig, universe: iset<DomainEvent>, g: Group, v: nat, m: nat, e: DomainEvent, n: nat, rule: Rule)
    returns (steps: seq<RedisStep>, g': Group)
    requires Trying(cfg, g, v, m, e, n) && n <= cfg.maxDeliveries
    ensures Leads(cfg, universe, g, steps, rule, g') && Trying(cfg, g', v, m, e, cfg.maxDeliveries)
    ensures g'.log == g.log + Times(Called(e.eventId), cfg.maxDeliveries - n)
    ensures g'.dlq == g.dlq && g'.stream == g.stream
    decreases cfg.maxDeliveries - n
  {
    hide Run, RedisExec, HasRoom, RedisEnabled, RedisNext, Times;
    NoSteps(cfg, universe, g, rule);
    if n == cfg.maxDeliveries {
      steps, g' := [], g;
      assert Times(Called(e.eventId), 0) == [] by { TimesZero(Called(e.eventId)); }
    } else {
      FailAndClear(cfg, g, v);
      steps, g' := HarmlessStep(cfg, universe, g, [], rule, g, Fail(v));
      steps, g' := HarmlessStep(cfg, universe, g, steps, rule, g', Clear(v));
      var g1, g2, g3, g4 := TryAgain(cfg, g', v, m, e);
      steps, g' := HarmlessStep(cfg, universe, g, steps, rule, g', Reclaim(m));
      steps, g' := HarmlessStep(cfg, universe, g, steps, rule, g', Submit);
      steps, g' := HarmlessStep(cfg, universe, g, steps, rule, g', Begin(v));
      steps, g' := HarmlessStep(cfg, universe, g, steps, rule, g', Ask(v));
      var more, end := LastTry(cfg, universe, g', v, m, e, n + 1, rule);
      Onwards(cfg, universe, g, steps, rule, g', more, end);
      OnceMore(Called(e.eventId), cfg.maxDeliveries - n);
      assert g.log + [Called(e.eventId)] + Times(Called(e.eventId), cfg.maxDeliveries - n - 1)
          == g.log + ([Called(e.eventId)] + Times(Called(e.eventId), cfg.maxDeliveries - n - 1));
      steps, g' := steps + more, end;
    }
  }

  lemma TimesZero(fact: Fact)
    ensures Times(fact, 0) == []
  {
  }

  lemma OnceMore(fact: Fact, n: nat)
    requires n > 0
    ensures [fact] + Times(fact, n - 1) == Times(fact, n)
  {
    TimesAdd(fact, n - 1);
  }

  /** The message is claimed, and queued at its worker, behind the delivery that is still
      with the handler. */
  lemma ClaimEarly(cfg: RedisConfig, g: Group, v: nat, m: nat, e: DomainEvent, n: nat) returns (g1: Group, g2: Group)
    requires Trying(cfg, g, v, m, e, n)
    ensures RedisEnabled(cfg, g, Reclaim(m)) && g1 == RedisNext(cfg, g, Reclaim(m))
    ensures RedisEnabled(cfg, g1, Submit) && g2 == RedisNext(cfg, g1, Submit)
    ensures g2 == g.(pending := g.pending[m := n + 1], d := g2.d) && g2.d.workers == g.d.workers
    ensures g2.d.queues == g.d.queues[v := [Item(RoutingKey(e), Delivery(m, e, n + 1))]]
  {
    g1 := RedisNext(cfg, g, Reclaim(m));
    assert g1.fetched == [(m, n + 1)];
    g2 := RedisNext(cfg, g1, Submit);
    var item := Item(RoutingKey(e), Delivery(m, e, n + 1));
    assert [] + [item] == [item];
  }

  /** Taken up and handled, although the message has been acknowledged meanwhile. */
  lemma HandleQueued(cfg: RedisConfig, g: Group, v: nat, job: Delivery)
    requires GroupShape(cfg, g) && v < cfg.pool.n && g.d.workers[v].Idle? && g.d.queues[v] == [Item(RoutingKey(job.event), job)]
    requires job.event.eventId !in g.dedup
    ensures RedisEnabled(cfg, g, Begin(v)) && RedisEnabled(cfg, RedisNext(cfg, g, Begin(v)), Ask(v))
    ensures var g' := RedisNext(cfg, RedisNext(cfg, g, Begin(v)), Ask(v));
            && GroupShape(cfg, g') && InPhase(g', v, Handling) && Job(g', v) == job
            && g' == g.(dedup := g.dedup + {job.event.eventId}, log := g.log + [Called(job.event.eventId)],
                        d := g'.d, phase := g'.phase)
  {
  }

  lemma FailForGood(cfg: RedisConfig, universe: iset<DomainEvent>, g: Group, steps: seq<RedisStep>, rule: Rule, h: Group, v: nat)
    returns (longer: seq<RedisStep>, h': Group)
    requires GroupShape(cfg, g) && Leads(cfg, universe, g, steps, rule, h)
    requires v < cfg.pool.n && InPhase(h, v, Handling) && Job(h, v).count >= cfg.maxDeliveries
    ensures Leads(cfg, universe, g, longer, rule, h')
    ensures var job := Job(h, v);
            && h'.dlq == h.dlq + [Letter(job.message, job.event, job.count)] && h'.log == h.log && h'.stream == h.stream
            && job.event.eventId !in h'.dedup && h'.d.queues == h.d.queues && h'.d.workers == h.d.workers[v := Idle]
  {
    hide Run, RedisExec, HasRoom, RedisEnabled, RedisNext;
    FailAndClear(cfg, h, v);
    longer, h' := HarmlessStep(cfg, universe, g, steps, rule, h, Fail(v));
    longer, h' := HarmlessStep(cfg, universe, g, longer, rule, h', Clear(v));
    BuryAndAck(cfg, h', v);
    longer, h' := HarmlessStep(cfg, universe, g, longer, rule, h', Bury(v));
    longer, h' := HarmlessStep(cfg, universe, g, longer, rule, h', Ack(v));
  }

  /** Without that condition the limit fails, for every event and every limit, though
      nothing is cut short: a message published once is claimed again during its last
      try, because its handler takes longer than the idle period; so it has one call
      more than the limit and two dead letters. */
  lemma CalledTooOften(cfg: RedisConfig, universe: iset<DomainEvent>, e: DomainEvent) returns (steps: seq<RedisStep>, g: Group)
    requires Sane(cfg) && e in universe
    ensures Leads(cfg, universe, NewGroup(cfg), steps, NoOrphans, g) && g.stream == [Envelope(e)]
    ensures g.log == Times(Called(e.eventId), cfg.maxDeliveries + 1)
    ensures g.dlq == [Letter(0, e, cfg.maxDeliveries), Letter(0, e, cfg.maxDeliveries + 1)]
  {
    hide Run, RedisExec, HasRoom, RedisEnabled, RedisNext, Times;
    var v, start, call, max := WorkerFor(cfg.pool, RoutingKey(e)), NewGroup(cfg), Called(e.eventId), cfg.maxDeliveries;
    steps, g := HandleNew(cfg, universe, start, e, NoOrphans);
    assert Trying(cfg, g, v, 0, e, 1) && g.log == [call];
    var more, h := LastTry(cfg, universe, g, v, 0, e, 1, NoOrphans);
    Onwards(cfg, universe, start, steps, NoOrphans, g, more, h);
    OnceMore(call, max);
    steps, g := steps + more, h;
    var g1, g2 := ClaimEarly(cfg, g, v, 0, e, max);
    steps, g := HarmlessStep(cfg, universe, start, steps, NoOrphans, g, Reclaim(0));
    steps, g := HarmlessStep(cfg, universe, start, steps, NoOrphans, g, Submit);
    steps, g := FailForGood(cfg, universe, start, steps, NoOrphans, g, v);
    HandleQueued(cfg, g, v, Delivery(0, e, max + 1));
    steps, g := HarmlessStep(cfg, universe, start, steps, NoOrphans, g, Begin(v));
    steps, g := HarmlessStep(cfg, universe, start, steps, NoOrphans, g, Ask(v));
    steps, g := FailForGood(cfg, universe, start, steps, NoOrphans, g, v);
    OneMoreTime(call, max);
  }

  lemma OneMoreTime(fact: Fact, n: nat)
    ensures Times(fact, n + 1) == Times(fact, n) + [fact]
  {
  }
}
