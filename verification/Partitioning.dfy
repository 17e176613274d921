/** The partitioned dispatcher: n workers, each with a FIFO queue, and keys
    routed to workers by hash.

    `Dispatch` is the value of the dispatcher's fields, `Next` what one step of
    the event loop does to it, and a schedule is any sequence of enabled steps.
    The class at the end is the dispatcher itself, updated in place. */
module Partitioning {
  import opened Basics

  datatype Item<W> = Item(key: string, work: W)

  /** A worker coroutine: waiting in `get`, running an item, or cancelled. */
  datatype Worker<W> = Idle | Busy(item: Item<W>) | Gone

  /** maxsize 0 means an unbounded queue, as for asyncio.Queue; `route` is the
      hash of the key before the reduction modulo n. */
  datatype Config = Config(n: nat, maxsize: nat, route: string -> nat)

  /** `unfinished` is the counter of asyncio.Queue: `put` raises it, `task_done`
      lowers it and `join` waits until it is zero. */
  datatype Dispatch<W> = Dispatch(
    queues: seq<seq<Item<W>>>,
    workers: seq<Worker<W>>,
    unfinished: seq<nat>,
    processed: seq<int>,
    failed: seq<int>,
    reprocessed: nat,
    inflight: int)

  /** A dispatcher together with what has happened to it: the items that entered
      a queue, the items a worker started, and how many were cancelled half-way. */
  datatype History<W> = History(d: Dispatch<W>, entered: seq<Item<W>>, started: seq<Item<W>>, cancelled: nat)

  datatype Step<W> =
    | Announce(reprocess: bool)         // a submission begins
    | Put(item: Item<W>)                // ... and its item enters the queue
    | Take(worker: nat)
    | Return(worker: nat)               // the work returned
    | Raise(worker: nat)                // the work raised
    | Cancel(worker: nat)               // the worker's task was cancelled

  function WorkerFor(cfg: Config, key: string): (w: nat)
    requires cfg.n >= 1
    ensures w < cfg.n
  {
    cfg.route(key) % cfg.n
  }

  /** Keys share a worker exactly when their hashes differ by a multiple of the number of
      workers, and the worker is what is left of the hash. */
  lemma KeysShareWorkerExactly(cfg: Config, a: string, b: string)
    requires cfg.n >= 1
    ensures exists q: nat :: cfg.route(a) == q * cfg.n + WorkerFor(cfg, a)
    ensures WorkerFor(cfg, a) == WorkerFor(cfg, b) <==> exists q: int :: cfg.route(a) == cfg.route(b) + q * cfg.n
  {
    var n, x, y := cfg.n, cfg.route(a), cfg.route(b);
    Quotient(x, n);
    assert x == x / n * n + WorkerFor(cfg, a);
    if x % n == y % n {
      Difference(x, y, n);
    }
    if q: int :| x == y + q * n {
      SameRemainder(x, y, q, n);
    }
  }

  lemma Quotient(x: nat, n: nat)
    requires n >= 1
    ensures x == x / n * n + x % n && x / n >= 0
  {
  }

  lemma Difference(x: nat, y: nat, n: nat)
    requires n >= 1 && x % n == y % n
    ensures x == y + (x / n - y / n) * n
  {
    Quotient(x, n);
    Quotient(y, n);
    var p, q := x / n, y / n;
    assert (p - q) * n == p * n - q * n;
  }

  lemma SameRemainder(x: nat, y: nat, q: int, n: nat)
    requires n >= 1 && x == y + q * n
    ensures x % n == y % n
  {
    Quotient(x, n);
    Quotient(y, n);
    var a, b := x / n, y / n;
    assert (a - b - q) * n == a * n - b * n - q * n;
    MultipleIsFar(a - b - q, n);
  }

  lemma MultipleIsFar(d: int, n: nat)
    ensures d == 0 || d * n >= n || d * n <= 0 - n
  {
    if d >= 1 {
      assert d * n >= n;
    } else if d <= -1 {
      assert d * n <= 0 - n;
    }
  }

  function Start<W>(cfg: Config): History<W> {
    History(
      Dispatch(
        seq(cfg.n, _ => []), seq(cfg.n, _ => Idle), seq(cfg.n, _ => 0), seq(cfg.n, _ => 0), seq(cfg.n, _ => 0), 0, 0),
      [], [], 0)
  }

  predicate Shape<W>(cfg: Config, d: Dispatch<W>) {
    && cfg.n >= 1
    && |d.queues| == |d.workers| == |d.unfinished| == |d.processed| == |d.failed| == cfg.n
  }

  predicate HasRoom<W>(cfg: Config, d: Dispatch<W>, key: string)
    requires Shape(cfg, d)
  {
    cfg.maxsize == 0 || |d.queues[WorkerFor(cfg, key)]| < cfg.maxsize
  }

  predicate Enabled<W>(cfg: Config, d: Dispatch<W>, step: Step<W>)
    requires Shape(cfg, d)
  {
    match step
    case Announce(_) => true
    case Put(item) => HasRoom(cfg, d, item.key)
    case Take(w) => w < cfg.n && d.workers[w].Idle? && d.queues[w] != []
    case Return(w) => w < cfg.n && d.workers[w].Busy?
    case Raise(w) => w < cfg.n && d.workers[w].Busy?
    case Cancel(w) => w < cfg.n && !d.workers[w].Gone?
  }

  /** `task_done`, which raises instead of going below zero. */
  function TaskDone(count: nat): nat {
    if count == 0 then 0 else count - 1
  }

  function NextDispatch<W>(cfg: Config, d: Dispatch<W>, step: Step<W>): (d': Dispatch<W>)
    requires Shape(cfg, d) && Enabled(cfg, d, step)
    ensures Shape(cfg, d')
  {
    match step
    case Announce(again) => d.(reprocessed := d.reprocessed + if again then 1 else 0)
    case Put(item) =>
      var w := WorkerFor(cfg, item.key);
      d.(queues := d.queues[w := d.queues[w] + [item]], unfinished := d.unfinished[w := d.unfinished[w] + 1])
    case Take(w) =>
      d.(queues := d.queues[w := d.queues[w][1..]],
         workers := d.workers[w := Busy(d.queues[w][0])],
         inflight := d.inflight + 1)
    case Return(w) =>
      d.(workers := d.workers[w := Idle],
         processed := d.processed[w := d.processed[w] + 1],
         inflight := d.inflight - 1,
         unfinished := d.unfinished[w := TaskDone(d.unfinished[w])])
    case Raise(w) =>
      d.(workers := d.workers[w := Idle],
         failed := d.failed[w := d.failed[w] + 1],
         inflight := d.inflight - 1,
         unfinished := d.unfinished[w := TaskDone(d.unfinished[w])])
    case Cancel(w) =>
      // a running item is given back twice: by the except clause and by the
      // finally clause
      if d.workers[w].Idle? then d.(workers := d.workers[w := Gone])
      else d.(workers := d.workers[w := Gone],
              inflight := d.inflight - 2,
              unfinished := d.unfinished[w := TaskDone(TaskDone(d.unfinished[w]))])
  }

  function Next<W>(cfg: Config, h: History<W>, step: Step<W>): (h': History<W>)
    requires Shape(cfg, h.d) && Enabled(cfg, h.d, step)
    ensures Shape(cfg, h'.d)
  {
    var d := h.d;
    var d' := NextDispatch(cfg, d, step);
    match step
    case Put(item) => h.(d := d', entered := h.entered + [item])
    case Take(w) => h.(d := d', started := h.started + [d.queues[w][0]])
    case Cancel(w) => h.(d := d', cancelled := h.cancelled + if d.workers[w].Busy? then 1 else 0)
    case _ => h.(d := d')
  }

  /** The history a schedule leads to; None if one of its steps is not enabled. */
  function After<W>(cfg: Config, steps: seq<Step<W>>): (r: Option<History<W>>)
    requires cfg.n >= 1
    ensures r.Some? ==> Shape(cfg, r.value.d)
  {
    if steps == [] then Some(Start(cfg))
    else
      var before := After(cfg, steps[..|steps| - 1]);
      var step := steps[|steps| - 1];
      if before.Some? && Enabled(cfg, before.value.d, step) then Some(Next(cfg, before.value, step)) else None
  }

  // ---------------------------------------------------------------- invariant

  /** The works of one key, in order. */
  function OfKey<W>(items: seq<Item<W>>, key: string): seq<W> {
    if items == [] then []
    else (if items[0].key == key then [items[0].work] else []) + OfKey(items[1..], key)
  }

  function QueueLength<W>(queue: seq<Item<W>>): int { |queue| }

  function BusyUnit<W>(worker: Worker<W>): int { if worker.Busy? then 1 else 0 }

  function Count(n: int): int { n }

  ghost predicate Routed<W>(cfg: Config, d: Dispatch<W>)
    requires Shape(cfg, d)
  {
    && (forall w, i :: 0 <= w < cfg.n && 0 <= i < |d.queues[w]| ==> WorkerFor(cfg, d.queues[w][i].key) == w)
    && (forall w :: 0 <= w < cfg.n && d.workers[w].Busy? ==> WorkerFor(cfg, d.workers[w].item.key) == w)
  }

  ghost predicate FifoPerKey<W>(cfg: Config, h: History<W>)
    requires Shape(cfg, h.d)
  {
    forall key :: FifoAt(cfg, h, key)
  }

  ghost predicate FifoAt<W>(cfg: Config, h: History<W>, key: string)
    requires Shape(cfg, h.d)
  {
    OfKey(h.entered, key) == OfKey(h.started, key) + OfKey(h.d.queues[WorkerFor(cfg, key)], key)
  }

  /** Accepted work is queued, in flight, processed or failed. A cancelled worker
      takes two units out of this account. */
  ghost predicate Balanced<W>(h: History<W>) {
    && |h.entered| == SumOf(h.d.queues, QueueLength) + h.d.inflight
                      + SumOf(h.d.processed, Count) + SumOf(h.d.failed, Count) + 2 * h.cancelled
    && h.d.inflight == SumOf(h.d.workers, BusyUnit) - h.cancelled
  }

  ghost predicate JoinCounts<W>(cfg: Config, d: Dispatch<W>)
    requires Shape(cfg, d)
  {
    forall w :: 0 <= w < cfg.n && !d.workers[w].Gone? ==> d.unfinished[w] == |d.queues[w]| + BusyUnit(d.workers[w])
  }

  ghost predicate Inv<W>(cfg: Config, h: History<W>) {
    && Shape(cfg, h.d)
    && Routed(cfg, h.d)
    && FifoPerKey(cfg, h)
    && Balanced(h)
    && JoinCounts(cfg, h.d)
    && (h.cancelled > 0 ==> exists w :: 0 <= w < cfg.n && h.d.workers[w].Gone?)
  }

  lemma {:induction false} OfKeyAppend<W>(s: seq<Item<W>>, t: seq<Item<W>>, key: string)
    ensures OfKey(s + t, key) == OfKey(s, key) + OfKey(t, key)
  {
    if s == [] {
      assert s + t == t;
    } else {
      var first := if s[0].key == key then [s[0].work] else [];
      calc {
        OfKey(s + t, key);
        { assert (s + t)[0] == s[0] && (s + t)[1..] == s[1..] + t; }
        first + OfKey(s[1..] + t, key);
        { OfKeyAppend(s[1..], t, key); }
        first + (OfKey(s[1..], key) + OfKey(t, key));
        first + OfKey(s[1..], key) + OfKey(t, key);
        OfKey(s, key) + OfKey(t, key);
      }
    }
  }

  lemma StartInv<W>(cfg: Config)
    requires cfg.n >= 1
    ensures Inv(cfg, Start<W>(cfg))
  {
    var h := Start<W>(cfg);
    SumOfZero(h.d.queues, QueueLength);
    SumOfZero(h.d.workers, BusyUnit);
    SumOfZero(h.d.processed, Count);
    SumOfZero(h.d.failed, Count);
  }

  lemma FifoKept<W>(cfg: Config, h: History<W>, step: Step<W>, key: string)
    requires Shape(cfg, h.d) && Routed(cfg, h.d) && Enabled(cfg, h.d, step)
    requires FifoAt(cfg, h, key)
    ensures FifoAt(cfg, Next(cfg, h, step), key)
  {
    match step
    case Put(item) =>
      OfKeyAppend(h.entered, [item], key);
      OfKeyAppend(h.d.queues[WorkerFor(cfg, key)], [item], key);
    case Take(v) => FifoTake(cfg, h, v, key);
    case _ =>
  }

  lemma FifoTake<W>(cfg: Config, h: History<W>, v: nat, key: string)
    requires Shape(cfg, h.d) && Routed(cfg, h.d) && Enabled(cfg, h.d, Take(v))
    requires FifoAt(cfg, h, key)
    ensures FifoAt(cfg, Next(cfg, h, Take(v)), key)
  {
    hide OfKey;
    var queue := h.d.queues[v];
    assert WorkerFor(cfg, queue[0].key) == v;
    OfKeyAppend(h.started, [queue[0]], key);
    OfKeyAppend([queue[0]], queue[1..], key);
    OfOtherKey(queue[0], key);
    assert [queue[0]] + queue[1..] == queue;
    var before, more, after := OfKey(h.started, key), OfKey([queue[0]], key), OfKey(queue[1..], key);
    assert before + (more + after) == before + more + after;
  }

  lemma OfOtherKey<W>(item: Item<W>, key: string)
    ensures item.key != key ==> OfKey([item], key) == []
  {
  }

  lemma BalanceKept<W>(cfg: Config, h: History<W>, step: Step<W>)
    requires Shape(cfg, h.d) && Balanced(h) && Enabled(cfg, h.d, step)
    ensures Balanced(Next(cfg, h, step))
  {
    hide HasRoom;
    var d := h.d;
    match step
    case Announce(_) =>
    case Put(item) =>
      var w := WorkerFor(cfg, item.key);
      SumOfUpdate(d.queues, w, d.queues[w] + [item], QueueLength);
    case Take(w) =>
      SumOfUpdate(d.queues, w, d.queues[w][1..], QueueLength);
      SumOfUpdate(d.workers, w, Busy(d.queues[w][0]), BusyUnit);
    case Return(w) => EndBalanced(cfg, h, w, false);
    case Raise(w) => EndBalanced(cfg, h, w, true);
    case Cancel(w) =>
      SumOfUpdate(d.workers, w, Gone, BusyUnit);
  }

  lemma EndBalanced<W>(cfg: Config, h: History<W>, w: nat, raised: bool)
    requires Shape(cfg, h.d) && Balanced(h) && Enabled(cfg, h.d, Return(w))
    ensures Balanced(Next(cfg, h, if raised then Raise(w) else Return(w)))
  {
    hide HasRoom;
    var d := h.d;
    SumOfUpdate(d.workers, w, Idle, BusyUnit);
    SumOfUpdate(d.processed, w, d.processed[w] + 1, Count);
    SumOfUpdate(d.failed, w, d.failed[w] + 1, Count);
  }

  lemma RoutedKept<W>(cfg: Config, d: Dispatch<W>, step: Step<W>)
    requires Shape(cfg, d) && Routed(cfg, d) && Enabled(cfg, d, step)
    ensures Routed(cfg, NextDispatch(cfg, d, step))
  {
    var d' := NextDispatch(cfg, d, step);
    forall w, i | 0 <= w < cfg.n && 0 <= i < |d'.queues[w]|
      ensures WorkerFor(cfg, d'.queues[w][i].key) == w
    {
      if step.Take? && w == step.worker {
        assert d'.queues[w][i] == d.queues[w][i + 1];
      }
    }
  }

  lemma JoinCountsKept<W>(cfg: Config, d: Dispatch<W>, step: Step<W>)
    requires Shape(cfg, d) && JoinCounts(cfg, d) && Enabled(cfg, d, step)
    ensures JoinCounts(cfg, NextDispatch(cfg, d, step))
  {
  }

  lemma NextInv<W>(cfg: Config, h: History<W>, step: Step<W>)
    requires Inv(cfg, h) && Enabled(cfg, h.d, step)
    ensures Inv(cfg, Next(cfg, h, step))
  {
    forall key ensures FifoAt(cfg, Next(cfg, h, step), key) {
      FifoKept(cfg, h, step, key);
    }
    BalanceKept(cfg, h, step);
    RoutedKept(cfg, h.d, step);
    JoinCountsKept(cfg, h.d, step);
    CancelledKept(cfg, h, step);
  }

  lemma CancelledKept<W>(cfg: Config, h: History<W>, step: Step<W>)
    requires Shape(cfg, h.d) && Enabled(cfg, h.d, step)
    requires h.cancelled > 0 ==> exists w :: 0 <= w < cfg.n && h.d.workers[w].Gone?
    ensures Next(cfg, h, step).cancelled > 0 ==> exists w :: 0 <= w < cfg.n && Next(cfg, h, step).d.workers[w].Gone?
  {
    var h' := Next(cfg, h, step);
    if step.Cancel? {
      assert h'.d.workers[step.worker].Gone?;
    } else if h.cancelled > 0 {
      var w :| 0 <= w < cfg.n && h.d.workers[w].Gone?;
      assert h'.d.workers[w].Gone?;
    }
  }

  lemma {:induction false} ReachableInv<W>(cfg: Config, steps: seq<Step<W>>)
    requires cfg.n >= 1 && After(cfg, steps).Some?
    ensures Inv(cfg, After(cfg, steps).value)
  {
    if steps == [] {
      StartInv<W>(cfg);
    } else {
      var init := steps[..|steps| - 1];
      ReachableInv(cfg, init);
      NextInv(cfg, After(cfg, init).value, steps[|steps| - 1]);
    }
  }

  // ---------------------------------------------------------------- main results

  /** What the dispatcher looks like to one key: a FIFO with one server. */
  datatype KeyFifo<W> = KeyFifo(waiting: seq<W>, serving: Option<W>)

  function ViewOf<W>(cfg: Config, d: Dispatch<W>, key: string): KeyFifo<W>
    requires Shape(cfg, d)
  {
    var w := WorkerFor(cfg, key);
    KeyFifo(
      OfKey(d.queues[w], key),
      if d.workers[w].Busy? && d.workers[w].item.key == key then Some(d.workers[w].item.work) else None)
  }

  /** The same step as one key's own FIFO takes it: a step of another key is no
      step at all. */
  ghost predicate FifoStep<W>(cfg: Config, d: Dispatch<W>, step: Step<W>, key: string, q: KeyFifo<W>, q': KeyFifo<W>)
    requires Shape(cfg, d) && Enabled(cfg, d, step)
  {
    match step
    case Announce(_) => q' == q
    case Put(item) => q' == if item.key == key then q.(waiting := q.waiting + [item.work]) else q
    case Take(w) =>
      if d.queues[w][0].key == key
      then q.serving.None? && q.waiting != [] && q' == KeyFifo(q.waiting[1..], Some(q.waiting[0]))
      else q' == q
    case _ =>
      if d.workers[step.worker].Busy? && d.workers[step.worker].item.key == key
      then q.serving.Some? && q' == q.(serving := None)
      else q' == q
  }

  /** The pool refines one independent FIFO per key, whatever the hash does. */
  lemma RefinesKeyFifos<W>(cfg: Config, steps: seq<Step<W>>, step: Step<W>, key: string)
    requires cfg.n >= 1 && After(cfg, steps).Some? && Enabled(cfg, After(cfg, steps).value.d, step)
    ensures var d := After(cfg, steps).value.d;
            FifoStep(cfg, d, step, key, ViewOf(cfg, d, key), ViewOf(cfg, NextDispatch(cfg, d, step), key))
  {
    ReachableInv(cfg, steps);
    StepRefines(cfg, After(cfg, steps).value.d, step, key);
  }

  lemma StepRefines<W>(cfg: Config, d: Dispatch<W>, step: Step<W>, key: string)
    requires Shape(cfg, d) && Routed(cfg, d) && Enabled(cfg, d, step)
    ensures FifoStep(cfg, d, step, key, ViewOf(cfg, d, key), ViewOf(cfg, NextDispatch(cfg, d, step), key))
  {
    var w := WorkerFor(cfg, key);
    match step
    case Put(item) =>
      OfKeyAppend(d.queues[w], [item], key);
    case Take(v) =>
      assert WorkerFor(cfg, d.queues[v][0].key) == v;
    case Cancel(v) =>
      assert d.workers[v].Busy? ==> WorkerFor(cfg, d.workers[v].item.key) == v;
    case Announce(_) =>
    case _ =>
      assert WorkerFor(cfg, d.workers[step.worker].item.key) == step.worker;
  }

  /** For every schedule: the items of a key start in the order in which they
      entered, and two busy workers never hold items of the same key. */
  lemma OrderPerKey<W>(cfg: Config, steps: seq<Step<W>>, key: string)
    requires cfg.n >= 1 && After(cfg, steps).Some?
    ensures OfKey(After(cfg, steps).value.started, key) <= OfKey(After(cfg, steps).value.entered, key)
    ensures var d := After(cfg, steps).value.d;
            forall v, w :: 0 <= v < w < cfg.n && d.workers[v].Busy? && d.workers[w].Busy?
                           ==> d.workers[v].item.key != d.workers[w].item.key
  {
    ReachableInv(cfg, steps);
    assert FifoAt(cfg, After(cfg, steps).value, key);
  }

  /** The four counters account for all accepted work if and only if no worker
      was cancelled in the middle of an item. */
  lemma AccountsForAllWork<W>(cfg: Config, steps: seq<Step<W>>)
    requires cfg.n >= 1 && After(cfg, steps).Some?
    ensures var h := After(cfg, steps).value;
            |h.entered| == SumOf(h.d.queues, QueueLength) + h.d.inflight
                           + SumOf(h.d.processed, Count) + SumOf(h.d.failed, Count)
            <==> h.cancelled == 0
  {
    ReachableInv(cfg, steps);
  }

  lemma CountersStep<W>(cfg: Config, d: Dispatch<W>, step: Step<W>)
    requires Shape(cfg, d) && Enabled(cfg, d, step)
    ensures var d' := NextDispatch(cfg, d, step);
            && (forall w :: 0 <= w < cfg.n ==>
                  && d'.processed[w] == d.processed[w] + (if step == Return(w) then 1 else 0)
                  && d'.failed[w] == d.failed[w] + if step == Raise(w) then 1 else 0)
            && d'.reprocessed == d.reprocessed + if step == Announce(true) then 1 else 0
  {
    hide HasRoom;
  }

  /** Each worker's counters say how often its work returned and how often it raised;
      cancelled work is in neither. */
  lemma {:induction false} CountersTellOutcomes<W>(cfg: Config, steps: seq<Step<W>>)
    requires cfg.n >= 1 && After(cfg, steps).Some?
    ensures var d := After(cfg, steps).value.d;
            && (forall w :: 0 <= w < cfg.n ==>
                  d.processed[w] == multiset(steps)[Return(w)] && d.failed[w] == multiset(steps)[Raise(w)])
            && d.reprocessed == multiset(steps)[Announce(true)]
  {
    if steps == [] {
    } else {
      var init, last := steps[..|steps| - 1], steps[|steps| - 1];
      CountersTellOutcomes(cfg, init);
      CountersStep(cfg, After(cfg, init).value.d, last);
      hide NextDispatch, Enabled;
      assert steps == init + [last];
    }
  }

  /** `join` returning means that everything accepted has been run, in any
      schedule that cancelled no running item and no worker. */
  lemma JoinMeansDone<W>(cfg: Config, steps: seq<Step<W>>)
    requires cfg.n >= 1 && After(cfg, steps).Some?
    requires var d := After(cfg, steps).value.d;
             forall w :: 0 <= w < cfg.n ==> d.unfinished[w] == 0 && !d.workers[w].Gone?
    ensures var h := After(cfg, steps).value;
            && |h.entered| == SumOf(h.d.processed, Count) + SumOf(h.d.failed, Count)
            && (forall key :: OfKey(h.started, key) == OfKey(h.entered, key))
  {
    ReachableInv(cfg, steps);
    var h := After(cfg, steps).value;
    forall w | 0 <= w < cfg.n
      ensures h.d.queues[w] == [] && !h.d.workers[w].Busy?
    {
      assert h.d.unfinished[w] == 0;
    }
    SumOfZero(h.d.queues, QueueLength);
    SumOfZero(h.d.workers, BusyUnit);
    forall key ensures OfKey(h.started, key) == OfKey(h.entered, key) {
      assert FifoAt(cfg, h, key);
    }
  }

  /** What has entered and what has started only grows. */
  lemma {:induction false} HistoryGrows<W>(cfg: Config, steps: seq<Step<W>>, t: nat)
    requires cfg.n >= 1 && After(cfg, steps).Some? && t <= |steps|
    ensures After(cfg, steps[..t]).Some?
    ensures After(cfg, steps[..t]).value.entered <= After(cfg, steps).value.entered
    ensures After(cfg, steps[..t]).value.started <= After(cfg, steps).value.started
    decreases |steps|
  {
    if t == |steps| {
      assert steps[..t] == steps;
    } else {
      var init := steps[..|steps| - 1];
      HistoryGrows(cfg, init, t);
      assert init[..t] == steps[..t];
      NextGrows(cfg, After(cfg, init).value, steps[|steps| - 1]);
    }
  }

  lemma NextGrows<W>(cfg: Config, h: History<W>, step: Step<W>)
    requires Shape(cfg, h.d) && Enabled(cfg, h.d, step)
    ensures h.entered <= Next(cfg, h, step).entered && h.started <= Next(cfg, h, step).started
  {
    hide NextDispatch;
  }

  lemma OfKeyPrefix<W>(s: seq<Item<W>>, t: seq<Item<W>>, key: string)
    requires s <= t
    ensures OfKey(s, key) <= OfKey(t, key)
  {
    assert t == s + t[|s|..];
    OfKeyAppend(s, t[|s|..], key);
  }

  /** `join` waits for each queue on its own: queue w may be empty at one moment
      at[w] and the others at other moments, with new work coming in all the time. When
      it returns, all work that entered before it was called has been run: at that
      moment the worker of its key was through with everything, this work included. */
  lemma JoinCoversEarlierWork<W>(cfg: Config, steps: seq<Step<W>>, called: nat, at: seq<nat>, key: string)
    requires cfg.n >= 1 && After(cfg, steps).Some? && called <= |steps| && |at| == cfg.n
    requires forall w :: 0 <= w < cfg.n ==> called <= at[w] <= |steps|
    requires forall w :: 0 <= w < cfg.n ==>
               After(cfg, steps[..at[w]]).Some?
               && var d := After(cfg, steps[..at[w]]).value.d; d.unfinished[w] == 0 && !d.workers[w].Gone?
    ensures After(cfg, steps[..called]).Some?
    ensures var w := WorkerFor(cfg, key);
            var before, moment, end := After(cfg, steps[..called]).value, After(cfg, steps[..at[w]]).value, After(cfg, steps).value;
            && OfKey(before.entered, key) <= OfKey(moment.started, key) <= OfKey(end.started, key)
            && moment.d.queues[w] == [] && moment.d.workers[w].Idle?
  {
    hide After;
    var w := WorkerFor(cfg, key);
    var upTo := steps[..at[w]];
    HistoryGrows(cfg, steps, at[w]);
    HistoryGrows(cfg, upTo, called);
    assert upTo[..called] == steps[..called];
    ReachableInv(cfg, upTo);
    var moment := After(cfg, upTo).value;
    assert moment.d.unfinished[w] == 0;
    assert FifoAt(cfg, moment, key);
    assert OfKey(moment.started, key) + [] == OfKey(moment.started, key);
    OfKeyPrefix(After(cfg, steps[..called]).value.entered, moment.entered, key);
    OfKeyPrefix(moment.started, After(cfg, steps).value.started, key);
  }

  /** Cancelling a running worker makes `join` blind to a queued item exactly when
      one item was waiting behind it. */
  lemma CancelHidesOneItem<W>(cfg: Config, steps: seq<Step<W>>, w: nat)
    requires cfg.n >= 1 && After(cfg, steps).Some?
    requires w < cfg.n && After(cfg, steps).value.d.workers[w].Busy?
    ensures var d := After(cfg, steps).value.d;
            var d' := NextDispatch(cfg, d, Cancel(w));
            (d'.unfinished[w] == 0 && d'.queues[w] != []) <==> |d.queues[w]| == 1
  {
    hide After, Routed, FifoPerKey, Balanced, HasRoom;
    ReachableInv(cfg, steps);
    CancelSubtractsTwo(cfg, After(cfg, steps).value.d, w);
  }

  lemma CancelSubtractsTwo<W>(cfg: Config, d: Dispatch<W>, w: nat)
    requires Shape(cfg, d) && JoinCounts(cfg, d) && w < cfg.n && d.workers[w].Busy?
    ensures d.unfinished[w] == |d.queues[w]| + 1
    ensures var d' := NextDispatch(cfg, d, Cancel(w));
            d'.queues[w] == d.queues[w] && (d'.unfinished[w] == 0 <==> d.unfinished[w] <= 2)
  {
  }

  // ---------------------------------------------------------------- the object

  class PartitionedDispatcher<W> {
    const cfg: Config
    var queues: seq<seq<Item<W>>>
    var workers: seq<Worker<W>>
    var unfinished: seq<nat>
    var processed: seq<int>
    var failed: seq<int>
    var reprocessed: nat
    var inflight: int

    ghost function View(): Dispatch<W>
      reads this
    {
      Dispatch(queues, workers, unfinished, processed, failed, reprocessed, inflight)
    }

    ghost predicate Valid()
      reads this
    {
      Shape(cfg, View())
    }

    constructor (n: nat, maxsize: nat, route: string -> nat)
      requires n >= 1
      ensures Valid() && cfg == Config(n, maxsize, route)
      ensures View() == Start<W>(cfg).d
    {
      cfg := Config(n, maxsize, route);
      queues := seq(n, _ => []);
      workers := seq(n, _ => Idle);
      unfinished := seq(n, _ => 0);
      processed := seq(n, _ => 0);
      failed := seq(n, _ => 0);
      reprocessed, inflight := 0, 0;
    }

    /** The first half of `submit`, up to the wait for room in the queue. */
    method BeginSubmit(reprocess: bool)
      requires Valid()
      modifies this
      ensures Valid() && View() == NextDispatch(cfg, old(View()), Announce(reprocess))
    {
      if reprocess {
        reprocessed := reprocessed + 1;
      }
    }

    /** The second half of `submit`, once the queue has room. */
    method Enqueue(key: string, work: W)
      requires Valid() && HasRoom(cfg, View(), key)
      modifies this
      ensures Valid() && View() == NextDispatch(cfg, old(View()), Put(Item(key, work)))
    {
      var w := WorkerFor(cfg, key);
      queues := queues[w := queues[w] + [Item(key, work)]];
      unfinished := unfinished[w := unfinished[w] + 1];
    }

    /** One turn of the worker loop up to the call of the work. */
    method Get(w: nat) returns (item: Item<W>)
      requires Valid() && Enabled(cfg, View(), Take(w))
      modifies this
      ensures Valid() && View() == NextDispatch(cfg, old(View()), Take(w))
      ensures item == old(queues[w][0]) && workers[w] == Busy(item)
    {
      item := queues[w][0];
      queues := queues[w := queues[w][1..]];
      workers := workers[w := Busy(item)];
      inflight := inflight + 1;
    }

    /** The rest of the turn: the work returned, or raised. */
    method Finish(w: nat, raised: bool)
      requires Valid() && Enabled(cfg, View(), Return(w))
      modifies this
      ensures Valid() && View() == NextDispatch(cfg, old(View()), if raised then Raise(w) else Return(w))
    {
      if raised {
        failed := failed[w := failed[w] + 1];
      } else {
        processed := processed[w := processed[w] + 1];
      }
      workers := workers[w := Idle];
      inflight := inflight - 1;
      unfinished := unfinished[w := TaskDone(unfinished[w])];
    }

    /** The coroutine of worker w is cancelled. */
    method CancelWorker(w: nat)
      requires Valid() && Enabled(cfg, View(), Cancel(w))
      modifies this
      ensures Valid() && View() == NextDispatch(cfg, old(View()), Cancel(w))
    {
      if workers[w].Busy? {
        inflight := inflight - 1;
        unfinished := unfinished[w := TaskDone(unfinished[w])];
        inflight := inflight - 1;
        unfinished := unfinished[w := TaskDone(unfinished[w])];
      }
      workers := workers[w := Gone];
    }
  }
}
