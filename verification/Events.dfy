/** The event envelope and what a delivery log promises. */
module Events {
  import opened Basics
  import opened Partitioning

  datatype DomainEvent = DomainEvent(
    eventId: string,
    partitionKey: Option<string>,
    correlationId: string,
    causationId: Option<string>,
    payload: string)

  ghost const ALL_EVENTS: iset<DomainEvent> := iset e: DomainEvent | true

  /** An absent or empty partition key falls back to the event's own id. */
  function RoutingKey(e: DomainEvent): string {
    if e.partitionKey.Some? && e.partitionKey.value != "" then e.partitionKey.value else e.eventId
  }

  function Follows(e: DomainEvent, cause: DomainEvent): DomainEvent {
    e.(correlationId := cause.correlationId, causationId := Some(cause.eventId))
  }

  /** Events that may be told apart by nothing the buses look at: the same id and
      the same worker. */
  ghost predicate IdsShareWorker(cfg: Config, universe: iset<DomainEvent>)
    requires cfg.n >= 1
  {
    forall a, b :: a in universe && b in universe && a.eventId == b.eventId
                   ==> WorkerFor(cfg, RoutingKey(a)) == WorkerFor(cfg, RoutingKey(b))
  }

  /** Deriving an envelope keeps its id and its route, so closing a set of events
      under `Follows` cannot separate an id from its worker. */
  lemma FollowsKeepsIdsShareWorker(cfg: Config, universe: iset<DomainEvent>)
    requires cfg.n >= 1
    ensures IdsShareWorker(cfg, universe) <==>
            IdsShareWorker(cfg, universe + iset e, cause | e in universe && cause in universe :: Follows(e, cause))
  {
    var closed := universe + iset e, cause | e in universe && cause in universe :: Follows(e, cause);
    if IdsShareWorker(cfg, universe) {
      forall a, b | a in closed && b in closed && a.eventId == b.eventId
        ensures WorkerFor(cfg, RoutingKey(a)) == WorkerFor(cfg, RoutingKey(b))
      {
        var a0 :| a0 in universe && a0.eventId == a.eventId && RoutingKey(a0) == RoutingKey(a);
        var b0 :| b0 in universe && b0.eventId == b.eventId && RoutingKey(b0) == RoutingKey(b);
      }
    }
    if IdsShareWorker(cfg, closed) {
      assert forall e :: e in universe ==> e in closed;
    }
  }

  /** An envelope derived from another derived from the first, and so on. */
  function Chain(first: DomainEvent, later: seq<DomainEvent>): (events: seq<DomainEvent>)
    ensures |events| == |later| + 1
  {
    if later == [] then [first]
    else var before := Chain(first, later[..|later| - 1]); before + [Follows(later[|later| - 1], before[|before| - 1])]
  }

  /** A whole causal chain carries one correlation, every envelope names the one before as
      its cause, and nothing else of an envelope changes. */
  lemma {:induction false} ChainsAreCorrelated(first: DomainEvent, later: seq<DomainEvent>)
    ensures var chain := Chain(first, later);
            && chain[0] == first && (forall i :: 0 <= i < |chain| ==> chain[i].correlationId == first.correlationId)
            && forall i :: 0 < i < |chain| ==>
                 && chain[i].causationId == Some(chain[i - 1].eventId) && chain[i].eventId == later[i - 1].eventId
                 && chain[i].partitionKey == later[i - 1].partitionKey && chain[i].payload == later[i - 1].payload
  {
    if later != [] {
      ChainsAreCorrelated(first, later[..|later| - 1]);
    }
  }

  // ---------------------------------------------------------------- partitions

  /** The event is of this partition: it carries the key itself. */
  predicate InPartition(e: DomainEvent, key: string) { key != "" && e.partitionKey == Some(key) }

  /** The event has no partition and is one of its own. */
  predicate Alone(e: DomainEvent) { e.partitionKey == None || e.partitionKey == Some("") }

  /** Those of the items that belong to a partition, in order. */
  function OfPartition<T>(items: seq<T>, event: T -> DomainEvent, key: string): seq<T> {
    if items == [] then []
    else
      var init, last := OfPartition(items[..|items| - 1], event, key), items[|items| - 1];
      if InPartition(event(last), key) then init + [last] else init
  }

  lemma {:induction false} OfPartitionAppend<T>(a: seq<T>, b: seq<T>, event: T -> DomainEvent, key: string)
    ensures OfPartition(a + b, event, key) == OfPartition(a, event, key) + OfPartition(b, event, key)
    decreases |b|
  {
    if b == [] {
      assert a + b == a;
    } else {
      assert (a + b)[..|a + b| - 1] == a + b[..|b| - 1];
      OfPartitionAppend(a, b[..|b| - 1], event, key);
    }
  }

  lemma OfPartitionOne<T>(item: T, event: T -> DomainEvent, key: string)
    ensures OfPartition([item], event, key) == if InPartition(event(item), key) then [item] else []
  {
    assert [item][..0] == [];
  }

  /** Where the events of a partition go, and where an event without one goes. */
  lemma RouteIsPartition(e: DomainEvent)
    ensures forall key :: InPartition(e, key) ==> RoutingKey(e) == key
    ensures Alone(e) ==> RoutingKey(e) == e.eventId
    ensures Alone(e) || exists key :: InPartition(e, key)
  {
    if !Alone(e) {
      assert InPartition(e, e.partitionKey.value);
    }
  }

  /** The worker that the event's own fields name. */
  ghost predicate AtItsWorker(pool: Config, e: DomainEvent, w: nat)
    requires pool.n >= 1
  {
    && (forall key :: InPartition(e, key) ==> w == WorkerFor(pool, key))
    && (Alone(e) ==> w == WorkerFor(pool, e.eventId))
  }

  lemma RoutedAt(pool: Config, e: DomainEvent)
    requires pool.n >= 1
    ensures AtItsWorker(pool, e, WorkerFor(pool, RoutingKey(e)))
  {
    hide RoutingKey, WorkerFor;
    RouteIsPartition(e);
  }

  lemma NoneOfPartition<T>(event: T -> DomainEvent, key: string)
    ensures OfPartition<T>([], event, key) == []
  {
  }

  /** A worker takes the head of its queue; for a partition with another worker nothing
      changes. */
  lemma BeginsFirst<T>(pool: Config, queue: seq<T>, queue': seq<T>, head: T, event: T -> DomainEvent, w: nat, key: string)
    requires pool.n >= 1 && AtItsWorker(pool, event(head), w)
    requires if w == WorkerFor(pool, key) then queue == [head] + queue' else queue' == queue
    ensures OfPartition(queue, event, key) == OfPartition([head], event, key) + OfPartition(queue', event, key)
  {
    hide OfPartition, WorkerFor;
    OfPartitionOne(head, event, key);
    OfPartitionAppend([head], queue', event, key);
  }

  /** And what is submitted goes to the end of the queue of its own worker. */
  lemma EntersLast<T>(pool: Config, queue: seq<T>, queue': seq<T>, item: T, event: T -> DomainEvent, key: string)
    requires pool.n >= 1
    requires if WorkerFor(pool, RoutingKey(event(item))) == WorkerFor(pool, key) then queue' == queue + [item] else queue' == queue
    ensures OfPartition(queue, event, key) + OfPartition([item], event, key) == OfPartition(queue', event, key)
  {
    hide OfPartition, WorkerFor, RoutingKey;
    RouteIsPartition(event(item));
    OfPartitionOne(item, event, key);
    OfPartitionAppend(queue, [item], event, key);
  }

  /** What a consumer's handler went through, event by event. */
  datatype Fact = Called(id: string) | Succeeded(id: string) | Redriven(id: string)

  /** Some success on this id has not been followed by a redrive of it. */
  ghost predicate Settled(log: seq<Fact>, id: string) {
    exists i :: 0 <= i < |log| && log[i] == Succeeded(id) && forall j :: i < j < |log| ==> log[j] != Redriven(id)
  }

  /** Between a success on an id and the next call or success on it there is a
      redrive of it. */
  ghost predicate HandledOnce(log: seq<Fact>) {
    forall i, j :: 0 <= i < j < |log| && log[i].Succeeded? && !log[j].Redriven? && log[j].id == log[i].id
                   ==> exists k :: i < k < j && log[k] == Redriven(log[i].id)
  }

  lemma SettledAppend(log: seq<Fact>, fact: Fact, id: string)
    ensures Settled(log + [fact], id) <==> fact == Succeeded(id) || (Settled(log, id) && fact != Redriven(id))
  {
    var log' := log + [fact];
    if fact == Succeeded(id) {
      assert log'[|log|] == Succeeded(id);
    } else if fact != Redriven(id) {
      if Settled(log, id) {
        var i :| 0 <= i < |log| && log[i] == Succeeded(id) && forall j :: i < j < |log| ==> log[j] != Redriven(id);
        assert log'[i] == Succeeded(id);
      }
      if Settled(log', id) {
        var i :| 0 <= i < |log'| && log'[i] == Succeeded(id) && forall j :: i < j < |log'| ==> log'[j] != Redriven(id);
        assert log[i] == Succeeded(id);
        assert forall j :: i < j < |log| ==> log'[j] == log[j];
      }
    } else {
      assert log'[|log|] == Redriven(id);
    }
  }

  lemma HandledOnceAppend(log: seq<Fact>, fact: Fact)
    requires HandledOnce(log)
    requires !fact.Redriven? ==> !Settled(log, fact.id)
    ensures HandledOnce(log + [fact])
  {
    var log' := log + [fact];
    forall i, j | 0 <= i < j < |log'| && log'[i].Succeeded? && !log'[j].Redriven? && log'[j].id == log'[i].id
      ensures exists k :: i < k < j && log'[k] == Redriven(log'[i].id)
    {
      if j < |log| {
        var k :| i < k < j && log[k] == Redriven(log[i].id);
        assert log'[k] == Redriven(log'[i].id);
      } else {
        assert log[i] == Succeeded(fact.id);
        var k :| i < k < |log| && log[k] == Redriven(fact.id);
        assert log'[k] == Redriven(log'[i].id);
      }
    }
  }
}
