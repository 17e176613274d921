/** The in-memory bus of one consumer as an object updated in place. Each method is
    what the code does between two awaits, and does to the fields exactly what the
    corresponding step does to a lane; the ghost parameter is the lane the object
    has reached so far. */
module BusObject {
  import opened Basics
  import opened Partitioning
  import opened Events
  import opened InMemoryBus

  /** The fields a lane and the object have in common. */
  datatype BusState = BusState(
    pool: Dispatch<Copy>, entering: seq<Copy>, retrying: seq<bool>, processed: set<string>, dead: seq<DeadLetter>,
    submissions: nat)

  function StateOf(l: Lane): BusState {
    BusState(l.h.d, l.entering, l.retrying, l.processed, l.dead, l.offered)
  }

  class InMemoryConsumer {
    const dispatcher: PartitionedDispatcher<Copy>
    const maxAttempts: nat
    var entering: seq<Copy>      // callers suspended in `submit`
    var retrying: seq<bool>      // workers suspended in the `submit` of a retry
    var processed: set<string>
    var dead: seq<DeadLetter>
    var submissions: nat         // numbers the copies, only to tell them apart

    ghost function Config(): BusConfig { BusConfig(dispatcher.cfg, maxAttempts) }

    ghost function View(): BusState
      reads this, dispatcher
    {
      BusState(dispatcher.View(), entering, retrying, processed, dead, submissions)
    }

    ghost predicate Valid()
      reads this, dispatcher
    {
      Sane(Config()) && dispatcher.Valid() && |retrying| == dispatcher.cfg.n
    }

    /** The object has reached the lane l. */
    ghost predicate At(l: Lane)
      reads this, dispatcher
    {
      Valid() && StateOf(l) == View()
    }

    constructor (n: nat, maxsize: nat, route: string -> nat, attempts: nat)
      requires n >= 1 && attempts >= 1
      ensures fresh(dispatcher)
      ensures Config() == BusConfig(Partitioning.Config(n, maxsize, route), attempts)
      ensures At(NewLane(Config()))
    {
      dispatcher := new PartitionedDispatcher<Copy>(n, maxsize, route);
      maxAttempts := attempts;
      entering, processed, dead, submissions := [], {}, [], 0;
      retrying := seq(n, _ => false);
    }

    method Publish(event: DomainEvent, ghost l: Lane)
      requires At(l)
      modifies this, dispatcher
      ensures At(BusNext(Config(), l, Offer(event)))
    {
      dispatcher.BeginSubmit(false);
      entering := entering + [Copy(event, 1, submissions)];
      submissions := submissions + 1;
    }

    /** A suspended submission finds room. */
    method Admit(i: nat, ghost l: Lane)
      requires At(l) && BusEnabled(Config(), l, Enter(i))
      modifies this, dispatcher
      ensures At(BusNext(Config(), l, Enter(i)))
    {
      var c := entering[i];
      entering := entering[..i] + entering[i + 1..];
      dispatcher.Enqueue(RoutingKey(c.event), c);
    }

    /** A worker takes an item; the duplicate check comes before the handler. */
    method BeginItem(w: nat, ghost l: Lane) returns (callsHandler: bool)
      requires At(l) && BusEnabled(Config(), l, Begin(w))
      modifies this, dispatcher
      ensures At(BusNext(Config(), l, Begin(w)))
      ensures callsHandler <==> old(dispatcher.queues[w][0].work.event.eventId) !in processed
    {
      var item := dispatcher.Get(w);
      callsHandler := item.work.event.eventId !in processed;
      if callsHandler {
        retrying := retrying[w := false];
      } else {
        dispatcher.Finish(w, false);
      }
    }

    method HandlerReturned(w: nat, ghost l: Lane)
      requires At(l) && BusEnabled(Config(), l, Succeed(w))
      modifies this, dispatcher
      ensures At(BusNext(Config(), l, Succeed(w)))
    {
      processed := processed + {dispatcher.workers[w].item.work.event.eventId};
      dispatcher.Finish(w, false);
    }

    method HandlerRaised(w: nat, ghost l: Lane)
      requires At(l) && BusEnabled(Config(), l, Fail(w))
      modifies this, dispatcher
      ensures At(BusNext(Config(), l, Fail(w)))
    {
      var c := dispatcher.workers[w].item.work;
      if c.attempt < maxAttempts {
        dispatcher.BeginSubmit(true);
        retrying := retrying[w := true];
      } else {
        dead := dead + [DeadLetter(c.event, c.attempt)];
        dispatcher.Finish(w, false);
      }
    }

    method RetryAdmitted(w: nat, ghost l: Lane)
      requires At(l) && BusEnabled(Config(), l, Requeue(w))
      modifies this, dispatcher
      ensures At(BusNext(Config(), l, Requeue(w)))
    {
      var c := dispatcher.workers[w].item.work;
      dispatcher.Enqueue(RoutingKey(c.event), c.(attempt := c.attempt + 1));
      retrying := retrying[w := false];
      dispatcher.Finish(w, false);
    }

    /** Gives the oldest dead letter of the event another life; says whether there
        was one, and changes nothing if not. */
    method RedriveLetter(id: string, ghost l: Lane) returns (found: bool)
      requires At(l)
      modifies this, dispatcher
      ensures found <==> HasLetter(old(dead), id)
      ensures At(if found then BusNext(Config(), l, Redrive(id)) else l)
    {
      var i := 0;
      while i < |dead|
        invariant 0 <= i <= |dead| && At(l)
        invariant dead == old(dead)
        invariant forall j :: 0 <= j < i ==> dead[j].event.eventId != id
      {
        if dead[i].event.eventId == id {
          var event := dead[i].event;
          FirstIs(dead, id, i);
          dead := dead[..i] + dead[i + 1..];
          processed := processed - {id};
          dispatcher.BeginSubmit(false);
          entering := entering + [Copy(event, 1, submissions)];
          submissions := submissions + 1;
          return true;
        }
        i := i + 1;
      }
      return false;
    }
  }

  lemma FirstIs(dead: seq<DeadLetter>, id: string, i: nat)
    requires i < |dead| && dead[i].event.eventId == id
    requires forall j :: 0 <= j < i ==> dead[j].event.eventId != id
    ensures HasLetter(dead, id) && LetterIndex(dead, id) == i
  {
    assert HasLetter(dead, id);
    var first := LetterIndex(dead, id);
    assert !(first < i) && !(i < first);
  }
}
