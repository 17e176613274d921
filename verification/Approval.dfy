/** Human-in-the-loop: actions above a risk ceiling become tickets, a ticket is
    decided once, and a yes runs exactly the action that was asked for.

    Calls are tasks that other tasks may overtake at every await: between the
    permission check, the gate and the handler. */
module Approval {
  import opened Basics

  type TicketId = nat

  datatype RiskLevel = LOW | MEDIUM | HIGH | CRITICAL

  function Rank(r: RiskLevel): nat {
    match r case LOW => 0 case MEDIUM => 1 case HIGH => 2 case CRITICAL => 3
  }

  /** The order of the risks, strictly. */
  lemma RisksAreOrdered(a: RiskLevel, b: RiskLevel)
    ensures Rank(a) < Rank(b) <==>
            match a
            case LOW => b != LOW
            case MEDIUM => b == HIGH || b == CRITICAL
            case HIGH => b == CRITICAL
            case CRITICAL => false
  {
  }

  datatype TicketState = PENDING | APPROVED | REJECTED

  datatype Request = Request(action: string, payload: string, subject: string, user: Option<string>)

  datatype Ticket = Ticket(user: string, request: Request, risk: RiskLevel, state: TicketState)

  datatype ApprovalError = NotFound | AlreadyDecided(state: TicketState)

  type Tickets = map<TicketId, Ticket>

  // ---------------------------------------------------------------- deciding a ticket

  function Resolve(tickets: Tickets, id: TicketId, user: string, decision: TicketState)
    : (Tickets, Result<Ticket, ApprovalError>)
  {
    if id !in tickets || tickets[id].user != user then (tickets, Err(NotFound))
    else if tickets[id].state != PENDING then (tickets, Err(AlreadyDecided(tickets[id].state)))
    else
      var decided := tickets[id].(state := decision);
      (tickets[id := decided], Ok(decided))
  }

  /** All that a user can see of the store. */
  ghost function OwnTickets(tickets: Tickets, user: string): Tickets {
    map id | id in tickets && tickets[id].user == user :: tickets[id]
  }

  /** What the store answers a user depends on the user's own tickets alone, and no
      decision changes another user's: a ticket of somebody else is as good as none. */
  lemma StrangersDoNotShow(a: Tickets, b: Tickets, id: TicketId, user: string, decision: TicketState)
    requires OwnTickets(a, user) == OwnTickets(b, user)
    ensures var (a', answer), (b', answer') := Resolve(a, id, user, decision), Resolve(b, id, user, decision);
            answer == answer' && OwnTickets(a', user) == OwnTickets(b', user)
    ensures forall other :: other != user ==> OwnTickets(Resolve(a, id, user, decision).0, other) == OwnTickets(a, other)
  {
    assert id in OwnTickets(a, user) <==> id in OwnTickets(b, user);
    assert id in OwnTickets(a, user) ==> OwnTickets(a, user)[id] == OwnTickets(b, user)[id];
    OwnAfter(a, id, user, decision);
    OwnAfter(b, id, user, decision);
  }

  lemma OwnAfter(a: Tickets, id: TicketId, user: string, decision: TicketState)
    ensures var own, (a', answer) := OwnTickets(a, user), Resolve(a, id, user, decision);
            && OwnTickets(a', user) == (if answer.Ok? then own[id := answer.value] else own)
            && forall other :: other != user ==> OwnTickets(a', other) == OwnTickets(a, other)
  {
  }

  class InMemoryApprovalStore {
    var tickets: Tickets

    constructor ()
      ensures tickets == map[]
    {
      tickets := map[];
    }

    method Add(id: TicketId, ticket: Ticket)
      modifies this
      ensures tickets == old(tickets)[id := ticket]
    {
      tickets := tickets[id := ticket];
    }

    method Get(id: TicketId, user: string) returns (r: Result<Ticket, ApprovalError>)
      ensures r.Ok? <==> id in OwnTickets(tickets, user)
      ensures r == if r.Ok? then Ok(OwnTickets(tickets, user)[id]) else Err(NotFound)
    {
      if id !in tickets || tickets[id].user != user {
        return Err(NotFound);
      }
      return Ok(tickets[id]);
    }

    method ResolveTicket(id: TicketId, user: string, decision: TicketState) returns (r: Result<Ticket, ApprovalError>)
      modifies this
      ensures (tickets, r) == Resolve(old(tickets), id, user, decision)
    {
      var found := Get(id, user);
      if found.Err? {
        return found;
      }
      var ticket := found.value;
      if ticket.state != PENDING {
        return Err(AlreadyDecided(ticket.state));
      }
      var decided := ticket.(state := decision);
      tickets := tickets[id := decided];
      return Ok(decided);
    }
  }

  /** The conditional UPDATE of the database store: it matches the row only while it
      is pending. */
  function UpdateIfPending(rows: Tickets, id: TicketId, user: string, decision: TicketState): (Tickets, Option<Ticket>) {
    if id in rows && rows[id].user == user && rows[id].state == PENDING
    then (rows[id := rows[id].(state := decision)], Some(rows[id].(state := decision)))
    else (rows, None)
  }

  /** The second look, when no row matched; other sessions may have run in between. */
  function ExplainMiss(rows: Tickets, id: TicketId, user: string): ApprovalError {
    if id !in rows || rows[id].user != user then NotFound else AlreadyDecided(rows[id].state)
  }

  /** What other sessions can do to the table: add tickets under new ids and decide
      pending ones. */
  ghost predicate Evolves(rows: Tickets, rows': Tickets) {
    && rows.Keys <= rows'.Keys
    && forall id :: id in rows ==>
         rows'[id] == rows[id] || (rows[id].state == PENDING && rows'[id] == rows[id].(state := rows'[id].state))
  }

  /** The database store behaves as the in-memory one, whatever happens between its two
      statements, except in one case: the ticket is created for this user just in
      between. Then it reports a decision nobody has made. */
  lemma DatabaseResolvesExactly(rows: Tickets, later: Tickets, id: TicketId, user: string, decision: TicketState)
    requires Evolves(UpdateIfPending(rows, id, user, decision).0, later)
    ensures var (rows', row) := UpdateIfPending(rows, id, user, decision);
            (Resolve(rows, id, user, decision)
             == (rows', if row.Some? then Ok(row.value) else Err(ExplainMiss(later, id, user))))
            <==> (id in rows || id !in later || later[id].user != user)
    ensures id !in rows && id in later && later[id].user == user ==>
              ExplainMiss(later, id, user) == AlreadyDecided(later[id].state)
  {
    var (rows', row) := UpdateIfPending(rows, id, user, decision);
    assert id in rows ==> id in later && later[id].user == rows[id].user;
  }

  // ---------------------------------------------------------------- skills and their gate

  datatype Manifest = Manifest(scopes: seq<string>, risk: RiskLevel)

  /** The skills, which payloads their input models accept, and the ceiling up to
      which the recording policy approves by itself. */
  datatype Platform = Platform(skills: map<string, Manifest>, valid: (string, string) -> bool, ceiling: RiskLevel)

  /** Who may use which scope; it may change at any time. */
  type Grants = iset<(string, string, Option<string>)>

  /** A call of `execute` through the ordinary view of the registry, or through the
      view of the approval service, on behalf of a ticket. */
  datatype Origin = Ordinary | Confirmed(ticket: TicketId)

  /** Before the check of scope number `next`, before the gate, before the handler,
      or over. */
  datatype Phase = Checking(next: nat) | Gating | Handling | Ended

  datatype Task = Task(request: Request, origin: Origin, phase: Phase)

  /** A handler invocation. */
  datatype Run = Run(request: Request, origin: Origin, task: nat)

  /** `granted` records which scope checks of which task were answered yes, `runs` and
      `decisions` what handlers and users did. */
  datatype System = System(
    grants: Grants, tickets: Tickets, nextId: TicketId, tasks: seq<Task>,
    granted: set<(nat, string)>, runs: seq<Run>, decisions: seq<(TicketId, TicketState)>)

  datatype Action =
    | SetGrants(grants: Grants)
    | Call(request: Request)
    | Approve(ticket: TicketId, user: string)
    | Reject(ticket: TicketId, user: string)
    | Check(task: nat)           // one scope, or the payload when all scopes are checked
    | Gate(task: nat)
    | Handle(task: nat)

  function Start(grants: Grants): System {
    System(grants, map[], 0, [], {}, [], [])
  }

  predicate Possible(p: Platform, s: System, a: Action) {
    match a
    case Check(t) => t < |s.tasks| && s.tasks[t].phase.Checking?
    case Gate(t) => t < |s.tasks| && s.tasks[t].phase.Gating?
    case Handle(t) => t < |s.tasks| && s.tasks[t].phase.Handling?
    case _ => true
  }

  function MoveTo(s: System, t: nat, phase: Phase): System
    requires t < |s.tasks|
  {
    s.(tasks := s.tasks[t := s.tasks[t].(phase := phase)])
  }

  ghost function CheckNext(p: Platform, s: System, t: nat): System
    requires t < |s.tasks| && s.tasks[t].phase.Checking?
  {
    var r, i := s.tasks[t].request, s.tasks[t].phase.next;
    if r.action !in p.skills then MoveTo(s, t, Ended)
    else
      var scopes := p.skills[r.action].scopes;
      if i < |scopes| then
        if (r.subject, scopes[i], r.user) in s.grants
        then MoveTo(s, t, Checking(i + 1)).(granted := s.granted + {(t, scopes[i])})
        else MoveTo(s, t, Ended)
      else if p.valid(r.action, r.payload) then MoveTo(s, t, Gating)
      else MoveTo(s, t, Ended)
  }

  /** The ordinary view records a ticket above the ceiling; the approval service's view
      approves everything. */
  function GateNext(p: Platform, s: System, t: nat): System
    requires t < |s.tasks|
  {
    var task := s.tasks[t];
    if task.request.action !in p.skills then MoveTo(s, t, Ended)
    else
      var risk := p.skills[task.request.action].risk;
      if task.origin.Confirmed? || risk == LOW || Rank(risk) <= Rank(p.ceiling) then MoveTo(s, t, Handling)
      else
        match task.request.user
        case None => MoveTo(s, t, Ended)
        case Some(user) =>
          MoveTo(s, t, Ended).(tickets := s.tickets[s.nextId := Ticket(user, task.request, risk, PENDING)],
                               nextId := s.nextId + 1)
  }

  ghost function Next(p: Platform, s: System, a: Action): System
    requires Possible(p, s, a)
  {
    match a
    case SetGrants(g) => s.(grants := g)
    case Call(r) => s.(tasks := s.tasks + [Task(r, Ordinary, Checking(0))])
    case Approve(id, user) =>
      var (tickets, result) := Resolve(s.tickets, id, user, APPROVED);
      (match result
       case Err(_) => s
       case Ok(ticket) =>
         s.(tickets := tickets, decisions := s.decisions + [(id, APPROVED)],
            tasks := s.tasks + [Task(ticket.request.(user := Some(ticket.user)), Confirmed(id), Checking(0))]))
    case Reject(id, user) =>
      var (tickets, result) := Resolve(s.tickets, id, user, REJECTED);
      (match result
       case Err(_) => s
       case Ok(_) => s.(tickets := tickets, decisions := s.decisions + [(id, REJECTED)]))
    case Check(t) => CheckNext(p, s, t)
    case Gate(t) => GateNext(p, s, t)
    case Handle(t) => MoveTo(s, t, Ended).(runs := s.runs + [Run(s.tasks[t].request, s.tasks[t].origin, t)])
  }

  /** Where a schedule leads; None if one of its actions is not possible. */
  ghost function After(p: Platform, s: System, actions: seq<Action>): Option<System>
    decreases |actions|
  {
    if actions == [] then Some(s)
    else if Possible(p, s, actions[0]) then After(p, Next(p, s, actions[0]), actions[1..])
    else None
  }

  // ---------------------------------------------------------------- invariant

  /** A ticket asks on behalf of its owner; ids are handed out once. */
  ghost predicate TicketsAreOwned(s: System) {
    forall id :: id in s.tickets ==> id < s.nextId && s.tickets[id].request.user == Some(s.tickets[id].user)
  }

  /** A confirmed task is the one execution of an approved ticket, of what it asked. */
  ghost predicate ConfirmedTasks(s: System) {
    && (forall t :: 0 <= t < |s.tasks| && s.tasks[t].origin.Confirmed? ==>
          var id := s.tasks[t].origin.ticket;
          id in s.tickets && s.tickets[id].state == APPROVED && s.tickets[id].request == s.tasks[t].request)
    && (forall t, u :: 0 <= t < u < |s.tasks| && s.tasks[t].origin.Confirmed? ==> s.tasks[t].origin != s.tasks[u].origin)
  }

  ghost predicate DecidedOnce(s: System) {
    && (forall k :: 0 <= k < |s.decisions| ==>
          && s.decisions[k].0 in s.tickets && s.tickets[s.decisions[k].0].state == s.decisions[k].1
          && s.decisions[k].1 != PENDING)
    && (forall j, k :: 0 <= j < k < |s.decisions| ==> s.decisions[j].0 != s.decisions[k].0)
  }

  /** All scopes up to number n were granted to the call when it checked them. */
  ghost predicate GrantedUpTo(p: Platform, s: System, t: nat, n: nat)
    requires t < |s.tasks|
  {
    var action := s.tasks[t].request.action;
    action in p.skills && n <= |p.skills[action].scopes| &&
    forall i :: 0 <= i < n ==> (t, p.skills[action].scopes[i]) in s.granted
  }

  ghost predicate TaskOk(p: Platform, s: System, t: nat)
    requires t < |s.tasks|
  {
    var r := s.tasks[t].request;
    match s.tasks[t].phase
    case Checking(n) => r.action in p.skills ==> GrantedUpTo(p, s, t, n)
    case Gating => r.action in p.skills && p.valid(r.action, r.payload) && GrantedUpTo(p, s, t, |p.skills[r.action].scopes|)
    case Handling => Cleared(p, s, t)
    case Ended => true
  }

  /** Ready for the handler: scopes granted, payload valid, gate passed. */
  ghost predicate Cleared(p: Platform, s: System, t: nat)
    requires t < |s.tasks|
  {
    var r := s.tasks[t].request;
    && r.action in p.skills && p.valid(r.action, r.payload) && GrantedUpTo(p, s, t, |p.skills[r.action].scopes|)
    && (Rank(p.skills[r.action].risk) > Rank(p.ceiling) ==> s.tasks[t].origin.Confirmed?)
  }

  /** Every handler run belongs to one task of its own, which was cleared. */
  ghost predicate RunsAreCleared(p: Platform, s: System) {
    && (forall k :: 0 <= k < |s.runs| ==>
          var t := s.runs[k].task;
          && t < |s.tasks| && s.tasks[t].phase == Ended && Cleared(p, s, t)
          && s.runs[k].request == s.tasks[t].request && s.runs[k].origin == s.tasks[t].origin)
    && (forall j, k :: 0 <= j < k < |s.runs| ==> s.runs[j].task != s.runs[k].task)
  }

  ghost predicate Inv(p: Platform, s: System) {
    && TicketsAreOwned(s) && ConfirmedTasks(s) && DecidedOnce(s) && RunsAreCleared(p, s)
    && forall t :: 0 <= t < |s.tasks| ==> TaskOk(p, s, t)
  }

  /** Tasks keep what they ask and where they come from; an ended one stays ended; and
      answers given to scope checks are not taken back. */
  lemma TasksStay(p: Platform, s: System, a: Action, t: nat)
    requires Possible(p, s, a) && t < |s.tasks|
    ensures var s' := Next(p, s, a);
            && t < |s'.tasks| && s'.tasks[t].request == s.tasks[t].request && s'.tasks[t].origin == s.tasks[t].origin
            && (s.tasks[t].phase == Ended ==> s'.tasks[t].phase == Ended)
            && s.granted <= s'.granted
            && (a != Check(t) && a != Gate(t) && a != Handle(t) ==> s'.tasks[t] == s.tasks[t])
  {
  }

  lemma ClearedStays(p: Platform, s: System, a: Action, t: nat)
    requires Possible(p, s, a) && t < |s.tasks| && Cleared(p, s, t)
    ensures t < |Next(p, s, a).tasks| && Cleared(p, Next(p, s, a), t)
  {
    hide Next;
    TasksStay(p, s, a, t);
  }

  lemma OwnershipKept(p: Platform, s: System, a: Action)
    requires Possible(p, s, a) && TicketsAreOwned(s)
    ensures TicketsAreOwned(Next(p, s, a))
  {
  }

  /** A ticket keeps what it asks, and the answer once it has one. */
  lemma TicketsStay(p: Platform, s: System, a: Action, id: nat)
    requires Possible(p, s, a) && TicketsAreOwned(s) && id in s.tickets
    ensures var s' := Next(p, s, a);
            && id in s'.tickets && s'.tickets[id].request == s.tickets[id].request
            && (s.tickets[id].state != PENDING ==> s'.tickets[id].state == s.tickets[id].state)
  {
  }

  /** Only an open ticket is decided. */
  lemma DecisionsGrow(p: Platform, s: System, a: Action)
    requires Possible(p, s, a)
    ensures var old', new' := s.decisions, Next(p, s, a).decisions;
            new' == old' || (|new'| == |old'| + 1 && new'[..|old'|] == old'
                             && var (id, answer) := new'[|old'|];
                                && answer != PENDING && id in s.tickets && s.tickets[id].state == PENDING
                                && id in Next(p, s, a).tickets && Next(p, s, a).tickets[id].state == answer)
  {
  }

  /** Only the approval of an open ticket makes a confirmed task, of what it asks. */
  lemma TasksGrow(p: Platform, s: System, a: Action)
    requires Possible(p, s, a) && TicketsAreOwned(s)
    ensures var tasks, s' := s.tasks, Next(p, s, a);
            && |tasks| <= |s'.tasks| <= |tasks| + 1
            && (|s'.tasks| > |tasks| && s'.tasks[|tasks|].origin.Confirmed? ==>
                  var id := s'.tasks[|tasks|].origin.ticket;
                  && id in s.tickets && s.tickets[id].state == PENDING
                  && id in s'.tickets && s'.tickets[id].state == APPROVED && s'.tickets[id].request == s'.tasks[|tasks|].request)
  {
  }

  lemma DecisionsKept(p: Platform, s: System, a: Action)
    requires Possible(p, s, a) && TicketsAreOwned(s) && DecidedOnce(s)
    ensures DecidedOnce(Next(p, s, a))
  {
    hide Next, Possible, TicketsAreOwned;
    DecisionsGrow(p, s, a);
    var s' := Next(p, s, a);
    forall k | 0 <= k < |s'.decisions|
      ensures var (id, answer) := s'.decisions[k]; id in s'.tickets && s'.tickets[id].state == answer && answer != PENDING
    {
      if k < |s.decisions| {
        assert s'.decisions[k] == s.decisions[k];
        TicketsStay(p, s, a, s.decisions[k].0);
      }
    }
    forall j, k | 0 <= j < k < |s'.decisions| ensures s'.decisions[j].0 != s'.decisions[k].0 {
      assert s'.decisions[j] == s.decisions[j];
      assert k < |s.decisions| ==> s'.decisions[k] == s.decisions[k];
    }
  }

  lemma ConfirmedKept(p: Platform, s: System, a: Action)
    requires Possible(p, s, a) && TicketsAreOwned(s) && ConfirmedTasks(s)
    ensures ConfirmedTasks(Next(p, s, a))
  {
    hide Next, Possible, TicketsAreOwned;
    TasksGrow(p, s, a);
    var s' := Next(p, s, a);
    forall t | 0 <= t < |s'.tasks| && s'.tasks[t].origin.Confirmed?
      ensures var id := s'.tasks[t].origin.ticket;
              id in s'.tickets && s'.tickets[id].state == APPROVED && s'.tickets[id].request == s'.tasks[t].request
    {
      if t < |s.tasks| {
        TasksStay(p, s, a, t);
        TicketsStay(p, s, a, s.tasks[t].origin.ticket);
      }
    }
    forall t, u | 0 <= t < u < |s'.tasks| && s'.tasks[t].origin.Confirmed?
      ensures s'.tasks[t].origin != s'.tasks[u].origin
    {
      TasksStay(p, s, a, t);
      if u < |s.tasks| {
        TasksStay(p, s, a, u);
      }
    }
  }

  lemma TaskKept(p: Platform, s: System, a: Action, t: nat)
    requires Possible(p, s, a) && t < |Next(p, s, a).tasks| && (t < |s.tasks| ==> TaskOk(p, s, t))
    ensures TaskOk(p, Next(p, s, a), t)
  {
    if t < |s.tasks| {
      TasksStay(p, s, a, t);
    }
  }

  lemma RunsKept(p: Platform, s: System, a: Action)
    requires Possible(p, s, a) && RunsAreCleared(p, s) && forall t :: 0 <= t < |s.tasks| ==> TaskOk(p, s, t)
    ensures RunsAreCleared(p, Next(p, s, a))
  {
    hide Cleared, GrantedUpTo, Resolve;
    var s' := Next(p, s, a);
    if a.Handle? {
      assert TaskOk(p, s, a.task);
      ClearedStays(p, s, a, a.task);
    }
    forall k | 0 <= k < |s.runs|
      ensures var t := s.runs[k].task;
              && t < |s'.tasks| && s'.tasks[t].phase == Ended && Cleared(p, s', t)
              && s.runs[k].request == s'.tasks[t].request && s.runs[k].origin == s'.tasks[t].origin
    {
      TasksStay(p, s, a, s.runs[k].task);
      ClearedStays(p, s, a, s.runs[k].task);
    }
  }

  lemma {:induction false} ReachableInv(p: Platform, s: System, actions: seq<Action>)
    requires Inv(p, s) && After(p, s, actions).Some?
    ensures Inv(p, After(p, s, actions).value)
    decreases |actions|
  {
    hide TicketsAreOwned, ConfirmedTasks, DecidedOnce, RunsAreCleared, TaskOk, Next;
    if actions == [] {
    } else {
      var a := actions[0];
      OwnershipKept(p, s, a);
      DecisionsKept(p, s, a);
      ConfirmedKept(p, s, a);
      RunsKept(p, s, a);
      forall t | 0 <= t < |Next(p, s, a).tasks| ensures TaskOk(p, Next(p, s, a), t) {
        TaskKept(p, s, a, t);
      }
      ReachableInv(p, Next(p, s, a), actions[1..]);
    }
  }

  // ---------------------------------------------------------------- main results

  /** In every schedule of calls, decisions and changes of permission: no ticket is
      decided twice; and each handler run of a skill above the ceiling has a ticket of
      its own, approved, that asked for exactly this action, payload, subject and user.
      The map from those runs to their tickets is one-to-one. */
  lemma OnlyApprovedActionsRun(p: Platform, grants: Grants, actions: seq<Action>)
    requires After(p, Start(grants), actions).Some?
    ensures var s := After(p, Start(grants), actions).value;
            && (forall j, k :: 0 <= j < k < |s.decisions| ==> s.decisions[j].0 != s.decisions[k].0)
            && (forall k :: 0 <= k < |s.runs| && s.runs[k].request.action in p.skills
                            && Rank(p.skills[s.runs[k].request.action].risk) > Rank(p.ceiling) ==>
                  && s.runs[k].origin.Confirmed? && s.runs[k].origin.ticket in s.tickets
                  && s.tickets[s.runs[k].origin.ticket].state == APPROVED
                  && s.tickets[s.runs[k].origin.ticket].request == s.runs[k].request)
            && (forall j, k :: 0 <= j < k < |s.runs| && s.runs[j].origin.Confirmed? ==> s.runs[j].origin != s.runs[k].origin)
  {
    ReachableInv(p, Start(grants), actions);
    var s := After(p, Start(grants), actions).value;
    forall j, k | 0 <= j < k < |s.runs| && s.runs[j].origin.Confirmed? ensures s.runs[j].origin != s.runs[k].origin {
      assert s.runs[j].task != s.runs[k].task;
    }
  }

  /** A confirmation never widens what the subject may do: every run, confirmed or
      not, had each of its scopes granted at its own check, and a valid payload. */
  lemma EveryRunWasPermitted(p: Platform, grants: Grants, actions: seq<Action>, k: nat)
    requires After(p, Start(grants), actions).Some? && k < |After(p, Start(grants), actions).value.runs|
    ensures var s := After(p, Start(grants), actions).value;
            var run := s.runs[k];
            && run.request.action in p.skills && p.valid(run.request.action, run.request.payload)
            && (forall i :: 0 <= i < |p.skills[run.request.action].scopes| ==>
                  (run.task, p.skills[run.request.action].scopes[i]) in s.granted)
  {
    ReachableInv(p, Start(grants), actions);
    var s := After(p, Start(grants), actions).value;
    assert Cleared(p, s, s.runs[k].task);
  }

  /** A decision is final: whatever happens afterwards, the ticket keeps it. */
  lemma {:induction false} DecisionsAreFinal(p: Platform, s: System, actions: seq<Action>, id: TicketId)
    requires After(p, s, actions).Some? && id in s.tickets && id < s.nextId && s.tickets[id].state != PENDING
    ensures var s' := After(p, s, actions).value;
            id in s'.tickets && s'.tickets[id] == s.tickets[id]
    decreases |actions|
  {
    if actions == [] {
    } else {
      FinalStep(p, s, actions[0], id);
      DecisionsAreFinal(p, Next(p, s, actions[0]), actions[1..], id);
    }
  }

  lemma FinalStep(p: Platform, s: System, a: Action, id: TicketId)
    requires Possible(p, s, a) && id in s.tickets && id < s.nextId && s.tickets[id].state != PENDING
    ensures var s' := Next(p, s, a);
            id in s'.tickets && s'.tickets[id] == s.tickets[id] && id < s'.nextId
  {
  }

  // ---------------------------------------------------------------- who decided

  /** The action with which a user gives an answer. */
  function Answer(id: TicketId, user: string, answer: TicketState): Action
    requires answer != PENDING
  {
    if answer == APPROVED then Approve(id, user) else Reject(id, user)
  }

  /** What the user answers first about a ticket; PENDING for no answer. */
  function FirstAnswer(actions: seq<Action>, id: TicketId, user: string): TicketState {
    if actions == [] then PENDING
    else if actions[0] == Approve(id, user) then APPROVED
    else if actions[0] == Reject(id, user) then REJECTED
    else FirstAnswer(actions[1..], id, user)
  }

  ghost predicate HasTask(s: System, id: TicketId) {
    exists t :: 0 <= t < |s.tasks| && s.tasks[t].origin == Confirmed(id)
  }

  ghost predicate HasRun(s: System, id: TicketId) {
    exists k :: 0 <= k < |s.runs| && s.runs[k].origin == Confirmed(id)
  }

  /** Decided tickets are on record, and approved ones have their task. */
  ghost predicate Recorded(s: System) {
    forall id :: id in s.tickets && s.tickets[id].state != PENDING ==>
      (id, s.tickets[id].state) in s.decisions && (s.tickets[id].state == APPROVED ==> HasTask(s, id))
  }

  /** Every decision is the answer its ticket's owner gave in this schedule. */
  ghost predicate Answered(s: System, past: seq<Action>) {
    forall k :: 0 <= k < |s.decisions| ==>
      var (id, answer) := s.decisions[k];
      answer != PENDING && id in s.tickets && Answer(id, s.tickets[id].user, answer) in past
  }

  /** Only its owner's answer changes a ticket, and only while it is pending. */
  lemma OneAnswer(p: Platform, s: System, a: Action, id: TicketId)
    requires Possible(p, s, a) && TicketsAreOwned(s) && id in s.tickets
    ensures var s', t := Next(p, s, a), s.tickets[id];
            && id in s'.tickets && id < s'.nextId
            && s'.tickets[id] == (if t.state == PENDING && a == Approve(id, t.user) then t.(state := APPROVED)
                                  else if t.state == PENDING && a == Reject(id, t.user) then t.(state := REJECTED)
                                  else t)
  {
  }

  /** What an action adds to the record. */
  lemma OneRecord(p: Platform, s: System, a: Action)
    requires Possible(p, s, a) && TicketsAreOwned(s)
    ensures var s' := Next(p, s, a);
            && (forall id :: id in s'.tickets && id !in s.tickets ==> s'.tickets[id].state == PENDING)
            && s.decisions <= s'.decisions && |s'.decisions| <= |s.decisions| + 1
            && (|s'.decisions| > |s.decisions| ==>
                  var (id, answer) := s'.decisions[|s.decisions|];
                  && answer != PENDING && id in s.tickets && s.tickets[id].state == PENDING
                  && a == Answer(id, s.tickets[id].user, answer))
            && (forall id :: id in s.tickets && s.tickets[id].state == PENDING && a == Approve(id, s.tickets[id].user) ==>
                  (id, APPROVED) in s'.decisions && |s'.tasks| == |s.tasks| + 1 && s'.tasks[|s.tasks|].origin == Confirmed(id))
            && (forall id :: id in s.tickets && s.tickets[id].state == PENDING && a == Reject(id, s.tickets[id].user) ==>
                  (id, REJECTED) in s'.decisions)
  {
    assert forall d :: (s.decisions + [d])[|s.decisions|] == d;
  }

  lemma RecordedStep(p: Platform, s: System, a: Action)
    requires Possible(p, s, a) && TicketsAreOwned(s) && Recorded(s)
    ensures Recorded(Next(p, s, a))
  {
    hide Next, Possible, TicketsAreOwned;
    var s' := Next(p, s, a);
    OneRecord(p, s, a);
    forall id | id in s'.tickets && s'.tickets[id].state != PENDING
      ensures (id, s'.tickets[id].state) in s'.decisions && (s'.tickets[id].state == APPROVED ==> HasTask(s', id))
    {
      OneAnswer(p, s, a, id);
      if t :| 0 <= t < |s.tasks| && s.tasks[t].origin == Confirmed(id) {
        TasksStay(p, s, a, t);
        assert s'.tasks[t].origin == Confirmed(id);
      }
    }
  }

  lemma AnsweredStep(p: Platform, s: System, a: Action, past: seq<Action>)
    requires Possible(p, s, a) && TicketsAreOwned(s) && Answered(s, past)
    ensures Answered(Next(p, s, a), past + [a])
  {
    hide Next, Possible, TicketsAreOwned;
    var s' := Next(p, s, a);
    OneRecord(p, s, a);
    forall k | 0 <= k < |s'.decisions|
      ensures var (id, answer) := s'.decisions[k];
              answer != PENDING && id in s'.tickets && Answer(id, s'.tickets[id].user, answer) in past + [a]
    {
      if k < |s.decisions| {
        assert s'.decisions[k] == s.decisions[k];
      }
      OneAnswer(p, s, a, s'.decisions[k].0);
    }
  }

  lemma {:induction false} ScheduleRecorded(p: Platform, s: System, past: seq<Action>, actions: seq<Action>)
    requires TicketsAreOwned(s) && Recorded(s) && Answered(s, past) && After(p, s, actions).Some?
    ensures var s' := After(p, s, actions).value; Recorded(s') && Answered(s', past + actions)
    decreases |actions|
  {
    hide Next, Possible, TicketsAreOwned, Recorded, Answered;
    if actions == [] {
      assert past + actions == past;
    } else {
      var a := actions[0];
      OwnershipKept(p, s, a);
      RecordedStep(p, s, a);
      AnsweredStep(p, s, a, past);
      assert past + actions == (past + [a]) + actions[1..];
      ScheduleRecorded(p, Next(p, s, a), past + [a], actions[1..]);
    }
  }

  lemma {:induction false} AfterSplit(p: Platform, s: System, before: seq<Action>, after: seq<Action>)
    requires After(p, s, before + after).Some?
    ensures After(p, s, before).Some?
    ensures After(p, After(p, s, before).value, after) == After(p, s, before + after)
    decreases |before|
  {
    hide Next, Possible;
    if before == [] {
      assert before + after == after;
    } else {
      assert (before + after)[0] == before[0] && (before + after)[1..] == before[1..] + after;
      AfterSplit(p, Next(p, s, before[0]), before[1..], after);
    }
  }

  lemma {:induction false} FirstAnswerDecides(p: Platform, s: System, actions: seq<Action>, id: TicketId)
    requires TicketsAreOwned(s) && After(p, s, actions).Some? && id in s.tickets
    ensures var s', t := After(p, s, actions).value, s.tickets[id];
            && id in s'.tickets
            && s'.tickets[id] == (if t.state == PENDING then t.(state := FirstAnswer(actions, id, t.user)) else t)
    decreases |actions|
  {
    hide Next, TicketsAreOwned, Possible;
    if actions != [] {
      OneAnswer(p, s, actions[0], id);
      OwnershipKept(p, s, actions[0]);
      FirstAnswerDecides(p, Next(p, s, actions[0]), actions[1..], id);
    }
  }

  /** A ticket's fate is its owner's first answer, whatever else happens in the schedule:
      it is approved, rejected or still pending as that answer says; the record says the
      same and no more; and the action has been started on its behalf exactly if the
      answer was yes. */
  lemma OwnersAnswerDecides(p: Platform, grants: Grants, before: seq<Action>, after: seq<Action>, id: TicketId)
    requires After(p, Start(grants), before + after).Some?
    requires After(p, Start(grants), before).Some? && id in After(p, Start(grants), before).value.tickets
    requires After(p, Start(grants), before).value.tickets[id].state == PENDING
    ensures var ticket, end := After(p, Start(grants), before).value.tickets[id], After(p, Start(grants), before + after).value;
            var answer := FirstAnswer(after, id, ticket.user);
            && id in end.tickets && end.tickets[id] == ticket.(state := answer)
            && (forall d :: (id, d) in end.decisions <==> d == answer && d != PENDING)
            && (HasTask(end, id) <==> answer == APPROVED)
            && (HasRun(end, id) ==> answer == APPROVED)
  {
    hide Next, Possible, TaskOk, FirstAnswer;
    var start, actions := Start(grants), before + after;
    AfterSplit(p, start, before, after);
    ReachableInv(p, start, before);
    ReachableInv(p, start, actions);
    ScheduleRecorded(p, start, [], actions);
    FirstAnswerDecides(p, After(p, start, before).value, after, id);
  }

  /** A no is final: nothing is ever run on behalf of a rejected ticket. */
  lemma RejectedNeverRuns(p: Platform, grants: Grants, before: seq<Action>, rest: seq<Action>, id: TicketId)
    requires After(p, Start(grants), before).Some? && id in After(p, Start(grants), before).value.tickets
    requires After(p, Start(grants), before).value.tickets[id].state == PENDING
    requires var user := After(p, Start(grants), before).value.tickets[id].user;
             After(p, Start(grants), before + ([Reject(id, user)] + rest)).Some?
    ensures var ticket := After(p, Start(grants), before).value.tickets[id];
            var end := After(p, Start(grants), before + ([Reject(id, ticket.user)] + rest)).value;
            && id in end.tickets && end.tickets[id] == ticket.(state := REJECTED)
            && !HasTask(end, id) && !HasRun(end, id)
  {
    hide After;
    var user := After(p, Start(grants), before).value.tickets[id].user;
    OwnersAnswerDecides(p, grants, before, [Reject(id, user)] + rest, id);
  }

  /** And nobody else decides: each decision on record is an answer that the ticket's
      owner gave in the schedule, and each confirmed run has its owner's yes there. */
  lemma DecisionsAreAnswers(p: Platform, grants: Grants, actions: seq<Action>)
    requires After(p, Start(grants), actions).Some?
    ensures var s := After(p, Start(grants), actions).value;
            && (forall k :: 0 <= k < |s.decisions| ==>
                  var (id, answer) := s.decisions[k];
                  answer != PENDING && id in s.tickets && Answer(id, s.tickets[id].user, answer) in actions)
            && (forall k :: 0 <= k < |s.runs| && s.runs[k].origin.Confirmed? ==>
                  var id := s.runs[k].origin.ticket;
                  id in s.tickets && Approve(id, s.tickets[id].user) in actions)
  {
    hide Next, Possible, After, TaskOk;
    ReachableInv(p, Start(grants), actions);
    ScheduleRecorded(p, Start(grants), [], actions);
    assert [] + actions == actions;
  }

  // ---------------------------------------------------------------- what was granted when

  /** The grants in force after some actions: the last that were set. */
  ghost function LastGrants(grants: Grants, actions: seq<Action>): Grants {
    if actions == [] then grants
    else if actions[|actions| - 1].SetGrants? then actions[|actions| - 1].grants
    else LastGrants(grants, actions[..|actions| - 1])
  }

  /** A scope on record was granted to the task's caller at some moment of the past. */
  ghost predicate WasGranted(s: System, grants: Grants, past: seq<Action>, t: nat, scope: string) {
    t < |s.tasks| && exists j :: 0 <= j <= |past| && (s.tasks[t].request.subject, scope, s.tasks[t].request.user) in LastGrants(grants, past[..j])
  }

  ghost predicate GrantsOnRecord(s: System, grants: Grants, past: seq<Action>) {
    && s.grants == LastGrants(grants, past)
    && forall t, scope :: (t, scope) in s.granted ==> WasGranted(s, grants, past, t, scope)
  }

  lemma GrantStep(p: Platform, s: System, a: Action)
    requires Possible(p, s, a)
    ensures var s' := Next(p, s, a);
            && s'.grants == (if a.SetGrants? then a.grants else s.grants)
            && |s.tasks| <= |s'.tasks|
            && (forall t, scope :: (t, scope) in s'.granted && (t, scope) !in s.granted ==>
                  t < |s.tasks| && (s.tasks[t].request.subject, scope, s.tasks[t].request.user) in s.grants)
  {
  }

  lemma GrantsOnRecordStep(p: Platform, s: System, a: Action, grants: Grants, past: seq<Action>)
    requires Possible(p, s, a) && GrantsOnRecord(s, grants, past)
    ensures GrantsOnRecord(Next(p, s, a), grants, past + [a])
  {
    hide Next, Possible;
    var s', all := Next(p, s, a), past + [a];
    GrantStep(p, s, a);
    assert all[..|past|] == past;
    forall t, scope | (t, scope) in s'.granted ensures WasGranted(s', grants, all, t, scope) {
      if (t, scope) in s.granted {
        var j :| 0 <= j <= |past| && (s.tasks[t].request.subject, scope, s.tasks[t].request.user) in LastGrants(grants, past[..j]);
        assert all[..j] == past[..j];
        TasksStay(p, s, a, t);
      } else {
        TasksStay(p, s, a, t);
        assert past[..|past|] == past;
      }
    }
  }

  lemma {:induction false} ScheduleGrants(p: Platform, s: System, grants: Grants, past: seq<Action>, actions: seq<Action>)
    requires GrantsOnRecord(s, grants, past) && After(p, s, actions).Some?
    ensures GrantsOnRecord(After(p, s, actions).value, grants, past + actions)
    decreases |actions|
  {
    hide Next, Possible, GrantsOnRecord;
    if actions == [] {
      assert past + actions == past;
    } else {
      GrantsOnRecordStep(p, s, actions[0], grants, past);
      assert past + actions == (past + [actions[0]]) + actions[1..];
      ScheduleGrants(p, Next(p, s, actions[0]), grants, past + [actions[0]], actions[1..]);
    }
  }

  /** Nothing runs that was not permitted: each scope a handler run required had been
      granted to its caller at some moment of the schedule, and its payload is valid. */
  lemma EveryScopeWasGranted(p: Platform, grants: Grants, actions: seq<Action>, k: nat, i: nat)
    requires After(p, Start(grants), actions).Some? && k < |After(p, Start(grants), actions).value.runs|
    requires var r := After(p, Start(grants), actions).value.runs[k].request;
             r.action in p.skills && i < |p.skills[r.action].scopes|
    ensures var r := After(p, Start(grants), actions).value.runs[k].request;
            exists j :: 0 <= j <= |actions| && (r.subject, p.skills[r.action].scopes[i], r.user) in LastGrants(grants, actions[..j])
  {
    hide After, Next, LastGrants;
    var s := After(p, Start(grants), actions).value;
    EveryRunWasPermitted(p, grants, actions, k);
    NothingGranted(grants);
    ScheduleGrants(p, Start(grants), grants, [], actions);
    assert [] + actions == actions;
    ReachableInv(p, Start(grants), actions);
    assert WasGranted(s, grants, actions, s.runs[k].task, p.skills[s.runs[k].request.action].scopes[i]);
  }

  lemma NothingGranted(grants: Grants)
    ensures GrantsOnRecord(Start(grants), grants, [])
  {
  }

  // ---------------------------------------------------------------- what does run

  /** The scopes from number n on are granted to the caller now. */
  ghost predicate GrantedFrom(p: Platform, s: System, r: Request, n: nat)
    requires r.action in p.skills
  {
    forall i :: n <= i < |p.skills[r.action].scopes| ==> (r.subject, p.skills[r.action].scopes[i], r.user) in s.grants
  }

  predicate PassesGate(p: Platform, task: Task)
    requires task.request.action in p.skills
  {
    Rank(p.skills[task.request.action].risk) <= Rank(p.ceiling) || task.origin.Confirmed?
  }

  /** What comes of a permitted and valid call: a run, a ticket, or nothing when there
      is nobody to ask. */
  ghost predicate Comes(p: Platform, s: System, t: nat, end: System)
    requires t < |s.tasks| && s.tasks[t].request.action in p.skills
  {
    var task := s.tasks[t];
    if PassesGate(p, task) then
      end.tickets == s.tickets && end.runs == s.runs + [Run(task.request, task.origin, t)]
    else
      && end.runs == s.runs
      && end.tickets == if task.request.user.None? then s.tickets
                        else s.tickets[s.nextId := Ticket(task.request.user.value, task.request,
                                                          p.skills[task.request.action].risk, PENDING)]
  }

  lemma {:induction false} ChecksPass(p: Platform, s: System, t: nat, n: nat) returns (actions: seq<Action>)
    requires t < |s.tasks| && s.tasks[t].phase == Checking(n) && s.tasks[t].request.action in p.skills
    requires var r := s.tasks[t].request;
             n <= |p.skills[r.action].scopes| && GrantedFrom(p, s, r, n) && p.valid(r.action, r.payload)
    ensures After(p, s, actions).Some? && Comes(p, s, t, After(p, s, actions).value)
    decreases |p.skills[s.tasks[t].request.action].scopes| - n
  {
    hide Rank;
    var s1 := Next(p, s, Check(t));
    if n < |p.skills[s.tasks[t].request.action].scopes| {
      assert s1.tasks[t] == s.tasks[t].(phase := Checking(n + 1)) && s1.grants == s.grants;
      var rest := ChecksPass(p, s1, t, n + 1);
      actions := [Check(t)] + rest;
      assert actions[1..] == rest;
    } else {
      actions := LastActions(p, s, t);
    }
  }

  lemma LastActions(p: Platform, s: System, t: nat) returns (actions: seq<Action>)
    requires t < |s.tasks| && s.tasks[t].request.action in p.skills
    requires var r := s.tasks[t].request;
             s.tasks[t].phase == Checking(|p.skills[r.action].scopes|) && p.valid(r.action, r.payload)
    ensures After(p, s, actions).Some? && Comes(p, s, t, After(p, s, actions).value)
  {
    var s1 := Next(p, s, Check(t));
    var s2 := Next(p, s1, Gate(t));
    if PassesGate(p, s.tasks[t]) {
      actions := [Check(t), Gate(t), Handle(t)];
      var s3 := Next(p, s2, Handle(t));
      assert After(p, s3, []) == Some(s3);
      assert [Handle(t)][1..] == [] && actions[1..] == [Gate(t), Handle(t)] && actions[1..][1..] == [Handle(t)];
      assert After(p, s2, [Handle(t)]) == Some(s3);
      assert After(p, s1, actions[1..]) == Some(s3);
    } else {
      actions := [Check(t), Gate(t)];
      assert After(p, s2, []) == Some(s2);
      assert [Gate(t)][1..] == [] && actions[1..] == [Gate(t)];
      assert After(p, s1, [Gate(t)]) == Some(s2);
    }
  }

  /** The gate is not a dead end: a pending ticket that its owner approves runs, as long
      as the scopes are still granted and the payload is valid. */
  lemma ApprovedActionRuns(p: Platform, s: System, id: TicketId) returns (actions: seq<Action>)
    requires TicketsAreOwned(s) && id in s.tickets && s.tickets[id].state == PENDING
    requires var r := s.tickets[id].request;
             r.action in p.skills && p.valid(r.action, r.payload) && GrantedFrom(p, s, r, 0)
    ensures After(p, s, actions).Some?
    ensures var s' := After(p, s, actions).value;
            && s'.tickets == s.tickets[id := s.tickets[id].(state := APPROVED)]
            && s'.runs == s.runs + [Run(s.tickets[id].request, Confirmed(id), |s.tasks|)]
  {
    var approve := Approve(id, s.tickets[id].user);
    var s1 := Next(p, s, approve);
    assert s1.tasks[|s.tasks|].request == s.tickets[id].request;
    var rest := ChecksPass(p, s1, |s.tasks|, 0);
    actions := [approve] + rest;
    assert actions[1..] == rest;
  }

  /** A permitted and valid call runs at once up to the ceiling; above it, it leaves a
      pending ticket with the whole request when there is a user to ask. */
  lemma CallRunsOrAsks(p: Platform, s: System, r: Request) returns (actions: seq<Action>)
    requires r.action in p.skills && p.valid(r.action, r.payload) && GrantedFrom(p, s, r, 0)
    ensures After(p, s, actions).Some?
    ensures var s', risk := After(p, s, actions).value, p.skills[r.action].risk;
            if Rank(risk) <= Rank(p.ceiling) then
              s'.tickets == s.tickets && s'.runs == s.runs + [Run(r, Ordinary, |s.tasks|)]
            else
              && s'.runs == s.runs
              && s'.tickets == if r.user.None? then s.tickets
                               else s.tickets[s.nextId := Ticket(r.user.value, r, risk, PENDING)]
  {
    hide Rank;
    var s1 := Next(p, s, Call(r));
    var rest := ChecksPass(p, s1, |s.tasks|, 0);
    actions := [Call(r)] + rest;
    assert actions[1..] == rest;
  }
}
