/** Running an agent with everything it delegates: sandboxes, one budget, one record of
    decisions, and handlers that may catch any error and go on.

    What a handler does is up to a program, which may be another one for each call:
    every delegation is recorded first, so the number of decisions on record tells the
    calls apart. Agents may name each other in circles. */
module Orchestration {
  import opened Basics
  import opened Delegation

  /** What a handler does next: charge the budget, ask for a capability, or raise. A
      `guarded` step is one whose error the handler catches. */
  datatype Act =
    | Spend(tokens: int, cost: real, steps: int, guarded: bool)
    | Ask(capability: string, guarded: bool)
    | Fail(guarded: bool)

  datatype Provider = SkillProvider(ref: string) | AgentProvider(ref: string)

  /** `clock(n)` is what the clock shows at the n-th charge, and `skillWorks(n)` says
      whether the n-th delegated skill execution returns. */
  datatype World = World(
    agents: map<string, Agent>, providers: map<string, Provider>,
    program: (string, seq<string>, nat) -> seq<Act>, clock: nat -> nat, skillWorks: nat -> bool)

  /** A delegated skill execution, the sandbox it runs in, and how many charges had been
      made. */
  datatype SkillRun = SkillRun(ref: string, sandbox: SandboxView, charges: nat)

  datatype Decision = Decision(chosen: string, delegator: string, capability: string, chain: seq<string>)

  datatype Trace = Trace(charges: seq<Charge>, runs: seq<SkillRun>, decisions: seq<Decision>)

  function Book(w: World, tr: Trace, tokens: int, cost: real, steps: int): Trace {
    tr.(charges := tr.charges + [Charge(tokens, cost, steps, w.clock(|tr.charges|))])
  }

  /** The last charge did not overrun. */
  predicate Returns(limits: Limits, tr: Trace)
    requires tr.charges != []
  {
    OutcomeOf(limits, tr.charges, |tr.charges| - 1).None?
  }

  ghost predicate InRegistry(w: World, s: SandboxView) {
    && Registry(w.agents) && s.agentId in w.agents
    && DistinctNames(s.chain) && forall i :: 0 <= i < |s.chain| ==> s.chain[i] in w.agents
  }

  lemma ChildInRegistry(w: World, s: SandboxView, id: string)
    requires InRegistry(w, s) && id in w.agents && ChildOf(s, id, w.agents[id].scopes, w.agents[id].limits).Ok?
    ensures var child := ChildOf(s, id, w.agents[id].scopes, w.agents[id].limits).value;
            InRegistry(w, child) && |child.chain| == |s.chain| + 1 <= |w.agents|
  {
    DistinctFit(s.chain + [id], w.agents.Keys);
  }

  /** The rest of a handler: true when it returns. The recursion through circles of
      agents ends because chains grow without repeating an agent. */
  ghost function Handled(w: World, limits: Limits, s: SandboxView, acts: seq<Act>, tr: Trace): (Trace, bool)
    requires InRegistry(w, s)
    decreases |w.agents| - |s.chain|, |acts|, 0
  {
    if acts == [] then (tr, true)
    else
      var (tr', ok) := Performed(w, limits, s, acts, tr);
      if ok || acts[0].guarded then Handled(w, limits, s, acts[1..], tr') else (tr', false)
  }

  /** The first of the acts. */
  ghost function Performed(w: World, limits: Limits, s: SandboxView, acts: seq<Act>, tr: Trace): (Trace, bool)
    requires InRegistry(w, s) && acts != []
    decreases |w.agents| - |s.chain|, |acts| - 1, 2
  {
    match acts[0]
    case Fail(_) => (tr, false)
    case Spend(tokens, cost, steps, _) =>
      var tr' := Book(w, tr, tokens, cost, steps);
      (tr', Returns(limits, tr'))
    case Ask(capability, _) =>
      if Refusal(w.agents[s.agentId], capability).Some? || capability !in w.providers then (tr, false)
      else
        var provider := w.providers[capability];
        var asked := Decided(tr, s, capability, provider);
        match provider
        case SkillProvider(ref) => SkillDone(w, limits, s, ref, asked)
        case AgentProvider(ref) =>
          if ref !in w.agents then (asked, false)
          else
            AgentDone(w, limits, s, ref, asked)
  }

  /** Delegating to an agent: it runs in a child sandbox, on the same budget. */
  ghost function AgentDone(w: World, limits: Limits, s: SandboxView, ref: string, tr: Trace): (Trace, bool)
    requires InRegistry(w, s) && ref in w.agents
    decreases |w.agents| - |s.chain|, 0, 0
  {
    var child := ChildOf(s, ref, w.agents[ref].scopes, w.agents[ref].limits);
    if child.Err? then (tr, false)
    else
      ChildInRegistry(w, s, ref);
      Handled(w, limits, child.value, w.program(ref, child.value.chain, |tr.decisions|), tr)
  }

  function Decided(tr: Trace, s: SandboxView, capability: string, provider: Provider): Trace {
    tr.(decisions := tr.decisions + [Decision(provider.ref, s.agentId, capability, s.chain)])
  }

  /** Delegating to a skill: one step is charged, and the skill runs in the same sandbox. */
  function SkillDone(w: World, limits: Limits, s: SandboxView, ref: string, tr: Trace): (Trace, bool) {
    var booked := Book(w, tr, 0, 0.0, 1);
    if !Returns(limits, booked) then (booked, false)
    else (booked.(runs := booked.runs + [SkillRun(ref, s, |booked.charges|)]), w.skillWorks(|booked.runs|))
  }

  const NOTHING := Trace([], [], [])

  function GrantedTo(agent: Agent, user: Option<set<string>>): set<string> {
    if user.None? then agent.scopes else agent.scopes * user.value
  }

  // ---------------------------------------------------------------- the orchestrator

  class Orchestrator {
    const world: World
    var decisions: seq<Decision>
    var runs: seq<SkillRun>
    var readings: nat            // of the clock

    ghost predicate At(tr: Trace, budget: BudgetTracker)
      reads this, budget
    {
      decisions == tr.decisions && runs == tr.runs && readings == |tr.charges| && budget.View() == Spent(tr.charges)
    }

    constructor (world: World)
      ensures this.world == world && decisions == [] && runs == [] && readings == 0
    {
      this.world, decisions, runs, readings := world, [], [], 0;
    }

    method ChargeBudget(budget: BudgetTracker, tokens: int, cost: real, steps: int, ghost tr: Trace)
      returns (ok: bool, ghost tr': Trace)
      requires At(tr, budget)
      modifies this`readings, budget
      ensures tr' == Book(world, tr, tokens, cost, steps) && At(tr', budget) && ok == Returns(budget.limits, tr')
    {
      tr' := Book(world, tr, tokens, cost, steps);
      assert tr'.charges[..|tr.charges|] == tr.charges && tr'.charges[..|tr'.charges|] == tr'.charges;
      var overrun := budget.Debit(Charge(tokens, cost, steps, world.clock(readings)));
      readings := readings + 1;
      ok := overrun.None?;
    }

    method HandleActs(sandbox: AgentSandbox, acts: seq<Act>, ghost tr: Trace) returns (ok: bool, ghost tr': Trace)
      requires InRegistry(world, sandbox.View()) && At(tr, sandbox.budget)
      modifies this, sandbox.budget
      decreases |world.agents| - |sandbox.chain|, |acts|, 0
      ensures (tr', ok) == Handled(world, sandbox.budget.limits, sandbox.View(), acts, tr) && At(tr', sandbox.budget)
    {
      hide InRegistry, Performed;
      tr', ok := tr, true;
      if acts == [] {
        return;
      }
      ok, tr' := Perform(sandbox, acts, tr);
      if ok || acts[0].guarded {
        ok, tr' := HandleActs(sandbox, acts[1..], tr');
      }
    }

    method Perform(sandbox: AgentSandbox, acts: seq<Act>, ghost tr: Trace) returns (ok: bool, ghost tr': Trace)
      requires InRegistry(world, sandbox.View()) && At(tr, sandbox.budget) && acts != []
      modifies this, sandbox.budget
      decreases |world.agents| - |sandbox.chain|, |acts| - 1, 2
      ensures (tr', ok) == Performed(world, sandbox.budget.limits, sandbox.View(), acts, tr) && At(tr', sandbox.budget)
    {
      match acts[0]
      case Fail(_) =>
        ok, tr' := false, tr;
      case Spend(tokens, cost, steps, _) =>
        ok, tr' := ChargeBudget(sandbox.budget, tokens, cost, steps, tr);
      case Ask(capability, _) =>
        ok, tr' := Delegate(sandbox, capability, acts, tr);
    }

    /** An agent asks for a capability. */
    method Delegate(sandbox: AgentSandbox, capability: string, ghost acts: seq<Act>, ghost tr: Trace)
      returns (ok: bool, ghost tr': Trace)
      requires InRegistry(world, sandbox.View()) && At(tr, sandbox.budget)
      requires acts != [] && acts[0].Ask? && acts[0].capability == capability
      modifies this, sandbox.budget
      decreases |world.agents| - |sandbox.chain|, |acts| - 1, 1
      ensures (tr', ok) == Performed(world, sandbox.budget.limits, sandbox.View(), acts, tr) && At(tr', sandbox.budget)
    {
      tr', ok := tr, false;
      if Refusal(world.agents[sandbox.agentId], capability).Some? || capability !in world.providers {
        return;
      }
      var provider := world.providers[capability];
      decisions := decisions + [Decision(provider.ref, sandbox.agentId, capability, sandbox.chain)];
      tr' := Decided(tr, sandbox.View(), capability, provider);
      match provider
      case SkillProvider(ref) =>
        ok, tr' := DelegateToSkill(sandbox, ref, tr');
      case AgentProvider(ref) =>
        if ref in world.agents {
          ok, tr' := DelegateToAgent(sandbox, ref, tr');
        }
    }

    method DelegateToSkill(sandbox: AgentSandbox, ref: string, ghost tr: Trace) returns (ok: bool, ghost tr': Trace)
      requires At(tr, sandbox.budget)
      modifies this, sandbox.budget
      ensures (tr', ok) == SkillDone(world, sandbox.budget.limits, sandbox.View(), ref, tr) && At(tr', sandbox.budget)
    {
      ok, tr' := ChargeBudget(sandbox.budget, 0, 0.0, 1, tr);
      if ok {
        ok := world.skillWorks(|runs|);
        runs := runs + [SkillRun(ref, sandbox.View(), readings)];
        tr' := tr'.(runs := runs);
      }
    }

    method DelegateToAgent(sandbox: AgentSandbox, ref: string, ghost tr: Trace) returns (ok: bool, ghost tr': Trace)
      requires InRegistry(world, sandbox.View()) && At(tr, sandbox.budget) && ref in world.agents
      modifies this, sandbox.budget
      decreases |world.agents| - |sandbox.chain|, 0, 0
      ensures (tr', ok) == AgentDone(world, sandbox.budget.limits, sandbox.View(), ref, tr) && At(tr', sandbox.budget)
    {
      hide InRegistry, Handled;
      tr', ok := tr, false;
      var agent := world.agents[ref];
      var child := sandbox.Child(ref, agent.scopes, agent.limits);
      if child.Ok? {
        ChildInRegistry(world, sandbox.View(), ref);
        ok, tr' := HandleActs(child.value, world.program(ref, child.value.chain, |decisions|), tr);
        child.value.Discard();
      }
    }

    /** Running an agent from outside: a sandbox of its own at the top of the tree, with
        its scopes cut down to the user's, discarded at the end whatever happened. */
    method ExecuteAgent(id: string, platform: Port, user: Option<set<string>>)
      returns (ok: bool, ghost budget: Budget, ghost tr: Trace)
      requires Registry(world.agents)
      modifies this
      ensures id !in world.agents ==> !ok && decisions == old(decisions) && runs == old(runs)
      ensures id in world.agents ==>
                && (tr, ok) == Executed(world, id, platform, user, Trace([], old(runs), old(decisions)))
                && decisions == tr.decisions && runs == tr.runs && budget == Spent(tr.charges)
    {
      ok, budget, tr := false, Spent([]), NOTHING;
      if id !in world.agents {
        return;
      }
      var agent := world.agents[id];
      var sandbox := new AgentSandbox.Top(id, platform, GrantedTo(agent, user), agent.limits);
      readings := 0;
      ok, tr := HandleActs(sandbox, world.program(id, [id], |decisions|), Trace([], runs, decisions));
      budget := sandbox.budget.View();
      sandbox.Discard();
    }
  }

  ghost function Executed(w: World, id: string, platform: Port, user: Option<set<string>>, tr: Trace): (Trace, bool)
    requires Registry(w.agents) && id in w.agents
  {
    var agent := w.agents[id];
    Handled(w, agent.limits, TopView(id, platform, GrantedTo(agent, user), agent.limits), w.program(id, [id], |tr.decisions|), tr)
  }

  // ---------------------------------------------------------------- what every tree keeps

  /** No handler books a negative charge. */
  ghost predicate Thrifty(acts: seq<Act>) {
    forall i :: 0 <= i < |acts| && acts[i].Spend? ==> acts[i].tokens >= 0 && acts[i].steps >= 0
  }

  ghost predicate Sound(w: World) {
    && (forall id: string, chain: seq<string>, call: nat :: Thrifty(w.program(id, chain, call)))
    && (forall m: nat, n: nat :: m <= n ==> w.clock(m) <= w.clock(n))
  }

  /** The sandbox's permissions are exactly the platform's, cut down to what was granted
      at the top and to what every later agent of the chain declares. */
  ghost predicate Narrowed(w: World, platform: Port, granted: set<string>, s: SandboxView) {
    forall scope :: IsAllowed(s.permissions, scope) <==>
      && IsAllowed(platform, scope) && scope in granted
      && forall i :: 0 < i < |s.chain| && s.chain[i] in w.agents ==> scope in w.agents[s.chain[i]].scopes
  }

  ghost predicate Booked(w: World, tr: Trace) {
    && NonNegative(tr.charges)
    && forall k :: 0 <= k < |tr.charges| ==> tr.charges[k].elapsed == w.clock(k)
  }

  /** The runs after the first `base` ones, each after a charge that returned. */
  ghost predicate Paid(limits: Limits, base: nat, tr: Trace) {
    && base <= |tr.runs| && |tr.runs| - base <= Spent(tr.charges).steps && |tr.runs| - base <= limits.maxSteps
    && forall k :: base <= k < |tr.runs| ==>
         0 < tr.runs[k].charges <= |tr.charges| && OutcomeOf(limits, tr.charges, tr.runs[k].charges - 1).None?
  }

  ghost predicate RunsNarrowed(w: World, platform: Port, granted: set<string>, base: nat, tr: Trace) {
    forall k :: base <= k < |tr.runs| ==> Narrowed(w, platform, granted, tr.runs[k].sandbox)
  }

  /** The question a tree is asked: its world, root limits, platform and grant, and how
      many runs were there before it. */
  datatype Tree = Tree(w: World, limits: Limits, platform: Port, granted: set<string>, base: nat)

  ghost predicate TreeInv(t: Tree, tr: Trace) {
    Booked(t.w, tr) && Paid(t.limits, t.base, tr) && RunsNarrowed(t.w, t.platform, t.granted, t.base, tr)
  }

  /** One more charge adds up, and leaves the earlier outcomes as they were. */
  lemma OneMoreCharge(limits: Limits, charges: seq<Charge>, charge: Charge)
    ensures Spent(charges + [charge]).steps == Spent(charges).steps + charge.steps
    ensures forall k :: 0 <= k < |charges| ==> OutcomeOf(limits, charges + [charge], k) == OutcomeOf(limits, charges, k)
  {
    assert (charges + [charge])[..|charges|] == charges;
    hide Spent, Checked;
    forall k | 0 <= k < |charges| ensures OutcomeOf(limits, charges + [charge], k) == OutcomeOf(limits, charges, k) {
      assert (charges + [charge])[..k + 1] == charges[..k + 1];
    }
  }

  lemma BookKeeps(t: Tree, tr: Trace, tokens: int, cost: real, steps: int)
    requires TreeInv(t, tr) && tokens >= 0 && steps >= 0
    ensures TreeInv(t, Book(t.w, tr, tokens, cost, steps))
    ensures Spent(Book(t.w, tr, tokens, cost, steps).charges).steps == Spent(tr.charges).steps + steps
  {
    hide Spent, OutcomeOf, Narrowed;
    OneMoreCharge(t.limits, tr.charges, Charge(tokens, cost, steps, t.w.clock(|tr.charges|)));
  }

  lemma SkillKeeps(t: Tree, s: SandboxView, ref: string, tr: Trace)
    requires TreeInv(t, tr) && Narrowed(t.w, t.platform, t.granted, s)
    ensures TreeInv(t, SkillDone(t.w, t.limits, s, ref, tr).0)
  {
    BookKeeps(t, tr, 0, 0.0, 1);
    var booked := Book(t.w, tr, 0, 0.0, 1);
    assert booked.charges != [] && booked.runs == tr.runs;
    assert |tr.runs| - t.base <= Spent(tr.charges).steps;
    hide Narrowed, TreeInv, Book, Spent, Returns;
    if Returns(t.limits, booked) {
      RunKeeps(t, s, ref, booked);
    }
  }

  /** A run after a charge that returned, paid by that charge. */
  lemma RunKeeps(t: Tree, s: SandboxView, ref: string, tr: Trace)
    requires TreeInv(t, tr) && Narrowed(t.w, t.platform, t.granted, s) && tr.charges != [] && Returns(t.limits, tr)
    requires |tr.runs| - t.base < Spent(tr.charges).steps
    ensures TreeInv(t, tr.(runs := tr.runs + [SkillRun(ref, s, |tr.charges|)]))
  {
    hide Narrowed, Booked;
    assert tr.charges[..|tr.charges|] == tr.charges;
    assert Booked(t.w, tr.(runs := tr.runs + [SkillRun(ref, s, |tr.charges|)])) by { BookedIsCharges(t.w, tr, ref, s); }
  }

  lemma BookedIsCharges(w: World, tr: Trace, ref: string, s: SandboxView)
    requires Booked(w, tr)
    ensures Booked(w, tr.(runs := tr.runs + [SkillRun(ref, s, |tr.charges|)]))
  {
  }

  lemma ChildNarrowed(t: Tree, s: SandboxView, ref: string)
    requires Narrowed(t.w, t.platform, t.granted, s) && s.chain != [] && ref in t.w.agents
    requires ChildOf(s, ref, t.w.agents[ref].scopes, t.w.agents[ref].limits).Ok?
    requires forall scope :: IsAllowed(s.permissions, scope) ==> scope in s.scopes
    ensures var child := ChildOf(s, ref, t.w.agents[ref].scopes, t.w.agents[ref].limits).value;
            && Narrowed(t.w, t.platform, t.granted, child) && child.chain != []
            && (forall scope :: IsAllowed(child.permissions, scope) ==> scope in child.scopes)
  {
    var child := ChildOf(s, ref, t.w.agents[ref].scopes, t.w.agents[ref].limits).value;
    var n := |s.chain|;
    assert child.chain[n] == ref && forall i :: 0 <= i < n ==> child.chain[i] == s.chain[i];
    forall scope
      ensures IsAllowed(child.permissions, scope) <==>
              && IsAllowed(t.platform, scope) && scope in t.granted
              && forall i :: 0 < i < |child.chain| && child.chain[i] in t.w.agents ==> scope in t.w.agents[child.chain[i]].scopes
    {
      assert IsAllowed(child.permissions, scope) <==> scope in t.w.agents[ref].scopes && IsAllowed(s.permissions, scope);
    }
  }

  /** A sandbox of this tree. */
  ghost predicate InTree(t: Tree, s: SandboxView) {
    && InRegistry(t.w, s) && Narrowed(t.w, t.platform, t.granted, s) && s.chain != []
    && (forall scope :: IsAllowed(s.permissions, scope) ==> scope in s.scopes)
  }

  lemma {:induction false} HandledKeeps(t: Tree, s: SandboxView, acts: seq<Act>, tr: Trace)
    requires Sound(t.w) && InTree(t, s) && Thrifty(acts) && TreeInv(t, tr)
    ensures TreeInv(t, Handled(t.w, t.limits, s, acts, tr).0)
    decreases |t.w.agents| - |s.chain|, |acts|, 0
  {
    hide InRegistry, Performed, Narrowed, TreeInv, Sound;
    if acts == [] {
    } else {
      PerformedKeeps(t, s, acts, tr);
      HandledKeeps(t, s, acts[1..], Performed(t.w, t.limits, s, acts, tr).0);
    }
  }

  lemma {:induction false} PerformedKeeps(t: Tree, s: SandboxView, acts: seq<Act>, tr: Trace)
    requires Sound(t.w) && InTree(t, s) && Thrifty(acts) && TreeInv(t, tr) && acts != []
    ensures TreeInv(t, Performed(t.w, t.limits, s, acts, tr).0)
    decreases |t.w.agents| - |s.chain|, |acts| - 1, 2
  {
    hide AgentDone, SkillDone, Narrowed, Sound, Refusal, Booked, Paid, RunsNarrowed;
    match acts[0]
    case Fail(_) =>
    case Spend(tokens, cost, steps, _) => BookKeeps(t, tr, tokens, cost, steps);
    case Ask(capability, _) =>
      if Refusal(t.w.agents[s.agentId], capability).None? && capability in t.w.providers {
        var asked := Decided(tr, s, capability, t.w.providers[capability]);
        DecidingKeeps(t, s, capability, tr);
        match t.w.providers[capability]
        case SkillProvider(ref) => SkillKeeps(t, s, ref, asked);
        case AgentProvider(ref) =>
          if ref in t.w.agents {
            AgentKeeps(t, s, ref, asked);
          }
      }
  }

  lemma DecidingKeeps(t: Tree, s: SandboxView, capability: string, tr: Trace)
    requires TreeInv(t, tr) && capability in t.w.providers
    ensures TreeInv(t, Decided(tr, s, capability, t.w.providers[capability]))
  {
    hide Narrowed, OutcomeOf, Spent;
  }

  lemma {:induction false} AgentKeeps(t: Tree, s: SandboxView, ref: string, tr: Trace)
    requires Sound(t.w) && InTree(t, s) && TreeInv(t, tr) && ref in t.w.agents
    ensures TreeInv(t, AgentDone(t.w, t.limits, s, ref, tr).0)
    decreases |t.w.agents| - |s.chain|, 0, 0
  {
    hide Narrowed, Handled, TreeInv;
    var child := ChildOf(s, ref, t.w.agents[ref].scopes, t.w.agents[ref].limits);
    if child.Ok? {
      ChildInRegistry(t.w, s, ref);
      ChildNarrowed(t, s, ref);
      assert Thrifty(t.w.program(ref, child.value.chain, |tr.decisions|));
      HandledKeeps(t, child.value, t.w.program(ref, child.value.chain, |tr.decisions|), tr);
    }
  }

  /** One execution of an agent, with whatever it delegates and whatever errors its
      handlers swallow: no more skills run than the top agent's step limit; every skill
      run comes before the first charge that overran; and it runs with exactly the
      permissions that the platform, the grant and every agent of its chain share. */
  lemma TreesStayInBounds(w: World, id: string, platform: Port, user: Option<set<string>>, tr: Trace)
    requires Registry(w.agents) && id in w.agents && Sound(w) && tr.charges == []
    ensures var limits := w.agents[id].limits;
            var tr' := Executed(w, id, platform, user, tr).0;
            && |tr.runs| <= |tr'.runs| <= |tr.runs| + limits.maxSteps
            && (forall k :: |tr.runs| <= k < |tr'.runs| ==>
                  && 0 < tr'.runs[k].charges <= |tr'.charges|
                  && (forall j :: 0 <= j < tr'.runs[k].charges ==> OutcomeOf(limits, tr'.charges, j).None?)
                  && Narrowed(w, platform, GrantedTo(w.agents[id], user), tr'.runs[k].sandbox))
  {
    hide Handled, Narrowed;
    var agent := w.agents[id];
    var t := Tree(w, agent.limits, platform, GrantedTo(agent, user), |tr.runs|);
    var top := TopView(id, platform, t.granted, agent.limits);
    TopInTree(t, id);
    assert Thrifty(w.program(id, [id], |tr.decisions|));
    HandledKeeps(t, top, w.program(id, [id], |tr.decisions|), tr);
    var tr' := Executed(w, id, platform, user, tr).0;
    forall k | |tr.runs| <= k < |tr'.runs|
      ensures forall j :: 0 <= j < tr'.runs[k].charges ==> OutcomeOf(agent.limits, tr'.charges, j).None?
    {
      forall j | 0 <= j < tr'.runs[k].charges ensures OutcomeOf(agent.limits, tr'.charges, j).None? {
        OverrunIsFinal(agent.limits, tr'.charges, j, tr'.runs[k].charges - 1);
      }
    }
  }

  lemma TopInTree(t: Tree, id: string)
    requires Registry(t.w.agents) && id in t.w.agents
    ensures InTree(t, TopView(id, t.platform, t.granted, t.w.agents[id].limits))
  {
  }

  // ---------------------------------------------------------------- what is on record

  /** The decisions from number `from` on were open to those who made them. */
  ghost predicate Permitted(w: World, decisions: seq<Decision>, from: nat) {
    forall k :: from <= k < |decisions| ==>
      var d := decisions[k];
      && d.chain != [] && d.chain[|d.chain| - 1] == d.delegator && d.delegator in w.agents
      && MayAsk(w.agents[d.delegator], d.capability)
      && d.capability in w.providers && d.chosen == w.providers[d.capability].ref
  }

  ghost predicate EndsInItself(s: SandboxView) { s.chain != [] && s.chain[|s.chain| - 1] == s.agentId }

  lemma {:induction false} HandledIsPermitted(w: World, limits: Limits, s: SandboxView, acts: seq<Act>, tr: Trace, from: nat)
    requires InRegistry(w, s) && EndsInItself(s) && Permitted(w, tr.decisions, from)
    ensures Permitted(w, Handled(w, limits, s, acts, tr).0.decisions, from)
    decreases |w.agents| - |s.chain|, |acts|, 0
  {
    hide InRegistry, Performed, Permitted, EndsInItself;
    if acts != [] {
      PerformedIsPermitted(w, limits, s, acts, tr, from);
      HandledIsPermitted(w, limits, s, acts[1..], Performed(w, limits, s, acts, tr).0, from);
    }
  }

  lemma {:induction false} PerformedIsPermitted(w: World, limits: Limits, s: SandboxView, acts: seq<Act>, tr: Trace, from: nat)
    requires InRegistry(w, s) && EndsInItself(s) && Permitted(w, tr.decisions, from) && acts != []
    ensures Permitted(w, Performed(w, limits, s, acts, tr).0.decisions, from)
    decreases |w.agents| - |s.chain|, |acts| - 1, 2
  {
    hide AgentDone, DistinctNames, Returns;
    match acts[0]
    case Ask(capability, _) =>
      if Refusal(w.agents[s.agentId], capability).None? && capability in w.providers {
        var asked := Decided(tr, s, capability, w.providers[capability]);
        DecidedIsPermitted(w, s, capability, tr, from);
        match w.providers[capability]
        case SkillProvider(_) =>
        case AgentProvider(ref) =>
          if ref in w.agents {
            AgentIsPermitted(w, limits, s, ref, asked, from);
          }
      }
    case _ =>
  }

  lemma DecidedIsPermitted(w: World, s: SandboxView, capability: string, tr: Trace, from: nat)
    requires s.agentId in w.agents && EndsInItself(s) && Permitted(w, tr.decisions, from)
    requires Refusal(w.agents[s.agentId], capability).None? && capability in w.providers
    ensures Permitted(w, Decided(tr, s, capability, w.providers[capability]).decisions, from)
  {
    assert MayAsk(w.agents[s.agentId], capability);
  }

  lemma {:induction false} AgentIsPermitted(w: World, limits: Limits, s: SandboxView, ref: string, tr: Trace, from: nat)
    requires InRegistry(w, s) && ref in w.agents && Permitted(w, tr.decisions, from)
    ensures Permitted(w, AgentDone(w, limits, s, ref, tr).0.decisions, from)
    decreases |w.agents| - |s.chain|, 0, 0
  {
    hide Permitted, Handled;
    var child := ChildOf(s, ref, w.agents[ref].scopes, w.agents[ref].limits);
    if child.Ok? {
      ChildInRegistry(w, s, ref);
      HandledIsPermitted(w, limits, child.value, w.program(ref, child.value.chain, |tr.decisions|), tr, from);
    }
  }

  /** Every delegation an execution leaves on record was open to the agent that made it:
      its policy allows the capability, and the provider of it was chosen. */
  lemma DelegationsArePermitted(w: World, id: string, platform: Port, user: Option<set<string>>, tr: Trace)
    requires Registry(w.agents) && id in w.agents
    ensures Permitted(w, Executed(w, id, platform, user, tr).0.decisions, |tr.decisions|)
  {
    hide Handled;
    var agent := w.agents[id];
    var t := Tree(w, agent.limits, platform, GrantedTo(agent, user), |tr.runs|);
    TopInTree(t, id);
    HandledIsPermitted(w, agent.limits, TopView(id, platform, t.granted, agent.limits), w.program(id, [id], |tr.decisions|), tr, |tr.decisions|);
  }

  /** What a user has not granted is not used: the top agent may do what the platform
      allows, its manifest declares, and the user has, when one is named. */
  lemma UserBoundsTheAgent(agent: Agent, platform: Port, user: Option<set<string>>, scope: string)
    ensures IsAllowed(TopView(agent.id, platform, GrantedTo(agent, user), agent.limits).permissions, scope)
            <==> IsAllowed(platform, scope) && scope in agent.scopes && (user.Some? ==> scope in user.value)
  {
  }

  // ---------------------------------------------------------------- how a handler ends

  /** The trace after the first n acts. */
  ghost function TraceAfter(w: World, limits: Limits, s: SandboxView, acts: seq<Act>, tr: Trace, n: nat): Trace
    requires InRegistry(w, s) && n <= |acts|
  {
    if n == 0 then tr else Performed(w, limits, s, acts[n - 1..], TraceAfter(w, limits, s, acts, tr, n - 1)).0
  }

  /** Act n works, or the handler catches its error. */
  ghost predicate GoesOn(w: World, limits: Limits, s: SandboxView, acts: seq<Act>, tr: Trace, n: nat)
    requires InRegistry(w, s) && n < |acts|
  {
    acts[n].guarded || Performed(w, limits, s, acts[n..], TraceAfter(w, limits, s, acts, tr, n)).1
  }

  lemma {:induction false} TraceFromRest(w: World, limits: Limits, s: SandboxView, acts: seq<Act>, tr: Trace, n: nat)
    requires InRegistry(w, s) && 0 < n <= |acts|
    ensures TraceAfter(w, limits, s, acts, tr, n)
            == TraceAfter(w, limits, s, acts[1..], Performed(w, limits, s, acts, tr).0, n - 1)
  {
    hide InRegistry, Performed;
    assert acts[0..] == acts;
    if n > 1 {
      TraceFromRest(w, limits, s, acts, tr, n - 1);
      assert acts[1..][n - 2..] == acts[n - 1..];
    }
  }

  /** A handler that runs n acts and stops: the last of them failed, and was not caught;
      or there are no more. */
  lemma {:induction false} HandlersStopAtErrors(w: World, limits: Limits, s: SandboxView, acts: seq<Act>, tr: Trace) returns (n: nat)
    requires InRegistry(w, s)
    ensures n <= |acts| && Handled(w, limits, s, acts, tr).0 == TraceAfter(w, limits, s, acts, tr, n)
    ensures Handled(w, limits, s, acts, tr).1 ==> n == |acts| && forall k :: 0 <= k < n ==> GoesOn(w, limits, s, acts, tr, k)
    ensures !Handled(w, limits, s, acts, tr).1 ==>
              n > 0 && !GoesOn(w, limits, s, acts, tr, n - 1) && forall k :: 0 <= k < n - 1 ==> GoesOn(w, limits, s, acts, tr, k)
  {
    hide InRegistry, Performed;
    if acts == [] {
      n := 0;
    } else {
      var (tr', ok) := Performed(w, limits, s, acts, tr);
      assert acts[0..] == acts;
      if ok || acts[0].guarded {
        var m := HandlersStopAtErrors(w, limits, s, acts[1..], tr');
        n := m + 1;
        TraceFromRest(w, limits, s, acts, tr, n);
        forall k | 0 < k < |acts| ensures GoesOn(w, limits, s, acts, tr, k) <==> GoesOn(w, limits, s, acts[1..], tr', k - 1) {
          TraceFromRest(w, limits, s, acts, tr, k);
          assert acts[1..][k - 1..] == acts[k..];
        }
        assert forall k :: 0 < k < n ==> (GoesOn(w, limits, s, acts, tr, k) <==> GoesOn(w, limits, s, acts[1..], tr', k - 1));
      } else {
        n := 1;
        assert TraceAfter(w, limits, s, acts, tr, 0) == tr;
      }
    }
  }
}
