/** Agents in sandboxes: permissions that only narrow, chains without cycles, and one
    budget shared by the whole delegation tree. */
module Delegation {
  import opened Basics

  /** `maxSeconds` and the clock are in whole units of the clock. */
  datatype Limits = Limits(maxTokens: nat, maxSeconds: nat, maxSteps: nat, maxDepth: nat)

  // ---------------------------------------------------------------- budget

  datatype Budget = Budget(tokens: int, cost: real, steps: int)

  /** One `charge`, and what the clock shows when it is made. */
  datatype Charge = Charge(tokens: int, cost: real, steps: int, elapsed: nat)

  datatype Overrun = Tokens | Steps | Time

  function Checked(limits: Limits, b: Budget, elapsed: nat): Option<Overrun> {
    if b.tokens > limits.maxTokens then Some(Tokens)
    else if b.steps > limits.maxSteps then Some(Steps)
    else if elapsed > limits.maxSeconds then Some(Time)
    else None
  }

  /** The debit comes first: an overrun is raised with the charge already booked. */
  function Charged(b: Budget, c: Charge): Budget {
    Budget(b.tokens + c.tokens, b.cost + c.cost, b.steps + c.steps)
  }

  /** An overrun names the first limit passed, of tokens, steps and time in this order; a
      limit just reached is not passed. */
  lemma OverrunsExactly(limits: Limits, b: Budget, elapsed: nat)
    ensures var tokens, steps, time := b.tokens <= limits.maxTokens, b.steps <= limits.maxSteps, elapsed <= limits.maxSeconds;
            && (Checked(limits, b, elapsed) == Some(Tokens) <==> !tokens)
            && (Checked(limits, b, elapsed) == Some(Steps) <==> tokens && !steps)
            && (Checked(limits, b, elapsed) == Some(Time) <==> tokens && steps && !time)
            && (Checked(limits, b, elapsed) == None <==> tokens && steps && time)
  {
  }

  class BudgetTracker {
    const limits: Limits
    var tokens: int
    var cost: real
    var steps: int

    ghost function View(): Budget
      reads this
    {
      Budget(tokens, cost, steps)
    }

    constructor (limits: Limits)
      ensures this.limits == limits && View() == Budget(0, 0.0, 0)
    {
      this.limits := limits;
      tokens, cost, steps := 0, 0.0, 0;
    }

    method Check(elapsed: nat) returns (overrun: Option<Overrun>)
      ensures overrun == Checked(limits, View(), elapsed)
    {
      if tokens > limits.maxTokens {
        return Some(Tokens);
      }
      if steps > limits.maxSteps {
        return Some(Steps);
      }
      if elapsed > limits.maxSeconds {
        return Some(Time);
      }
      return None;
    }

    method Debit(c: Charge) returns (overrun: Option<Overrun>)
      modifies this
      ensures View() == Charged(old(View()), c)
      ensures overrun == Checked(limits, View(), c.elapsed)
    {
      tokens := tokens + c.tokens;
      cost := cost + c.cost;
      steps := steps + c.steps;
      overrun := Check(c.elapsed);
    }
  }

  /** The budget after a history of charges, whoever made them. */
  function Spent(charges: seq<Charge>): Budget {
    if charges == [] then Budget(0, 0.0, 0) else Charged(Spent(charges[..|charges| - 1]), charges[|charges| - 1])
  }

  /** Every charge counts, in all three, whoever makes it. */
  lemma {:induction false} SpentAdds(charges: seq<Charge>, more: seq<Charge>)
    ensures var a, b, both := Spent(charges), Spent(more), Spent(charges + more);
            both.tokens == a.tokens + b.tokens && both.cost == a.cost + b.cost && both.steps == a.steps + b.steps
    ensures forall c :: Spent([c]) == Budget(c.tokens, c.cost, c.steps)
    decreases |more|
  {
    if more == [] {
      assert charges + more == charges;
    } else {
      assert (charges + more)[..|charges + more| - 1] == charges + more[..|more| - 1];
      SpentAdds(charges, more[..|more| - 1]);
    }
    forall c ensures Spent([c]) == Budget(c.tokens, c.cost, c.steps) {
      assert [c][..0] == [];
    }
  }

  /** The outcome of the k-th charge of a history. */
  function OutcomeOf(limits: Limits, charges: seq<Charge>, k: nat): Option<Overrun>
    requires k < |charges|
  {
    Checked(limits, Spent(charges[..k + 1]), charges[k].elapsed)
  }

  predicate NonNegative(charges: seq<Charge>) {
    forall k :: 0 <= k < |charges| ==> charges[k].tokens >= 0 && charges[k].steps >= 0
  }

  predicate ClockRuns(charges: seq<Charge>) {
    forall j, k :: 0 <= j < k < |charges| ==> charges[j].elapsed <= charges[k].elapsed
  }

  lemma {:induction false} SpendingGrows(charges: seq<Charge>, j: nat, k: nat)
    requires j <= k <= |charges| && NonNegative(charges)
    ensures Spent(charges[..j]).tokens <= Spent(charges[..k]).tokens && Spent(charges[..j]).steps <= Spent(charges[..k]).steps
    decreases k - j
  {
    if j < k {
      SpendingGrows(charges, j, k - 1);
      assert charges[..k][..k - 1] == charges[..k - 1];
    }
  }

  /** A charge returns iff it leaves the tree within the root's limits, and after the
      first overrun no charge returns, in whatever order the sandboxes of the tree
      make them. */
  lemma OverrunIsFinal(limits: Limits, charges: seq<Charge>, j: nat, k: nat)
    requires j <= k < |charges| && NonNegative(charges) && ClockRuns(charges)
    ensures var b := Spent(charges[..k + 1]);
            OutcomeOf(limits, charges, k).None? <==>
              b.tokens <= limits.maxTokens && b.steps <= limits.maxSteps && charges[k].elapsed <= limits.maxSeconds
    ensures OutcomeOf(limits, charges, j).Some? ==> OutcomeOf(limits, charges, k).Some?
  {
    SpendingGrows(charges, j + 1, k + 1);
  }

  /** How many of the first n charges returned. */
  function Returned(limits: Limits, charges: seq<Charge>, n: nat): nat
    requires n <= |charges|
  {
    if n == 0 then 0 else Returned(limits, charges, n - 1) + if OutcomeOf(limits, charges, n - 1).None? then 1 else 0
  }

  lemma {:induction false} ReturnedIsSteps(limits: Limits, charges: seq<Charge>, n: nat)
    requires n <= |charges| && NonNegative(charges)
    requires forall k :: 0 <= k < |charges| ==> charges[k].steps >= 1
    ensures Returned(limits, charges, n) <= Spent(charges[..n]).steps
    ensures Returned(limits, charges, n) <= limits.maxSteps
  {
    if n == 0 {
    } else {
      ReturnedIsSteps(limits, charges, n - 1);
      assert charges[..n][..n - 1] == charges[..n - 1];
    }
  }

  /** The whole tree together gets at most max_steps charged steps. */
  lemma AtMostMaxSteps(limits: Limits, charges: seq<Charge>)
    requires NonNegative(charges) && forall k :: 0 <= k < |charges| ==> charges[k].steps >= 1
    ensures Returned(limits, charges, |charges|) <= limits.maxSteps
  {
    ReturnedIsSteps(limits, charges, |charges|);
  }

  /** Money is booked but never checked: no amount of it makes a charge fail. */
  lemma CostIsNotLimited(limits: Limits, charges: seq<Charge>, charges': seq<Charge>, k: nat)
    requires |charges| == |charges'| && k < |charges|
    requires forall i :: 0 <= i < |charges| ==> charges'[i].(cost := charges[i].cost) == charges[i]
    ensures OutcomeOf(limits, charges, k) == OutcomeOf(limits, charges', k)
  {
    SameButCost(charges, charges', k + 1);
  }

  lemma {:induction false} SameButCost(charges: seq<Charge>, charges': seq<Charge>, n: nat)
    requires |charges| == |charges'| && n <= |charges|
    requires forall i :: 0 <= i < |charges| ==> charges'[i].(cost := charges[i].cost) == charges[i]
    ensures Spent(charges[..n]).tokens == Spent(charges'[..n]).tokens && Spent(charges[..n]).steps == Spent(charges'[..n]).steps
  {
    if n == 0 {
    } else {
      SameButCost(charges, charges', n - 1);
      assert charges[..n][..n - 1] == charges[..n - 1] && charges'[..n][..n - 1] == charges'[..n - 1];
    }
  }

  // ---------------------------------------------------------------- permissions

  /** A permission port: the platform's own, or one narrowed to a set of scopes. */
  datatype Port = Root(platform: iset<string>) | Scoped(inner: Port, allowed: set<string>)

  ghost predicate IsAllowed(port: Port, scope: string) {
    match port
    case Root(platform) => scope in platform
    case Scoped(inner, allowed) => scope in allowed && IsAllowed(inner, scope)
  }

  /** `narrow` intersects in place of nesting. */
  function Narrow(port: Port, allowed: set<string>): Port
    requires port.Scoped?
  {
    Scoped(port.inner, port.allowed * allowed)
  }

  /** Narrowing and wrapping once more are the same permission. */
  lemma NarrowIsNesting(port: Port, allowed: set<string>, scope: string)
    requires port.Scoped?
    ensures IsAllowed(Narrow(port, allowed), scope) <==> IsAllowed(Scoped(port, allowed), scope)
    ensures IsAllowed(Narrow(port, allowed), scope) ==> IsAllowed(port, scope)
  {
  }

  // ---------------------------------------------------------------- sandboxes

  datatype DelegationError = Loop | TooDeep | CannotDelegate | NotToCapability

  class AgentSandbox {
    const agentId: string
    const permissions: Port
    const scopes: set<string>
    const limits: Limits
    const depth: nat
    const chain: seq<string>
    const budget: BudgetTracker
    var scratch: map<string, string>
    var discarded: bool

    /** A sandbox at the root of a tree has a budget of its own. */
    constructor Top(agentId: string, permissions: Port, scopes: set<string>, limits: Limits)
      ensures View() == TopView(agentId, permissions, scopes, limits)
      ensures fresh(budget) && budget.limits == limits && budget.View() == Budget(0, 0.0, 0)
      ensures scratch == map[] && !discarded
    {
      this.agentId, this.scopes, this.limits, depth := agentId, scopes, limits, 0;
      this.permissions := Scoped(permissions, scopes);
      chain := [agentId];
      budget := new BudgetTracker(limits);
      scratch, discarded := map[], false;
    }

    constructor Below(agentId: string, permissions: Port, scopes: set<string>, limits: Limits, depth: nat,
                      chain: seq<string>, budget: BudgetTracker)
      requires chain != []
      ensures View() == SandboxView(agentId, Scoped(permissions, scopes), scopes, limits, depth, chain)
      ensures this.budget == budget && scratch == map[] && !discarded
    {
      this.agentId, this.scopes, this.limits, this.depth := agentId, scopes, limits, depth;
      this.permissions, this.chain, this.budget := Scoped(permissions, scopes), chain, budget;
      scratch, discarded := map[], false;
    }

    function View(): SandboxView {
      SandboxView(agentId, permissions, scopes, limits, depth, chain)
    }

    /** The sandbox of a delegated agent: narrower, deeper, with the same budget. */
    method Child(agentId: string, scopes: set<string>, limits: Limits) returns (r: Result<AgentSandbox, DelegationError>)
      ensures r.Ok? <==> ChildOf(View(), agentId, scopes, limits).Ok?
      ensures r.Ok? ==> Ok(r.value.View()) == ChildOf(View(), agentId, scopes, limits)
                        && r.value.budget == budget && fresh(r.value) && r.value.scratch == map[] && !r.value.discarded
      ensures r.Err? ==> Err(r.error) == ChildOf(View(), agentId, scopes, limits)
    {
      if agentId in chain {
        return Err(Loop);
      }
      if depth + 1 > this.limits.maxDepth {
        return Err(TooDeep);
      }
      var child := new AgentSandbox.Below(agentId, permissions, this.scopes * scopes, limits, depth + 1,
                                          chain + [agentId], budget);
      return Ok(child);
    }

    /** Idempotent. */
    method Discard()
      modifies this
      ensures discarded && (old(discarded) ==> scratch == old(scratch)) && (!old(discarded) ==> scratch == map[])
    {
      if discarded {
        return;
      }
      scratch := map[];
      discarded := true;
    }
  }

  datatype SandboxView = SandboxView(
    agentId: string, permissions: Port, scopes: set<string>, limits: Limits, depth: nat, chain: seq<string>)

  function TopView(agentId: string, port: Port, scopes: set<string>, limits: Limits): SandboxView {
    SandboxView(agentId, Scoped(port, scopes), scopes, limits, 0, [agentId])
  }

  function ChildOf(s: SandboxView, agentId: string, scopes: set<string>, limits: Limits): Result<SandboxView, DelegationError> {
    if agentId in s.chain then Err(Loop)
    else if s.depth + 1 > s.limits.maxDepth then Err(TooDeep)
    else
      var narrowed := s.scopes * scopes;
      Ok(SandboxView(agentId, Scoped(s.permissions, narrowed), narrowed, limits, s.depth + 1, s.chain + [agentId]))
  }

  // ---------------------------------------------------------------- delegating

  /** An agent's manifest, as far as delegation looks at it. */
  datatype Agent = Agent(id: string, scopes: set<string>, limits: Limits, canDelegate: bool, toCapabilities: set<string>)

  /** The policy in the manifest. An empty set of target capabilities restricts nothing. */
  function Refusal(current: Agent, capability: string): Option<DelegationError> {
    if !current.canDelegate then Some(CannotDelegate)
    else if current.toCapabilities != {} && capability !in current.toCapabilities then Some(NotToCapability)
    else None
  }

  /** `delegate` to an agent. */
  function Delegate(agents: map<string, Agent>, s: SandboxView, capability: string, target: string)
    : Result<SandboxView, DelegationError>
    requires s.agentId in agents && target in agents
  {
    var refusal := Refusal(agents[s.agentId], capability);
    if refusal.Some? then Err(refusal.value)
    else ChildOf(s, agents[target].id, agents[target].scopes, agents[target].limits)
  }

  /** The agent's policy lets it ask for the capability. */
  predicate MayAsk(agent: Agent, capability: string) {
    agent.canDelegate && (agent.toCapabilities == {} || capability in agent.toCapabilities)
  }

  /** What is checked, in which order: the policy, then circles, then the depth. */
  lemma DelegateExactly(agents: map<string, Agent>, s: SandboxView, capability: string, target: string)
    requires s.agentId in agents && target in agents
    ensures var r, current := Delegate(agents, s, capability, target), agents[s.agentId];
            && (r == Err(CannotDelegate) <==> !current.canDelegate)
            && (r == Err(NotToCapability) <==> current.canDelegate && !MayAsk(current, capability))
            && (r == Err(Loop) <==> MayAsk(current, capability) && agents[target].id in s.chain)
            && (r == Err(TooDeep) <==> MayAsk(current, capability) && agents[target].id !in s.chain && s.depth >= s.limits.maxDepth)
            && (r.Ok? <==> MayAsk(current, capability) && agents[target].id !in s.chain && s.depth < s.limits.maxDepth)
  {
  }

  /** One step of a delegation chain: the capability asked for and the agent found. */
  datatype Hop = Hop(capability: string, target: string)

  predicate Registry(agents: map<string, Agent>) {
    forall id :: id in agents ==> agents[id].id == id
  }

  /** The sandbox at the end of a chain of delegations; an error if one was refused. */
  function Delegated(agents: map<string, Agent>, top: SandboxView, hops: seq<Hop>): Result<SandboxView, DelegationError>
    requires Registry(agents) && top.agentId in agents && forall k :: 0 <= k < |hops| ==> hops[k].target in agents
    ensures Delegated(agents, top, hops).Ok? ==> Delegated(agents, top, hops).value.agentId in agents
  {
    if hops == [] then Ok(top)
    else
      var last := hops[|hops| - 1];
      match Delegated(agents, top, hops[..|hops| - 1])
      case Err(e) => Err(e)
      case Ok(s) => Delegate(agents, s, last.capability, last.target)
  }

  predicate DistinctNames(chain: seq<string>) {
    forall i, j :: 0 <= i < j < |chain| ==> chain[i] != chain[j]
  }

  /** What a sandbox in a tree under `port` looks like. */
  ghost predicate WellNested(agents: map<string, Agent>, port: Port, s: SandboxView) {
    && |s.chain| == s.depth + 1 && s.chain[s.depth] == s.agentId && DistinctNames(s.chain)
    && (forall i :: 0 <= i < |s.chain| ==> s.chain[i] in agents)
    && (forall scope :: IsAllowed(s.permissions, scope) <==> IsAllowed(port, scope) && scope in s.scopes)
  }

  lemma InAllSnoc(agents: map<string, Agent>, hops: seq<Hop>, scope: string)
    requires hops != [] && forall k :: 0 <= k < |hops| ==> hops[k].target in agents
    ensures var init := hops[..|hops| - 1];
            (forall k :: 0 <= k < |hops| ==> scope in agents[hops[k].target].scopes)
            <==> (forall k :: 0 <= k < |init| ==> scope in agents[init[k].target].scopes)
                 && scope in agents[hops[|hops| - 1].target].scopes
  {
    var init := hops[..|hops| - 1];
    assert forall k :: 0 <= k < |init| ==> init[k] == hops[k];
  }

  /** Along every chain of delegations: the nested permissions are the platform's cut
      down to the scopes that every agent of the chain declared, the agents are
      distinct, and the depth is the length of the chain and within what the parent
      allows. */
  lemma {:induction false} ChainsOnlyNarrow(
    agents: map<string, Agent>, port: Port, id: string, granted: set<string>, limits: Limits, hops: seq<Hop>)
    requires Registry(agents) && id in agents && forall k :: 0 <= k < |hops| ==> hops[k].target in agents
    requires Delegated(agents, TopView(id, port, granted, limits), hops).Ok?
    ensures var s := Delegated(agents, TopView(id, port, granted, limits), hops).value;
            && WellNested(agents, port, s) && s.depth == |hops|
            && (forall scope :: scope in s.scopes <==>
                  scope in granted && forall k :: 0 <= k < |hops| ==> scope in agents[hops[k].target].scopes)
            && (hops != [] ==>
                  var parent := Delegated(agents, TopView(id, port, granted, limits), hops[..|hops| - 1]).value;
                  s.depth <= parent.limits.maxDepth && s.chain == parent.chain + [hops[|hops| - 1].target])
  {
    if hops == [] {
    } else {
      var init, last := hops[..|hops| - 1], hops[|hops| - 1];
      ChainsOnlyNarrow(agents, port, id, granted, limits, init);
      var s := Delegated(agents, TopView(id, port, granted, limits), hops).value;
      var parent := Delegated(agents, TopView(id, port, granted, limits), init).value;
      assert s.scopes == parent.scopes * agents[last.target].scopes;
      forall scope
        ensures scope in s.scopes <==>
                scope in granted && forall k :: 0 <= k < |hops| ==> scope in agents[hops[k].target].scopes
      {
        InAllSnoc(agents, hops, scope);
      }
    }
  }

  /** Along every chain each agent was allowed to ask for what it asked, and for no agent
      that was there before. */
  lemma {:induction false} HopsArePermitted(
    agents: map<string, Agent>, port: Port, id: string, granted: set<string>, limits: Limits, hops: seq<Hop>, k: nat)
    requires Registry(agents) && id in agents && forall i :: 0 <= i < |hops| ==> hops[i].target in agents
    requires Delegated(agents, TopView(id, port, granted, limits), hops).Ok? && k < |hops|
    ensures MayAsk(agents[if k == 0 then id else hops[k - 1].target], hops[k].capability)
    ensures hops[k].target != id && forall i :: 0 <= i < k ==> hops[i].target != hops[k].target
  {
    var top, init := TopView(id, port, granted, limits), hops[..|hops| - 1];
    if k < |init| {
      HopsArePermitted(agents, port, id, granted, limits, init, k);
    } else {
      ChainNames(agents, top, init);
      var s := Delegated(agents, top, init).value;
      DelegateExactly(agents, s, hops[k].capability, hops[k].target);
      assert s.chain[0] == id;
      assert forall i :: 0 <= i < k ==> s.chain[i + 1] == hops[i].target;
    }
  }

  lemma {:induction false} ChainNames(agents: map<string, Agent>, top: SandboxView, hops: seq<Hop>)
    requires Registry(agents) && top.agentId in agents && top.chain == [top.agentId]
    requires forall i :: 0 <= i < |hops| ==> hops[i].target in agents
    requires Delegated(agents, top, hops).Ok?
    ensures var s := Delegated(agents, top, hops).value;
            && |s.chain| == |hops| + 1 && s.chain[0] == top.agentId && s.chain[|hops|] == s.agentId
            && forall i :: 0 <= i < |hops| ==> s.chain[i + 1] == hops[i].target
  {
    if hops != [] {
      ChainNames(agents, top, hops[..|hops| - 1]);
    }
  }

  /** Delegation cannot go on for ever: no chain has more agents than are registered. */
  lemma ChainsAreBounded(
    agents: map<string, Agent>, port: Port, id: string, granted: set<string>, limits: Limits, hops: seq<Hop>)
    requires Registry(agents) && id in agents && forall k :: 0 <= k < |hops| ==> hops[k].target in agents
    requires Delegated(agents, TopView(id, port, granted, limits), hops).Ok?
    ensures |hops| < |agents|
  {
    ChainsOnlyNarrow(agents, port, id, granted, limits, hops);
    var s := Delegated(agents, TopView(id, port, granted, limits), hops).value;
    DistinctFit(s.chain, agents.Keys);
  }

  lemma {:induction false} DistinctFit(names: seq<string>, all: set<string>)
    requires DistinctNames(names) && forall i :: 0 <= i < |names| ==> names[i] in all
    ensures |names| <= |all|
  {
    if names == [] {
    } else {
      var n := |names| - 1;
      DistinctFit(names[..n], all - {names[n]});
    }
  }

  /** All hops lead to registered agents. */
  predicate Known(agents: map<string, Agent>, hops: seq<Hop>) { forall k :: 0 <= k < |hops| ==> hops[k].target in agents }

  /** A chain passes through every depth up to its own, under the limits of the agent
      last reached. */
  lemma DepthIsLength(agents: map<string, Agent>, top: SandboxView, hops: seq<Hop>)
    requires Registry(agents) && top.agentId in agents && top.depth == 0 && Known(agents, hops)
    requires Delegated(agents, top, hops).Ok?
    ensures var s := Delegated(agents, top, hops).value;
            s.depth == |hops| && s.limits == if hops == [] then top.limits else agents[hops[|hops| - 1].target].limits
    decreases |hops|
  {
    if hops == [] {
    } else {
      DepthIsLength(agents, top, hops[..|hops| - 1]);
    }
  }

  /** The root's limit does bound its tree when no registered agent allows more. */
  lemma RootBoundsModestAgents(agents: map<string, Agent>, top: SandboxView, hops: seq<Hop>)
    requires Registry(agents) && top.agentId in agents && top.depth == 0 && Known(agents, hops)
    requires Delegated(agents, top, hops).Ok? && forall id :: id in agents ==> agents[id].limits.maxDepth <= top.limits.maxDepth
    ensures Delegated(agents, top, hops).value.depth <= top.limits.maxDepth
  {
    if hops == [] {
      assert Delegated(agents, top, hops).value == top;
    } else {
      DepthIsLength(agents, top, hops[..|hops| - 1]);
    }
  }

  /** At the depth the root allows, one more delegation goes through exactly when the
      policy permits it, the target is new, and the delegating agent allows more. */
  lemma BeyondTheRoot(agents: map<string, Agent>, top: SandboxView, hops: seq<Hop>, hop: Hop)
    requires Registry(agents) && top.agentId in agents && top.depth == 0 && Known(agents, hops) && hop.target in agents
    requires Delegated(agents, top, hops).Ok? && Delegated(agents, top, hops).value.depth == top.limits.maxDepth
    ensures Delegated(agents, top, hops + [hop]).Ok? <==> GoesBeyond(agents, top, Delegated(agents, top, hops).value, hop)
  {
    assert (hops + [hop])[..|hops|] == hops;
  }

  predicate GoesBeyond(agents: map<string, Agent>, top: SandboxView, s: SandboxView, hop: Hop)
    requires s.agentId in agents
  {
    && Refusal(agents[s.agentId], hop.capability).None? && hop.target !in s.chain
    && s.limits.maxDepth > top.limits.maxDepth
  }

  ghost predicate RootBoundsTree(agents: map<string, Agent>, top: SandboxView)
    requires Registry(agents) && top.agentId in agents
  {
    forall hops :: Known(agents, hops) && Delegated(agents, top, hops).Ok? ==>
      Delegated(agents, top, hops).value.depth <= top.limits.maxDepth
  }

  /** So the root's limit bounds its tree if and only if nobody at that depth can go
      further under a limit of its own. */
  lemma RootBoundsTreeExactly(agents: map<string, Agent>, top: SandboxView)
    requires Registry(agents) && top.agentId in agents && top.depth == 0
    ensures RootBoundsTree(agents, top) <==>
            forall hops: seq<Hop>, hop: Hop :: Known(agents, hops) && hop.target in agents && Delegated(agents, top, hops).Ok?
                                && Delegated(agents, top, hops).value.depth == top.limits.maxDepth
                                ==> !GoesBeyond(agents, top, Delegated(agents, top, hops).value, hop)
  {
    hide Delegated, GoesBeyond;
    if RootBoundsTree(agents, top) {
      forall hops: seq<Hop>, hop: Hop | Known(agents, hops) && hop.target in agents && Delegated(agents, top, hops).Ok?
                         && Delegated(agents, top, hops).value.depth == top.limits.maxDepth
        ensures !GoesBeyond(agents, top, Delegated(agents, top, hops).value, hop)
      {
        BeyondTheRoot(agents, top, hops, hop);
        if Delegated(agents, top, hops + [hop]).Ok? {
          DepthIsLength(agents, top, hops);
          DepthIsLength(agents, top, hops + [hop]);
        }
      }
    } else {
      var hops :| Known(agents, hops) && Delegated(agents, top, hops).Ok?
                  && Delegated(agents, top, hops).value.depth > top.limits.maxDepth;
      DepthIsLength(agents, top, hops);
      var n := top.limits.maxDepth;
      PrefixDelegated(agents, top, hops, n + 1);
      PrefixDelegated(agents, top, hops, n);
      DepthIsLength(agents, top, hops[..n]);
      assert hops[..n + 1] == hops[..n] + [hops[n]];
      BeyondTheRoot(agents, top, hops[..n], hops[n]);
    }
  }

  lemma {:induction false} PrefixDelegated(agents: map<string, Agent>, top: SandboxView, hops: seq<Hop>, n: nat)
    requires Registry(agents) && top.agentId in agents && Known(agents, hops) && n <= |hops| && Delegated(agents, top, hops).Ok?
    ensures Known(agents, hops[..n]) && Delegated(agents, top, hops[..n]).Ok?
    decreases |hops|
  {
    if n == |hops| {
      assert hops[..n] == hops;
    } else {
      var init := hops[..|hops| - 1];
      PrefixDelegated(agents, top, init, n);
      assert init[..n] == hops[..n];
    }
  }

  /** For instance: c under b under a, although a allows only one level. */
  lemma RootLimitDoesNotBoundTheTree()
    ensures var shallow, deep := Limits(1, 1, 1, 1), Limits(1, 1, 1, 5);
            var agents := map["a" := Agent("a", {}, shallow, true, {}), "b" := Agent("b", {}, deep, true, {}),
                              "c" := Agent("c", {}, deep, false, {})];
            var hops := [Hop("x", "b"), Hop("x", "c")];
            var r := Delegated(agents, TopView("a", Root(iset{}), {}, shallow), hops);
            r.Ok? && r.value.depth == 2 > shallow.maxDepth
  {
    var shallow, deep := Limits(1, 1, 1, 1), Limits(1, 1, 1, 5);
    var agents := map["a" := Agent("a", {}, shallow, true, {}), "b" := Agent("b", {}, deep, true, {}),
                      "c" := Agent("c", {}, deep, false, {})];
    var hops := [Hop("x", "b"), Hop("x", "c")];
    var top := TopView("a", Root(iset{}), {}, shallow);
    assert hops[..1] == [Hop("x", "b")] && hops[..1][..0] == [];
    assert Delegated(agents, top, hops[..1]) == ChildOf(top, "b", {}, deep);
    assert "c" !in ["a", "b"];
    assert ["a"] + ["b"] == ["a", "b"];
  }
}
