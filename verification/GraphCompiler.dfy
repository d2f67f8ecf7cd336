// The graph builder: which graphs validation accepts, what they compile to, and how a compiled
// configuration is turned back into a graph (src/engines/control/graph-builder).
module GraphCompiler {
  import opened Options
  import opened DecimalText
  import opened PolicyCompile

  type NodeId = string

  datatype GuardrailConfig = GuardrailConfig(kind: Rail, slippageBps: Option<int>, allowedPairs: Option<seq<string>>, riskLabels: Option<seq<string>>)

  datatype AgentConfig = AgentConfig(name: string, role: string, allowedActions: seq<Rail>, serviceScope: seq<string>, subCap: string, velocity: nat)

  datatype OrgConfig = OrgConfig(totalBudget: string, perAgentMax: string, cooldownSeconds: nat, destinations: seq<string>)

  datatype GrantStatus = Pending | Granted | Revoked

  datatype GrantIntent = GrantIntent(agentRef: string, status: GrantStatus)

  datatype ServiceRail = ServiceRail(resourceId: string, destination: string)

  datatype Node =
    | OrgNode(id: NodeId, org: OrgConfig)
    | FleetNode(id: NodeId, fleet: string)
    | FlowNode(id: NodeId, flow: string, version: int)
    | AgentNode(id: NodeId, agent: AgentConfig)
    | GuardrailNode(id: NodeId, guardrail: GuardrailConfig)
    | GrantNode(id: NodeId, grant: GrantIntent)
    | RailNode(id: NodeId, rail: ServiceRail)

  datatype EdgeKind = Contains | GovernedBy | AttachesTo
  datatype Edge = Edge(from: NodeId, to: NodeId, kind: EdgeKind)
  datatype Graph = Graph(nodes: seq<Node>, edges: seq<Edge>)

  const RAILS: set<Rail> := {"raw-x402", "circle-nano", "casper-x402", "cspr-trade", "casper-deploy", "evm-transfer"}
  const TRADE: Rail := "cspr-trade"

  // ---- The schema ---------------------------------------------------------------------------

  predicate IsAmount(s: string) { s != "" && IsDigits(s) }

  predicate GoodNode(n: Node) {
    n.id != "" && match n
      case OrgNode(_, o) => IsAmount(o.totalBudget) && IsAmount(o.perAgentMax)
      case FleetNode(_, name) => name != ""
      case FlowNode(_, name, version) => name != "" && version >= 1
      case AgentNode(_, a) =>
        a.name != "" && a.role != "" && a.allowedActions != [] && (forall r :: r in a.allowedActions ==> r in RAILS) && IsAmount(a.subCap)
      case GuardrailNode(_, g) => g.kind in RAILS && (g.slippageBps.Some? ==> 0 <= g.slippageBps.value <= 10000)
      case GrantNode(_, g) => g.agentRef != ""
      case RailNode(_, r) => r.resourceId != "" && r.destination != ""
  }

  predicate GoodGraph(g: Graph) {
    && (forall n :: n in g.nodes ==> GoodNode(n))
    && (forall e :: e in g.edges ==> e.from != "" && e.to != "")
  }

  // ---- Reading a graph --------------------------------------------------------------------------

  function Orgs(nodes: seq<Node>): seq<Node> { Filter((n: Node) => n.OrgNode?, nodes) }
  function Fleets(nodes: seq<Node>): seq<Node> { Filter((n: Node) => n.FleetNode?, nodes) }
  function Flows(nodes: seq<Node>): seq<Node> { Filter((n: Node) => n.FlowNode?, nodes) }
  function Agents(nodes: seq<Node>): seq<Node> { Filter((n: Node) => n.AgentNode?, nodes) }
  function Grants(nodes: seq<Node>): seq<Node> { Filter((n: Node) => n.GrantNode?, nodes) }
  function Rails(nodes: seq<Node>): seq<Node> { Filter((n: Node) => n.RailNode?, nodes) }

  function Filter<T>(f: T -> bool, s: seq<T>): (r: seq<T>)
    ensures forall i :: 0 <= i < |r| ==> r[i] in s && f(r[i])
  {
    if s == [] then [] else if f(s[0]) then [s[0]] + Filter(f, s[1..]) else Filter(f, s[1..])
  }

  /** The guardrail under an id: a Map built from the list keeps the last one. */
  function FindGuardrail(nodes: seq<Node>, id: NodeId): Option<GuardrailConfig> {
    if nodes == [] then None
    else
      var last := nodes[|nodes| - 1];
      if last.GuardrailNode? && last.id == id then Some(last.guardrail) else FindGuardrail(nodes[..|nodes| - 1], id)
  }

  function GovernedIds(edges: seq<Edge>, from: NodeId): seq<NodeId> {
    if edges == [] then []
    else
      var e := edges[0];
      (if e.from == from && e.kind.GovernedBy? then [e.to] else []) + GovernedIds(edges[1..], from)
  }

  function Resolve(nodes: seq<Node>, ids: seq<NodeId>): seq<GuardrailConfig> {
    if ids == [] then []
    else (match FindGuardrail(nodes, ids[0]) case Some(g) => [g] case None => []) + Resolve(nodes, ids[1..])
  }

  function GuardrailsOf(g: Graph, agent: NodeId): seq<GuardrailConfig> { Resolve(g.nodes, GovernedIds(g.edges, agent)) }

  predicate IsFleet(g: Graph, id: NodeId) { exists n :: n in g.nodes && n.FleetNode? && n.id == id }

  function FleetParents(g: Graph, edges: seq<Edge>, agent: NodeId): nat {
    if edges == [] then 0
    else (if edges[0].to == agent && edges[0].kind.Contains? && IsFleet(g, edges[0].from) then 1 else 0) + FleetParents(g, edges[1..], agent)
  }

  // ---- Validation ---------------------------------------------------------------------------------

  datatype GraphError =
    | BadSchema | OrgCount(found: nat) | NoFleet | FleetNotContained
    | NotUnderOneFleet(agent: NodeId, found: nat) | TraderWithoutGuardrail(agent: NodeId) | SubCapExceeds(agent: NodeId, subCap: nat, limit: nat)

  predicate HasTradeGuardrail(g: Graph, agent: NodeId) { exists c :: c in GuardrailsOf(g, agent) && c.kind == TRADE }

  /** The rules of a graph that passed the schema. */
  predicate Violated(g: Graph, e: GraphError)
    requires GoodGraph(g)
  {
    match e
    case BadSchema => false
    case OrgCount(found) => found == |Orgs(g.nodes)| && found != 1
    case NoFleet => Fleets(g.nodes) == []
    case FleetNotContained =>
      Orgs(g.nodes) != [] && Fleets(g.nodes) != [] && Edge(Orgs(g.nodes)[0].id, Fleets(g.nodes)[0].id, Contains) !in g.edges
    case NotUnderOneFleet(a, found) => found != 1 && found == FleetParents(g, g.edges, a) && exists n :: n in Agents(g.nodes) && n.id == a
    case TraderWithoutGuardrail(a) => exists n :: n in Agents(g.nodes) && n.id == a && TRADE in n.agent.allowedActions && !HasTradeGuardrail(g, a)
    case SubCapExceeds(a, cap, limit) =>
      exists n :: n in Agents(g.nodes) && n.id == a && Orgs(g.nodes) != [] && cap == Value(n.agent.subCap)
        && limit == Value(Orgs(g.nodes)[0].org.perAgentMax) && cap > limit
  }

  ghost predicate IsValid(g: Graph) { GoodGraph(g) && forall e :: !Violated(g, e) }

  lemma AgentIsGood(g: Graph, n: Node)
    requires GoodGraph(g) && n in Agents(g.nodes)
    ensures n.AgentNode? && GoodNode(n)
  {
  }

  lemma OrgIsGood(g: Graph)
    requires GoodGraph(g) && Orgs(g.nodes) != []
    ensures Orgs(g.nodes)[0].OrgNode? && GoodNode(Orgs(g.nodes)[0])
  {
  }

  /** Among these agents there is one that gives rise to this error. */
  predicate Misplaced(g: Graph, seen: seq<Node>, e: GraphError) {
    e.NotUnderOneFleet? && e.found != 1 && e.found == FleetParents(g, g.edges, e.agent) && exists n :: n in seen && n.id == e.agent
  }

  predicate Unguarded(g: Graph, seen: seq<Node>, e: GraphError)
    requires forall n :: n in seen ==> n.AgentNode?
  {
    e.TraderWithoutGuardrail? && !HasTradeGuardrail(g, e.agent) && exists n :: n in seen && n.id == e.agent && TRADE in n.agent.allowedActions
  }

  predicate Overcapped(seen: seq<Node>, limit: nat, e: GraphError)
    requires forall n :: n in seen ==> n.AgentNode? && GoodNode(n)
  {
    e.SubCapExceeds? && e.limit == limit && e.subCap > limit && exists n :: n in seen && GoodNode(n) && n.id == e.agent && Value(n.agent.subCap) == e.subCap
  }

  /** Reports exactly the rules that are violated, and nothing when there is nothing to report. */
  method ValidateGraph(g: Graph) returns (errors: seq<GraphError>)
    ensures !GoodGraph(g) ==> errors == [BadSchema]
    ensures GoodGraph(g) ==> forall e :: e in errors <==> Violated(g, e)
    ensures errors == [] <==> IsValid(g)
  {
    if !GoodGraph(g) { return [BadSchema]; }
    var shape := ShapeErrors(g);
    var placement := PlacementErrors(g);
    var guardrails := GuardrailErrors(g);
    var caps := CapErrors(g);
    errors := shape + placement + guardrails + caps;
    assert forall e :: e in errors <==> e in shape || e in placement || e in guardrails || e in caps;
    assert forall e :: e in errors <==> Violated(g, e);
    if errors != [] { assert errors[0] in errors; }
  }

  /** Containment: every agent under exactly one fleet. */
  method PlacementErrors(g: Graph) returns (errors: seq<GraphError>)
    requires GoodGraph(g)
    ensures forall e :: e in errors <==> e.NotUnderOneFleet? && Violated(g, e)
  {
    var agents := Agents(g.nodes);
    errors := [];
    for i := 0 to |agents|
      invariant forall e :: e in errors <==> Misplaced(g, agents[..i], e)
    {
      var found := FleetParents(g, g.edges, agents[i].id);
      assert agents[..i + 1] == agents[..i] + [agents[i]];
      if found != 1 { errors := errors + [NotUnderOneFleet(agents[i].id, found)]; }
    }
    assert agents[..|agents|] == agents;
  }

  /** A trader needs a guardrail for its rail. */
  method GuardrailErrors(g: Graph) returns (errors: seq<GraphError>)
    requires GoodGraph(g)
    ensures forall e :: e in errors <==> e.TraderWithoutGuardrail? && Violated(g, e)
  {
    var agents := Agents(g.nodes);
    errors := [];
    for i := 0 to |agents|
      invariant forall e :: e in errors <==> Unguarded(g, agents[..i], e)
    {
      var bad := TRADE in agents[i].agent.allowedActions && !HasTradeGuardrail(g, agents[i].id);
      assert agents[..i + 1] == agents[..i] + [agents[i]];
      if bad { errors := errors + [TraderWithoutGuardrail(agents[i].id)]; }
    }
    assert agents[..|agents|] == agents;
  }

  /** No agent's sub-cap exceeds the first ceiling's per-agent maximum. */
  method CapErrors(g: Graph) returns (errors: seq<GraphError>)
    requires GoodGraph(g)
    ensures forall e :: e in errors <==> e.SubCapExceeds? && Violated(g, e)
  {
    var orgs, agents := Orgs(g.nodes), Agents(g.nodes);
    errors := [];
    if orgs == [] { return; }
    OrgIsGood(g);
    var limit := Value(orgs[0].org.perAgentMax);
    for i := 0 to |agents|
      invariant forall e :: e in errors <==> Overcapped(agents[..i], limit, e)
    {
      var subCap := Value(agents[i].agent.subCap);
      assert agents[..i + 1] == agents[..i] + [agents[i]];
      if subCap > limit { errors := errors + [SubCapExceeds(agents[i].id, subCap, limit)]; }
    }
    assert agents[..|agents|] == agents;
  }

  method ShapeErrors(g: Graph) returns (errors: seq<GraphError>)
    requires GoodGraph(g)
    ensures forall e :: e in errors <==> (e.OrgCount? || e.NoFleet? || e.FleetNotContained?) && Violated(g, e)
  {
    var orgs, fleets := Orgs(g.nodes), Fleets(g.nodes);
    errors := [];
    if |orgs| != 1 { errors := errors + [OrgCount(|orgs|)]; }
    if |fleets| == 0 { errors := errors + [NoFleet]; }
    if orgs != [] && fleets != [] && Edge(orgs[0].id, fleets[0].id, Contains) !in g.edges { errors := errors + [FleetNotContained]; }
  }

  // ---- Graph to configuration -------------------------------------------------------------------

  datatype Role = Role(role: string, agentName: string, allowedActions: seq<Rail>, serviceScope: seq<string>, spend: SpendPolicy, guardrails: seq<GuardrailConfig>)

  datatype Flow = Flow(name: string, version: int, roles: seq<Role>)

  datatype Config = Config(fleetName: string, ceiling: AllocationPolicy, flow: Flow, grants: seq<GrantIntent>, rails: seq<ServiceRail>)

  function Amount(s: string): nat { if IsDigits(s) then Value(s) else 0 }

  function SpendOf(a: AgentConfig): SpendPolicy {
    SpendPolicy(Amount(a.subCap), Amount(a.subCap), a.serviceScope, a.allowedActions, a.velocity)
  }

  function RoleOf(a: AgentConfig, guardrails: seq<GuardrailConfig>): Role {
    Role(a.role, a.name, a.allowedActions, a.serviceScope, SpendOf(a), guardrails)
  }

  function RolesOf(g: Graph, agents: seq<Node>): seq<Role>
    requires forall n :: n in agents ==> n.AgentNode?
  {
    if agents == [] then [] else [RoleOf(agents[0].agent, GuardrailsOf(g, agents[0].id))] + RolesOf(g, agents[1..])
  }

  function GrantsOf(nodes: seq<Node>): seq<GrantIntent>
    requires forall n :: n in nodes ==> n.GrantNode?
  {
    if nodes == [] then [] else [nodes[0].grant] + GrantsOf(nodes[1..])
  }

  function RailsOf(nodes: seq<Node>): seq<ServiceRail>
    requires forall n :: n in nodes ==> n.RailNode?
  {
    if nodes == [] then [] else [nodes[0].rail] + RailsOf(nodes[1..])
  }

  function CeilingOf(o: OrgConfig): AllocationPolicy {
    AllocationPolicy(Amount(o.totalBudget), Amount(o.perAgentMax), o.cooldownSeconds, o.destinations)
  }

  /** Throws without a ceiling or a fleet; without a flow the fleet lends its name. */
  function CompileGraphToConfig(g: Graph): Option<Config> {
    var orgs, fleets, flows := Orgs(g.nodes), Fleets(g.nodes), Flows(g.nodes);
    if orgs == [] || fleets == [] then None
    else Some(Config(fleets[0].fleet, CeilingOf(orgs[0].org),
                     Flow(if flows == [] then fleets[0].fleet else flows[0].flow, if flows == [] then 1 else flows[0].version, RolesOf(g, Agents(g.nodes))),
                     GrantsOf(Grants(g.nodes)), RailsOf(Rails(g.nodes))))
  }

  // ---- What validation guarantees of the compiled configuration ------------------------------------

  lemma {:induction false} RoleComesFromAgent(g: Graph, agents: seq<Node>, k: nat)
    requires (forall n :: n in agents ==> n.AgentNode?) && k < |RolesOf(g, agents)|
    ensures k < |agents| && RolesOf(g, agents)[k] == RoleOf(agents[k].agent, GuardrailsOf(g, agents[k].id))
  {
    if k > 0 { RoleComesFromAgent(g, agents[1..], k - 1); }
  }

  /** What validation has checked of the agent that role k comes from. */
  lemma {:induction false} ValidRole(g: Graph, k: nat)
    requires IsValid(g) && Orgs(g.nodes) != [] && Orgs(g.nodes)[0].OrgNode? && k < |RolesOf(g, Agents(g.nodes))|
    ensures var r := RolesOf(g, Agents(g.nodes))[k];
            && r.spend.spendCap <= Amount(Orgs(g.nodes)[0].org.perAgentMax) && r.spend.perTransactionMax == r.spend.spendCap
            && (TRADE in r.allowedActions ==> exists x :: x in r.guardrails && x.kind == TRADE)
  {
    var agents := Agents(g.nodes);
    OrgIsGood(g);
    RoleComesFromAgent(g, agents, k);
    var n := agents[k];
    AgentIsGood(g, n);
    assert n in agents;
    assert !Violated(g, SubCapExceeds(n.id, Value(n.agent.subCap), Value(Orgs(g.nodes)[0].org.perAgentMax)));
    assert !Violated(g, TraderWithoutGuardrail(n.id));
  }

  /** Every graph that validation accepts compiles, into roles whose caps fit the ceiling and whose traders are guarded. */
  lemma ValidGraphsCompile(g: Graph, k: nat)
    requires IsValid(g)
    ensures var c := CompileGraphToConfig(g);
            && c.Some?
            && (k < |c.value.flow.roles| ==>
                 var r := c.value.flow.roles[k];
                 && r.spend.spendCap <= c.value.ceiling.perAgentMax && r.spend.perTransactionMax == r.spend.spendCap
                 && (TRADE in r.allowedActions ==> exists x :: x in r.guardrails && x.kind == TRADE))
  {
    assert !Violated(g, NoFleet) && !Violated(g, OrgCount(|Orgs(g.nodes)|));
    OrgIsGood(g);
    if k < |RolesOf(g, Agents(g.nodes))| { ValidRole(g, k); }
  }
}
