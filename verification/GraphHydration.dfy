// A compiled configuration back onto the canvas, and compiled again
// (src/engines/control/graph-builder/compiler.ts).
module GraphHydration {
  import opened Options
  import opened Sequences
  import opened DecimalText
  import opened PolicyCompile
  import opened GraphCompiler
  import opened GraphReading

  const ORG := "org-ceiling"
  const FLEET := "fleet"
  const FLOW := "trading-flow"

  function AgentId(i: nat, role: string): NodeId { "agent-" + (Print(i) + "-" + role) }
  function GuardrailId(i: nat, j: nat): NodeId { "guardrail-" + (Print(i) + "-" + Print(j)) }
  function GrantId(i: nat): NodeId { "grant-" + Print(i) }
  function RailId(i: nat): NodeId { "rail-" + Print(i) }

  function NatOf(x: int): nat { if x < 0 then 0 else x }

  // ---- What the first k parts of a configuration become ---------------------------------------

  function OrgOf(c: Config): Node {
    OrgNode(ORG, OrgConfig(Print(NatOf(c.ceiling.totalBudget)), Print(NatOf(c.ceiling.perAgentMax)), NatOf(c.ceiling.cooldownSeconds), c.ceiling.allowedDestinations))
  }

  function AgentOf(i: nat, r: Role): Node {
    AgentNode(AgentId(i, r.role), AgentConfig(r.agentName, r.role, r.allowedActions, r.serviceScope, Print(NatOf(r.spend.spendCap)), NatOf(r.spend.velocityLimitPerHour)))
  }

  function GuardrailNodes(gs: seq<GuardrailConfig>, i: nat, m: nat): seq<Node>
    requires m <= |gs|
  {
    if m == 0 then [] else GuardrailNodes(gs, i, m - 1) + [GuardrailNode(GuardrailId(i, m - 1), gs[m - 1])]
  }

  function GuardrailEdges(agent: NodeId, i: nat, m: nat): seq<Edge> {
    if m == 0 then [] else GuardrailEdges(agent, i, m - 1) + [Edge(agent, GuardrailId(i, m - 1), GovernedBy)]
  }

  function RoleNodes(roles: seq<Role>, k: nat): seq<Node>
    requires k <= |roles|
  {
    if k == 0 then []
    else RoleNodes(roles, k - 1) + [AgentOf(k - 1, roles[k - 1])] + GuardrailNodes(roles[k - 1].guardrails, k - 1, |roles[k - 1].guardrails|)
  }

  function RoleEdges(roles: seq<Role>, k: nat): seq<Edge>
    requires k <= |roles|
  {
    if k == 0 then []
    else
      var id := AgentId(k - 1, roles[k - 1].role);
      RoleEdges(roles, k - 1) + [Edge(FLOW, id, AttachesTo)] + GuardrailEdges(id, k - 1, |roles[k - 1].guardrails|)
  }

  function GrantNodes(grants: seq<GrantIntent>, k: nat): seq<Node>
    requires k <= |grants|
  {
    if k == 0 then [] else GrantNodes(grants, k - 1) + [GrantNode(GrantId(k - 1), grants[k - 1])]
  }

  predicate HasAgent(nodes: seq<Node>, id: NodeId) { exists n :: n in nodes && n.AgentNode? && n.id == id }

  /** A grant is attached to the agent it names, if that agent is on the canvas. */
  function GrantEdge(roles: seq<Role>, grant: GrantIntent, i: nat): seq<Edge> {
    if HasAgent(RoleNodes(roles, |roles|), grant.agentRef) then [Edge(grant.agentRef, GrantId(i), AttachesTo)] else []
  }

  function GrantEdges(roles: seq<Role>, grants: seq<GrantIntent>, k: nat): seq<Edge>
    requires k <= |grants|
  {
    if k == 0 then [] else GrantEdges(roles, grants, k - 1) + GrantEdge(roles, grants[k - 1], k - 1)
  }

  function RailNodes(rails: seq<ServiceRail>, k: nat): seq<Node>
    requires k <= |rails|
  {
    if k == 0 then [] else RailNodes(rails, k - 1) + [RailNode(RailId(k - 1), rails[k - 1])]
  }

  function BaseNodes(c: Config): seq<Node> { [OrgOf(c), FleetNode(FLEET, c.fleetName), FlowNode(FLOW, c.flow.name, c.flow.version)] }

  function Hydrated(c: Config): Graph {
    Graph(BaseNodes(c) + RoleNodes(c.flow.roles, |c.flow.roles|) + GrantNodes(c.grants, |c.grants|) + RailNodes(c.rails, |c.rails|),
          [Edge(ORG, FLEET, Contains), Edge(FLEET, FLOW, Contains)] + RoleEdges(c.flow.roles, |c.flow.roles|) + GrantEdges(c.flow.roles, c.grants, |c.grants|))
  }

  /** Pushes nodes and edges one after another. */
  method ConfigToGraph(c: Config) returns (g: Graph)
    ensures g == Hydrated(c)
  {
    var nodes, edges := BaseNodes(c), [Edge(ORG, FLEET, Contains), Edge(FLEET, FLOW, Contains)];
    nodes, edges := PushRoles(c, nodes, edges);
    nodes, edges := PushGrants(c, nodes, edges);
    for i := 0 to |c.rails|
      invariant nodes == BaseNodes(c) + RoleNodes(c.flow.roles, |c.flow.roles|) + GrantNodes(c.grants, |c.grants|) + RailNodes(c.rails, i)
    {
      nodes := nodes + [RailNode(RailId(i), c.rails[i])];
    }
    g := Graph(nodes, edges);
  }

  method PushRoles(c: Config, nodes: seq<Node>, edges: seq<Edge>) returns (n: seq<Node>, e: seq<Edge>)
    ensures n == nodes + RoleNodes(c.flow.roles, |c.flow.roles|)
    ensures e == edges + RoleEdges(c.flow.roles, |c.flow.roles|)
  {
    var roles := c.flow.roles;
    n, e := nodes, edges;
    for i := 0 to |roles|
      invariant n == nodes + RoleNodes(roles, i) && e == edges + RoleEdges(roles, i)
    {
      var agentId := AgentId(i, roles[i].role);
      var agent, attach := AgentOf(i, roles[i]), Edge(FLOW, agentId, AttachesTo);
      n, e := n + [agent], e + [attach];
      n, e := PushGuardrails(roles[i].guardrails, i, agentId, n, e);
      Regroup(nodes, RoleNodes(roles, i), [agent], GuardrailNodes(roles[i].guardrails, i, |roles[i].guardrails|));
      Regroup(edges, RoleEdges(roles, i), [attach], GuardrailEdges(agentId, i, |roles[i].guardrails|));
    }
  }

  method PushGuardrails(gs: seq<GuardrailConfig>, i: nat, agentId: NodeId, nodes: seq<Node>, edges: seq<Edge>) returns (n: seq<Node>, e: seq<Edge>)
    ensures n == nodes + GuardrailNodes(gs, i, |gs|) && e == edges + GuardrailEdges(agentId, i, |gs|)
  {
    n, e := nodes, edges;
    for j := 0 to |gs|
      invariant n == nodes + GuardrailNodes(gs, i, j) && e == edges + GuardrailEdges(agentId, i, j)
    {
      n, e := n + [GuardrailNode(GuardrailId(i, j), gs[j])], e + [Edge(agentId, GuardrailId(i, j), GovernedBy)];
    }
  }

  method PushGrants(c: Config, nodes: seq<Node>, edges: seq<Edge>) returns (n: seq<Node>, e: seq<Edge>)
    requires nodes == BaseNodes(c) + RoleNodes(c.flow.roles, |c.flow.roles|)
    ensures n == nodes + GrantNodes(c.grants, |c.grants|) && e == edges + GrantEdges(c.flow.roles, c.grants, |c.grants|)
  {
    n, e := nodes, edges;
    for i := 0 to |c.grants|
      invariant n == nodes + GrantNodes(c.grants, i) && e == edges + GrantEdges(c.flow.roles, c.grants, i)
    {
      var grant := c.grants[i];
      GrantPushed(c, nodes, edges, n, e, i);
      var owned := HasAgent(n, grant.agentRef);
      n := n + [GrantNode(GrantId(i), grant)];
      if owned { e := e + [Edge(grant.agentRef, GrantId(i), AttachesTo)]; }
    }
  }

  /** One turn of that loop: the node, and the edge if the owner is among the nodes pushed so far. */
  lemma {:induction false} GrantPushed(c: Config, nodes: seq<Node>, edges: seq<Edge>, n: seq<Node>, e: seq<Edge>, i: nat)
    requires i < |c.grants| && nodes == BaseNodes(c) + RoleNodes(c.flow.roles, |c.flow.roles|)
    requires n == nodes + GrantNodes(c.grants, i) && e == edges + GrantEdges(c.flow.roles, c.grants, i)
    ensures var grant := c.grants[i];
            && n + [GrantNode(GrantId(i), grant)] == nodes + GrantNodes(c.grants, i + 1)
            && (if HasAgent(n, grant.agentRef) then e + [Edge(grant.agentRef, GrantId(i), AttachesTo)] else e) == edges + GrantEdges(c.flow.roles, c.grants, i + 1)
  {
    GrantsHideNoAgent(c, i, n, c.grants[i].agentRef);
    assert GrantEdges(c.flow.roles, c.grants, i + 1) == GrantEdges(c.flow.roles, c.grants, i) + GrantEdge(c.flow.roles, c.grants[i], i);
  }

  /** Only the nodes of roles are agents, so looking among all nodes pushed so far finds the same owner. */
  lemma {:induction false} GrantsHideNoAgent(c: Config, k: nat, nodes: seq<Node>, id: NodeId)
    requires k <= |c.grants| && nodes == BaseNodes(c) + RoleNodes(c.flow.roles, |c.flow.roles|) + GrantNodes(c.grants, k)
    ensures HasAgent(nodes, id) <==> HasAgent(RoleNodes(c.flow.roles, |c.flow.roles|), id)
  {
    NoAgentInGrants(c.grants, k);
    var all := RoleNodes(c.flow.roles, |c.flow.roles|);
    assert forall n :: n in nodes <==> n in BaseNodes(c) || n in all || n in GrantNodes(c.grants, k);
  }

  lemma {:induction false} NoAgentInGrants(grants: seq<GrantIntent>, k: nat)
    requires k <= |grants|
    ensures forall n :: n in GrantNodes(grants, k) ==> n.GrantNode?
  {
    if k > 0 { NoAgentInGrants(grants, k - 1); }
  }

  // ---- Ids do not clash ----------------------------------------------------------------------

  lemma DigitsEnd(a: string, b: string, x: string, y: string)
    requires IsDigits(a) && IsDigits(b) && a + "-" + x == b + "-" + y
    ensures a == b && x == y
  {
    var s, t := a + "-" + x, b + "-" + y;
    assert s[|a|] == '-' && t[|b|] == '-';
    assert forall j :: 0 <= j < |a| ==> s[j] == a[j];
    assert forall j :: 0 <= j < |b| ==> t[j] == b[j];
    assert |a| == |b|;
    assert a == s[..|a|] && b == t[..|b|] && x == s[|a| + 1..] && y == t[|b| + 1..];
  }

  lemma {:induction false} PrintIsInjective(i: nat, k: nat)
    requires Print(i) == Print(k)
    ensures i == k
  {
    ValueOfPrint(i);
    ValueOfPrint(k);
  }

  lemma AgentIdsDiffer(i: nat, r: string, k: nat, s: string)
    ensures AgentId(i, r) == AgentId(k, s) <==> i == k && r == s
  {
    if AgentId(i, r) == AgentId(k, s) {
      Unprefix("agent-", Print(i) + "-" + r, Print(k) + "-" + s);
      DigitsEnd(Print(i), Print(k), r, s);
      PrintIsInjective(i, k);
    }
  }

  lemma GuardrailIdsDiffer(i: nat, j: nat, k: nat, m: nat)
    ensures GuardrailId(i, j) == GuardrailId(k, m) <==> i == k && j == m
  {
    if GuardrailId(i, j) == GuardrailId(k, m) {
      Unprefix("guardrail-", Print(i) + "-" + Print(j), Print(k) + "-" + Print(m));
      DigitsEnd(Print(i), Print(k), Print(j), Print(m));
      PrintIsInjective(i, k);
      PrintIsInjective(j, m);
    }
  }

  // ---- Reading the parts back --------------------------------------------------------------------

  lemma {:induction false} FindBoth(a: seq<Node>, b: seq<Node>, id: NodeId)
    ensures FindGuardrail(a + b, id) == if FindGuardrail(b, id).Some? then FindGuardrail(b, id) else FindGuardrail(a, id)
    decreases |b|
  {
    if b == [] {
      assert a + b == a;
    } else {
      assert (a + b)[..|a + b| - 1] == a + b[..|b| - 1];
      FindBoth(a, b[..|b| - 1], id);
    }
  }

  lemma {:induction false} FindAmongGuardrails(gs: seq<GuardrailConfig>, i: nat, m: nat, k: nat, j: nat)
    requires m <= |gs|
    ensures FindGuardrail(GuardrailNodes(gs, i, m), GuardrailId(k, j)) == if i == k && j < m then Some(gs[j]) else None
  {
    if m > 0 {
      FindAmongGuardrails(gs, i, m - 1, k, j);
      GuardrailIdsDiffer(i, m - 1, k, j);
      var nodes := GuardrailNodes(gs, i, m);
      assert nodes[..|nodes| - 1] == GuardrailNodes(gs, i, m - 1);
    }
  }

  lemma {:induction false} NoGuardrail(n: Node, id: NodeId)
    requires !n.GuardrailNode?
    ensures FindGuardrail([n], id) == None
  {
  }

  lemma {:induction false} FindStep(before: seq<Node>, agent: Node, after: seq<Node>, id: NodeId)
    requires agent.AgentNode?
    ensures FindGuardrail(before + [agent] + after, id) == if FindGuardrail(after, id).Some? then FindGuardrail(after, id) else FindGuardrail(before, id)
  {
    FindBoth(before, [agent], id);
    FindBoth(before + [agent], after, id);
    NoGuardrail(agent, id);
  }

  lemma {:induction false} FindAmongLast(roles: seq<Role>, n: nat, id: NodeId)
    requires 0 < n <= |roles|
    ensures var found := FindGuardrail(GuardrailNodes(roles[n - 1].guardrails, n - 1, |roles[n - 1].guardrails|), id);
            FindGuardrail(RoleNodes(roles, n), id) == if found.Some? then found else FindGuardrail(RoleNodes(roles, n - 1), id)
  {
    var gs := roles[n - 1].guardrails;
    FindStep(RoleNodes(roles, n - 1), AgentOf(n - 1, roles[n - 1]), GuardrailNodes(gs, n - 1, |gs|), id);
  }

  lemma {:induction false} FindAmongRoles(roles: seq<Role>, n: nat, k: nat, j: nat)
    requires n <= |roles|
    ensures FindGuardrail(RoleNodes(roles, n), GuardrailId(k, j)) == if k < n && j < |roles[k].guardrails| then Some(roles[k].guardrails[j]) else None
  {
    if n > 0 {
      FindAmongRoles(roles, n - 1, k, j);
      FindAmongGuardrails(roles[n - 1].guardrails, n - 1, |roles[n - 1].guardrails|, k, j);
      FindAmongLast(roles, n, GuardrailId(k, j));
    }
  }

  lemma {:induction false} NoGuardrailAmong(nodes: seq<Node>, id: NodeId)
    requires forall n :: n in nodes ==> !n.GuardrailNode?
    ensures FindGuardrail(nodes, id) == None
    decreases |nodes|
  {
    if nodes != [] { NoGuardrailAmong(nodes[..|nodes| - 1], id); }
  }

  lemma {:induction false} NoGuardrailInRails(rails: seq<ServiceRail>, k: nat)
    requires k <= |rails|
    ensures forall n :: n in RailNodes(rails, k) ==> n.RailNode?
  {
    if k > 0 { NoGuardrailInRails(rails, k - 1); }
  }

  /** On the whole canvas, too, the id of guardrail j of role k finds exactly that guardrail. */
  lemma FindHydrated(c: Config, k: nat, j: nat)
    requires k < |c.flow.roles| && j < |c.flow.roles[k].guardrails|
    ensures FindGuardrail(Hydrated(c).nodes, GuardrailId(k, j)) == Some(c.flow.roles[k].guardrails[j])
  {
    var roles, id := c.flow.roles, GuardrailId(k, j);
    var r, gn, rn := RoleNodes(roles, |roles|), GrantNodes(c.grants, |c.grants|), RailNodes(c.rails, |c.rails|);
    FindAmongRoles(roles, |roles|, k, j);
    NoAgentInGrants(c.grants, |c.grants|);
    NoGuardrailInRails(c.rails, |c.rails|);
    NoGuardrailAmong(gn, id);
    NoGuardrailAmong(rn, id);
    FindBoth(BaseNodes(c), r, id);
    FindBoth(BaseNodes(c) + r, gn, id);
    FindBoth(BaseNodes(c) + r + gn, rn, id);
  }

  // ---- Which guardrails an agent is governed by ------------------------------------------------------

  function GuardrailIds(i: nat, m: nat): seq<NodeId> { if m == 0 then [] else GuardrailIds(i, m - 1) + [GuardrailId(i, m - 1)] }

  lemma {:induction false} GovernedGuardrails(agent: NodeId, i: nat, m: nat, from: NodeId)
    ensures GovernedIds(GuardrailEdges(agent, i, m), from) == if from == agent then GuardrailIds(i, m) else []
  {
    if m > 0 {
      GovernedGuardrails(agent, i, m - 1, from);
      var e := Edge(agent, GuardrailId(i, m - 1), GovernedBy);
      GovernedBoth(GuardrailEdges(agent, i, m - 1), [e], from);
      assert [e][1..] == [];
    }
  }

  lemma {:induction false} OtherEdge(e: Edge, from: NodeId)
    requires !e.kind.GovernedBy?
    ensures GovernedIds([e], from) == []
  {
  }

  /** An edge of another kind, wherever it stands, governs nothing. */
  lemma {:induction false} GovernedAround(before: seq<Edge>, e: Edge, after: seq<Edge>, from: NodeId)
    requires !e.kind.GovernedBy?
    ensures GovernedIds(before + [e] + after, from) == GovernedIds(before, from) + GovernedIds(after, from)
  {
    OtherEdge(e, from);
    GovernedBoth(before, [e], from);
    GovernedBoth(before + [e], after, from);
  }

  /** The edges of one more agent add its guardrails to what that agent, and no other, is governed by. */
  lemma {:induction false} GovernedStep(before: seq<Edge>, id: NodeId, i: nat, m: nat, from: NodeId)
    ensures GovernedIds(before + [Edge(FLOW, id, AttachesTo)] + GuardrailEdges(id, i, m), from)
         == GovernedIds(before, from) + if id == from then GuardrailIds(i, m) else []
  {
    GovernedGuardrails(id, i, m, from);
    GovernedAround(before, Edge(FLOW, id, AttachesTo), GuardrailEdges(id, i, m), from);
  }

  lemma GovernedByLast(roles: seq<Role>, n: nat, k: nat)
    requires 0 < n <= |roles| && k < |roles|
    ensures GovernedIds(RoleEdges(roles, n), AgentId(k, roles[k].role))
         == GovernedIds(RoleEdges(roles, n - 1), AgentId(k, roles[k].role)) + if k == n - 1 then GuardrailIds(k, |roles[k].guardrails|) else []
  {
    AgentIdsDiffer(n - 1, roles[n - 1].role, k, roles[k].role);
    GovernedStep(RoleEdges(roles, n - 1), AgentId(n - 1, roles[n - 1].role), n - 1, |roles[n - 1].guardrails|, AgentId(k, roles[k].role));
  }

  lemma {:induction false} GovernedRole(roles: seq<Role>, n: nat, k: nat)
    requires n <= |roles| && k < |roles|
    ensures GovernedIds(RoleEdges(roles, n), AgentId(k, roles[k].role)) == if k < n then GuardrailIds(k, |roles[k].guardrails|) else []
  {
    if n > 0 {
      GovernedRole(roles, n - 1, k);
      GovernedByLast(roles, n, k);
    }
  }

  lemma {:induction false} GovernedByGrants(roles: seq<Role>, grants: seq<GrantIntent>, n: nat, from: NodeId)
    requires n <= |grants|
    ensures GovernedIds(GrantEdges(roles, grants, n), from) == []
  {
    if n > 0 {
      GovernedByGrants(roles, grants, n - 1, from);
      GovernedBoth(GrantEdges(roles, grants, n - 1), GrantEdge(roles, grants[n - 1], n - 1), from);
      OtherEdge(Edge(grants[n - 1].agentRef, GrantId(n - 1), AttachesTo), from);
    }
  }

  lemma {:induction false} GovernedHydrated(c: Config, k: nat)
    requires k < |c.flow.roles|
    ensures GovernedIds(Hydrated(c).edges, AgentId(k, c.flow.roles[k].role)) == GuardrailIds(k, |c.flow.roles[k].guardrails|)
  {
    var roles, from := c.flow.roles, AgentId(k, c.flow.roles[k].role);
    var first, second := Edge(ORG, FLEET, Contains), Edge(FLEET, FLOW, Contains);
    OtherEdge(first, from);
    OtherEdge(second, from);
    GovernedBoth([first], [second], from);
    assert [first] + [second] == [first, second];
    GovernedRole(roles, |roles|, k);
    GovernedByGrants(roles, c.grants, |c.grants|, from);
    GovernedBoth([first, second], RoleEdges(roles, |roles|), from);
    GovernedBoth([first, second] + RoleEdges(roles, |roles|), GrantEdges(roles, c.grants, |c.grants|), from);
  }

  lemma {:induction false} ResolveOne(nodes: seq<Node>, id: NodeId, g: GuardrailConfig)
    requires FindGuardrail(nodes, id) == Some(g)
    ensures Resolve(nodes, [id]) == [g]
  {
  }

  lemma {:induction false} ResolveLast(nodes: seq<Node>, ids: seq<NodeId>, id: NodeId, g: GuardrailConfig)
    requires FindGuardrail(nodes, id) == Some(g)
    ensures Resolve(nodes, ids + [id]) == Resolve(nodes, ids) + [g]
  {
    ResolveOne(nodes, id, g);
    ResolveBoth(nodes, ids, [id]);
  }

  lemma {:induction false} ResolveIds(nodes: seq<Node>, gs: seq<GuardrailConfig>, k: nat, m: nat)
    requires m <= |gs| && forall j: nat :: j < |gs| ==> FindGuardrail(nodes, GuardrailId(k, j)) == Some(gs[j])
    ensures Resolve(nodes, GuardrailIds(k, m)) == gs[..m]
  {
    if m > 0 {
      var id := GuardrailId(k, m - 1);
      ResolveIds(nodes, gs, k, m - 1);
      ResolveLast(nodes, GuardrailIds(k, m - 1), id, gs[m - 1]);
      assert gs[..m] == gs[..m - 1] + [gs[m - 1]];
    }
  }

  lemma GuardrailsHydrated(c: Config, k: nat)
    requires k < |c.flow.roles|
    ensures GuardrailsOf(Hydrated(c), AgentId(k, c.flow.roles[k].role)) == c.flow.roles[k].guardrails
  {
    var gs := c.flow.roles[k].guardrails;
    GovernedHydrated(c, k);
    forall j: nat | j < |gs|
      ensures FindGuardrail(Hydrated(c).nodes, GuardrailId(k, j)) == Some(gs[j])
    {
      FindHydrated(c, k, j);
    }
    ResolveIds(Hydrated(c).nodes, gs, k, |gs|);
    assert gs[..|gs|] == gs;
  }

  // ---- Compiling the canvas again ---------------------------------------------------------------

  /** What every compiled configuration is: amounts are not negative, and a role's policy is that of its agent. */
  predicate Coherent(c: Config) {
    && c.ceiling.totalBudget >= 0 && c.ceiling.perAgentMax >= 0 && c.ceiling.cooldownSeconds >= 0
    && forall r :: r in c.flow.roles ==>
         r.spend.spendCap >= 0 && r.spend.velocityLimitPerHour >= 0
         && r.spend == SpendPolicy(r.spend.spendCap, r.spend.spendCap, r.serviceScope, r.allowedActions, r.spend.velocityLimitPerHour)
  }

  lemma {:induction false} CompiledIsCoherent(g: Graph)
    requires CompileGraphToConfig(g).Some?
    ensures Coherent(CompileGraphToConfig(g).value)
  {
    var roles := RolesOf(g, Agents(g.nodes));
    forall r | r in roles
      ensures r.spend.spendCap >= 0 && r.spend.velocityLimitPerHour >= 0
      ensures r.spend == SpendPolicy(r.spend.spendCap, r.spend.spendCap, r.serviceScope, r.allowedActions, r.spend.velocityLimitPerHour)
    {
      var k :| 0 <= k < |roles| && roles[k] == r;
      RoleComesFromAgent(g, Agents(g.nodes), k);
    }
  }

  function AgentNodes(roles: seq<Role>, k: nat): seq<Node>
    requires k <= |roles|
  {
    if k == 0 then [] else AgentNodes(roles, k - 1) + [AgentOf(k - 1, roles[k - 1])]
  }

  /** Picking one kind of node out of a list made of another kind leaves nothing, out of its own kind everything. */
  lemma {:induction false} FilterNone<T>(f: T -> bool, s: seq<T>)
    requires forall x :: x in s ==> !f(x)
    ensures Filter(f, s) == []
    decreases |s|
  {
    if s != [] { FilterNone(f, s[1..]); }
  }

  lemma {:induction false} FilterAll<T>(f: T -> bool, s: seq<T>)
    requires forall x :: x in s ==> f(x)
    ensures Filter(f, s) == s
    decreases |s|
  {
    if s != [] { FilterAll(f, s[1..]); assert s == [s[0]] + s[1..]; }
  }

  lemma {:induction false} GuardrailNodesOnly(gs: seq<GuardrailConfig>, i: nat, m: nat)
    requires m <= |gs|
    ensures forall n :: n in GuardrailNodes(gs, i, m) ==> n.GuardrailNode?
  {
    if m > 0 { GuardrailNodesOnly(gs, i, m - 1); }
  }

  lemma {:induction false} AgentsOfRoles(roles: seq<Role>, k: nat)
    requires k <= |roles|
    ensures Agents(RoleNodes(roles, k)) == AgentNodes(roles, k)
    ensures forall n :: n in RoleNodes(roles, k) ==> n.AgentNode? || n.GuardrailNode?
    ensures forall n :: n in AgentNodes(roles, k) ==> n.AgentNode?
  {
    if k > 0 {
      var f := (n: Node) => n.AgentNode?;
      var gs, one := GuardrailNodes(roles[k - 1].guardrails, k - 1, |roles[k - 1].guardrails|), [AgentOf(k - 1, roles[k - 1])];
      AgentsOfRoles(roles, k - 1);
      GuardrailNodesOnly(roles[k - 1].guardrails, k - 1, |roles[k - 1].guardrails|);
      FilterNone(f, gs);
      FilterAll(f, one);
      FilterBoth(f, RoleNodes(roles, k - 1), one);
      FilterBoth(f, RoleNodes(roles, k - 1) + one, gs);
    }
  }

  /** The four stretches of the canvas, filtered one by one. */
  lemma FilterHydrated(c: Config, f: Node -> bool)
    ensures Filter(f, Hydrated(c).nodes)
         == Filter(f, BaseNodes(c)) + Filter(f, RoleNodes(c.flow.roles, |c.flow.roles|)) + Filter(f, GrantNodes(c.grants, |c.grants|)) + Filter(f, RailNodes(c.rails, |c.rails|))
  {
    var b, r, gn, rn := BaseNodes(c), RoleNodes(c.flow.roles, |c.flow.roles|), GrantNodes(c.grants, |c.grants|), RailNodes(c.rails, |c.rails|);
    FilterBoth(f, b, r);
    FilterBoth(f, b + r, gn);
    FilterBoth(f, b + r + gn, rn);
  }

  lemma FilterThree<T>(f: T -> bool, x: T, y: T, z: T)
    ensures Filter(f, [x, y, z]) == (if f(x) then [x] else []) + (if f(y) then [y] else []) + (if f(z) then [z] else [])
  {
    FilterOne(f, x);
    FilterOne(f, y);
    FilterOne(f, z);
    FilterBoth(f, [x], [y]);
    FilterBoth(f, [x] + [y], [z]);
    assert [x, y, z] == [x] + [y] + [z];
  }

  lemma FilterBase(c: Config, f: Node -> bool)
    ensures var b := BaseNodes(c);
            Filter(f, b) == (if f(b[0]) then [b[0]] else []) + (if f(b[1]) then [b[1]] else []) + (if f(b[2]) then [b[2]] else [])
  {
    FilterThree(f, BaseNodes(c)[0], BaseNodes(c)[1], BaseNodes(c)[2]);
  }

  /** A kind of node that only the fixed part of the canvas has. */
  lemma OnlyBase(c: Config, f: Node -> bool)
    requires forall n: Node :: n.AgentNode? || n.GuardrailNode? || n.GrantNode? || n.RailNode? ==> !f(n)
    ensures Filter(f, Hydrated(c).nodes) == Filter(f, BaseNodes(c))
  {
    AgentsOfRoles(c.flow.roles, |c.flow.roles|);
    NoAgentInGrants(c.grants, |c.grants|);
    NoGuardrailInRails(c.rails, |c.rails|);
    FilterHydrated(c, f);
    FilterNone(f, RoleNodes(c.flow.roles, |c.flow.roles|));
    FilterNone(f, GrantNodes(c.grants, |c.grants|));
    FilterNone(f, RailNodes(c.rails, |c.rails|));
  }

  lemma BaseKinds(c: Config)
    ensures var g, b := Hydrated(c), BaseNodes(c); Orgs(g.nodes) == [b[0]] && Fleets(g.nodes) == [b[1]] && Flows(g.nodes) == [b[2]]
  {
    OnlyBase(c, (n: Node) => n.OrgNode?);
    OnlyBase(c, (n: Node) => n.FleetNode?);
    OnlyBase(c, (n: Node) => n.FlowNode?);
    FilterBase(c, (n: Node) => n.OrgNode?);
    FilterBase(c, (n: Node) => n.FleetNode?);
    FilterBase(c, (n: Node) => n.FlowNode?);
  }

  /** Where only one of four stretches has what is looked for, all of it is there. */
  lemma {:induction false} FilterOneOf<T>(f: T -> bool, a: seq<T>, b: seq<T>, c: seq<T>, d: seq<T>)
    requires Filter(f, a) == []
    ensures Filter(f, c) == [] && Filter(f, d) == [] ==> Filter(f, a + b + c + d) == Filter(f, b)
    ensures Filter(f, b) == [] && Filter(f, d) == [] ==> Filter(f, a + b + c + d) == Filter(f, c)
    ensures Filter(f, b) == [] && Filter(f, c) == [] ==> Filter(f, a + b + c + d) == Filter(f, d)
  {
    FilterBoth(f, a, b);
    FilterBoth(f, a + b, c);
    FilterBoth(f, a + b + c, d);
  }

  lemma AgentsApart(c: Config)
    ensures Agents(Hydrated(c).nodes) == AgentNodes(c.flow.roles, |c.flow.roles|)
  {
    var f := (n: Node) => n.AgentNode?;
    var b, r, gn, rn := BaseNodes(c), RoleNodes(c.flow.roles, |c.flow.roles|), GrantNodes(c.grants, |c.grants|), RailNodes(c.rails, |c.rails|);
    AgentsOfRoles(c.flow.roles, |c.flow.roles|);
    NoAgentInGrants(c.grants, |c.grants|);
    NoGuardrailInRails(c.rails, |c.rails|);
    FilterNone(f, b);
    FilterNone(f, gn);
    FilterNone(f, rn);
    FilterOneOf(f, b, r, gn, rn);
  }

  lemma GrantsApart(c: Config)
    ensures Grants(Hydrated(c).nodes) == GrantNodes(c.grants, |c.grants|)
  {
    var f := (n: Node) => n.GrantNode?;
    var b, r, gn, rn := BaseNodes(c), RoleNodes(c.flow.roles, |c.flow.roles|), GrantNodes(c.grants, |c.grants|), RailNodes(c.rails, |c.rails|);
    AgentsOfRoles(c.flow.roles, |c.flow.roles|);
    NoAgentInGrants(c.grants, |c.grants|);
    NoGuardrailInRails(c.rails, |c.rails|);
    FilterNone(f, b);
    FilterNone(f, r);
    FilterAll(f, gn);
    FilterNone(f, rn);
    FilterOneOf(f, b, r, gn, rn);
  }

  lemma RailsApart(c: Config)
    ensures Rails(Hydrated(c).nodes) == RailNodes(c.rails, |c.rails|)
  {
    var f := (n: Node) => n.RailNode?;
    var b, r, gn, rn := BaseNodes(c), RoleNodes(c.flow.roles, |c.flow.roles|), GrantNodes(c.grants, |c.grants|), RailNodes(c.rails, |c.rails|);
    AgentsOfRoles(c.flow.roles, |c.flow.roles|);
    NoAgentInGrants(c.grants, |c.grants|);
    NoGuardrailInRails(c.rails, |c.rails|);
    FilterNone(f, b);
    FilterNone(f, r);
    FilterNone(f, gn);
    FilterAll(f, rn);
    FilterOneOf(f, b, r, gn, rn);
  }

  lemma {:induction false} RolesBoth(g: Graph, a: seq<Node>, b: seq<Node>)
    requires (forall n :: n in a ==> n.AgentNode?) && (forall n :: n in b ==> n.AgentNode?)
    ensures RolesOf(g, a + b) == RolesOf(g, a) + RolesOf(g, b)
    decreases |a|
  {
    if a == [] {
      assert a + b == b;
    } else {
      assert (a + b)[1..] == a[1..] + b;
      RolesBoth(g, a[1..], b);
    }
  }

  lemma AmountPrinted(n: int)
    requires n >= 0
    ensures Amount(Print(NatOf(n))) == n
  {
    ValueOfPrint(n);
  }

  lemma RoleAgain(c: Config, k: nat)
    requires Coherent(c) && k < |c.flow.roles|
    ensures var n := AgentOf(k, c.flow.roles[k]); RoleOf(n.agent, GuardrailsOf(Hydrated(c), n.id)) == c.flow.roles[k]
  {
    assert c.flow.roles[k] in c.flow.roles;
    AmountPrinted(c.flow.roles[k].spend.spendCap);
    GuardrailsHydrated(c, k);
  }

  lemma {:induction false} RolesOne(g: Graph, n: Node)
    requires n.AgentNode?
    ensures RolesOf(g, [n]) == [RoleOf(n.agent, GuardrailsOf(g, n.id))]
  {
  }

  /** Role k is what the canvas g says of its agent. */
  predicate SaysAgain(g: Graph, roles: seq<Role>, k: nat)
    requires k < |roles|
  {
    RoleOf(AgentOf(k, roles[k]).agent, GuardrailsOf(g, AgentOf(k, roles[k]).id)) == roles[k]
  }

  lemma {:induction false} RolesAgain(g: Graph, roles: seq<Role>, k: nat)
    requires k <= |roles| && (forall n :: n in AgentNodes(roles, k) ==> n.AgentNode?) && forall i: nat :: i < |roles| ==> SaysAgain(g, roles, i)
    ensures RolesOf(g, AgentNodes(roles, k)) == roles[..k]
  {
    if k > 0 {
      var n := AgentOf(k - 1, roles[k - 1]);
      AgentsOfRoles(roles, k - 1);
      RolesAgain(g, roles, k - 1);
      RolesOne(g, n);
      RolesBoth(g, AgentNodes(roles, k - 1), [n]);
      assert SaysAgain(g, roles, k - 1);
      assert roles[..k] == roles[..k - 1] + [roles[k - 1]];
    }
  }

  lemma {:induction false} GrantsAgain(grants: seq<GrantIntent>, k: nat)
    requires k <= |grants| && forall n :: n in GrantNodes(grants, k) ==> n.GrantNode?
    ensures GrantsOf(GrantNodes(grants, k)) == grants[..k]
  {
    if k > 0 {
      NoAgentInGrants(grants, k - 1);
      GrantsAgain(grants, k - 1);
      GrantsOfBoth(GrantNodes(grants, k - 1), GrantNode(GrantId(k - 1), grants[k - 1]));
    }
  }

  lemma {:induction false} GrantsOfBoth(a: seq<Node>, n: Node)
    requires (forall x :: x in a ==> x.GrantNode?) && n.GrantNode?
    ensures GrantsOf(a + [n]) == GrantsOf(a) + [n.grant]
    decreases |a|
  {
    if a != [] { assert (a + [n])[1..] == a[1..] + [n]; GrantsOfBoth(a[1..], n); }
  }

  lemma {:induction false} RailsAgain(rails: seq<ServiceRail>, k: nat)
    requires k <= |rails| && forall n :: n in RailNodes(rails, k) ==> n.RailNode?
    ensures RailsOf(RailNodes(rails, k)) == rails[..k]
  {
    if k > 0 {
      NoGuardrailInRails(rails, k - 1);
      RailsAgain(rails, k - 1);
      RailsOfBoth(RailNodes(rails, k - 1), RailNode(RailId(k - 1), rails[k - 1]));
    }
  }

  lemma {:induction false} RailsOfBoth(a: seq<Node>, n: Node)
    requires (forall x :: x in a ==> x.RailNode?) && n.RailNode?
    ensures RailsOf(a + [n]) == RailsOf(a) + [n.rail]
    decreases |a|
  {
    if a != [] { assert (a + [n])[1..] == a[1..] + [n]; RailsOfBoth(a[1..], n); }
  }

  lemma RolesOnCanvas(c: Config)
    requires Coherent(c)
    ensures RolesOf(Hydrated(c), Agents(Hydrated(c).nodes)) == c.flow.roles
  {
    var roles := c.flow.roles;
    AgentsApart(c);
    forall k: nat | k < |roles|
      ensures SaysAgain(Hydrated(c), roles, k)
    {
      RoleAgain(c, k);
    }
    RolesAgain(Hydrated(c), roles, |roles|);
    assert roles[..|roles|] == roles;
  }

  lemma AttachmentsOnCanvas(c: Config)
    ensures GrantsOf(Grants(Hydrated(c).nodes)) == c.grants && RailsOf(Rails(Hydrated(c).nodes)) == c.rails
  {
    GrantsApart(c);
    RailsApart(c);
    GrantsAgain(c.grants, |c.grants|);
    RailsAgain(c.rails, |c.rails|);
    assert c.grants[..|c.grants|] == c.grants && c.rails[..|c.rails|] == c.rails;
  }

  /** Compiling the canvas of a configuration gives that configuration back. */
  lemma RoundTrip(c: Config)
    requires Coherent(c)
    ensures CompileGraphToConfig(Hydrated(c)) == Some(c)
  {
    BaseKinds(c);
    RolesOnCanvas(c);
    AttachmentsOnCanvas(c);
    AmountPrinted(c.ceiling.totalBudget);
    AmountPrinted(c.ceiling.perAgentMax);
  }

  /** So for every graph that compiles, valid or not, compile, hydrate and compile again is compile. */
  lemma CompileHydrateCompile(g: Graph)
    requires CompileGraphToConfig(g).Some?
    ensures CompileGraphToConfig(Hydrated(CompileGraphToConfig(g).value)) == CompileGraphToConfig(g)
  {
    CompiledIsCoherent(g);
    RoundTrip(CompileGraphToConfig(g).value);
  }

  // ---- What is drawn ---------------------------------------------------------------------------------

  lemma {:induction false} DrawnGuardrails(agent: NodeId, i: nat, m: nat, e: Edge)
    ensures e in GuardrailEdges(agent, i, m) <==> exists j: nat :: j < m && e == Edge(agent, GuardrailId(i, j), GovernedBy)
  {
    if m > 0 { DrawnGuardrails(agent, i, m - 1, e); }
  }

  /** The edges of role i: from the flow to its agent, and from the agent to each of its guardrails. */
  predicate DrawsRole(roles: seq<Role>, i: nat, e: Edge)
    requires i < |roles|
  {
    || e == Edge(FLOW, AgentId(i, roles[i].role), AttachesTo)
    || exists j: nat :: j < |roles[i].guardrails| && e == Edge(AgentId(i, roles[i].role), GuardrailId(i, j), GovernedBy)
  }

  lemma {:induction false} DrawnRoles(roles: seq<Role>, k: nat, e: Edge)
    requires k <= |roles|
    ensures e in RoleEdges(roles, k) <==> exists i: nat :: i < k && DrawsRole(roles, i, e)
  {
    if k > 0 {
      DrawnRoles(roles, k - 1, e);
      LastRoleDrawn(roles, k, e);
    }
  }

  lemma {:induction false} LastRoleDrawn(roles: seq<Role>, k: nat, e: Edge)
    requires 0 < k <= |roles|
    ensures e in RoleEdges(roles, k) <==> e in RoleEdges(roles, k - 1) || DrawsRole(roles, k - 1, e)
  {
    var id, m := AgentId(k - 1, roles[k - 1].role), |roles[k - 1].guardrails|;
    DrawnGuardrails(id, k - 1, m, e);
    InThree(RoleEdges(roles, k - 1), Edge(FLOW, id, AttachesTo), GuardrailEdges(id, k - 1, m), e);
  }

  lemma InThree<T>(before: seq<T>, x: T, after: seq<T>, y: T)
    ensures y in before + [x] + after <==> y in before || y == x || y in after
  {
  }

  /** The edge of grant i, drawn if some role's agent has the id that the grant names. */
  predicate DrawsGrant(roles: seq<Role>, grants: seq<GrantIntent>, i: nat, e: Edge)
    requires i < |grants|
  {
    e == Edge(grants[i].agentRef, GrantId(i), AttachesTo) && exists k: nat :: k < |roles| && AgentId(k, roles[k].role) == grants[i].agentRef
  }

  lemma {:induction false} AgentDrawn(roles: seq<Role>, k: nat, id: NodeId)
    requires k <= |roles|
    ensures HasAgent(RoleNodes(roles, k), id) <==> exists i: nat :: i < k && AgentId(i, roles[i].role) == id
  {
    if k > 0 {
      AgentDrawn(roles, k - 1, id);
      LastAgentDrawn(roles, k, id);
    }
  }

  lemma {:induction false} LastAgentDrawn(roles: seq<Role>, k: nat, id: NodeId)
    requires 0 < k <= |roles|
    ensures HasAgent(RoleNodes(roles, k), id) <==> HasAgent(RoleNodes(roles, k - 1), id) || AgentId(k - 1, roles[k - 1].role) == id
  {
    var before, agent, gs := RoleNodes(roles, k - 1), AgentOf(k - 1, roles[k - 1]), GuardrailNodes(roles[k - 1].guardrails, k - 1, |roles[k - 1].guardrails|);
    GuardrailNodesOnly(roles[k - 1].guardrails, k - 1, |roles[k - 1].guardrails|);
    forall n ensures n in RoleNodes(roles, k) <==> n in before || n == agent || n in gs { InThree(before, agent, gs, n); }
  }

  lemma {:induction false} DrawnGrants(roles: seq<Role>, grants: seq<GrantIntent>, k: nat, e: Edge)
    requires k <= |grants|
    ensures e in GrantEdges(roles, grants, k) <==> exists i: nat :: i < k && DrawsGrant(roles, grants, i, e)
  {
    if k > 0 {
      DrawnGrants(roles, grants, k - 1, e);
      AgentDrawn(roles, |roles|, grants[k - 1].agentRef);
      assert e in GrantEdge(roles, grants[k - 1], k - 1) <==> DrawsGrant(roles, grants, k - 1, e);
    }
  }

  lemma {:induction false} IdsAreSpelled(i: nat, j: nat, role: string)
    ensures AgentId(i, role) == "agent-" + Print(i) + "-" + role && GuardrailId(i, j) == "guardrail-" + Print(i) + "-" + Print(j)
  {
    assert "agent-" + Print(i) + "-" + role == "agent-" + (Print(i) + "-" + role);
    assert "guardrail-" + Print(i) + "-" + Print(j) == "guardrail-" + (Print(i) + "-" + Print(j));
  }

  /** The canvas has these edges and no others. */
  lemma DrawnExactly(c: Config, e: Edge)
    ensures e in Hydrated(c).edges <==>
      || e == Edge("org-ceiling", "fleet", Contains) || e == Edge("fleet", "trading-flow", Contains)
      || (exists i: nat :: i < |c.flow.roles| && DrawsRole(c.flow.roles, i, e))
      || (exists i: nat :: i < |c.grants| && DrawsGrant(c.flow.roles, c.grants, i, e))
  {
    DrawnRoles(c.flow.roles, |c.flow.roles|, e);
    DrawnGrants(c.flow.roles, c.grants, |c.grants|, e);
  }

  // ---- Where the two functions do not fit together --------------------------------------------------

  lemma {:induction false} NoParents(g: Graph, edges: seq<Edge>, agent: NodeId)
    requires forall e :: e in edges ==> !e.kind.Contains? || e.to != agent
    ensures FleetParents(g, edges, agent) == 0
    decreases |edges|
  {
    if edges != [] { NoParents(g, edges[1..], agent); }
  }

  lemma {:induction false} RolesContainNothing(roles: seq<Role>, k: nat)
    requires k <= |roles|
    ensures forall e :: e in RoleEdges(roles, k) ==> !e.kind.Contains?
  {
    if k > 0 {
      RolesContainNothing(roles, k - 1);
      GuardrailsContainNothing(AgentId(k - 1, roles[k - 1].role), k - 1, |roles[k - 1].guardrails|);
    }
  }

  lemma {:induction false} GuardrailsContainNothing(agent: NodeId, i: nat, m: nat)
    ensures forall e :: e in GuardrailEdges(agent, i, m) ==> !e.kind.Contains?
  {
    if m > 0 { GuardrailsContainNothing(agent, i, m - 1); }
  }

  lemma {:induction false} GrantsContainNothing(roles: seq<Role>, grants: seq<GrantIntent>, k: nat)
    requires k <= |grants|
    ensures forall e :: e in GrantEdges(roles, grants, k) ==> !e.kind.Contains?
  {
    if k > 0 { GrantsContainNothing(roles, grants, k - 1); }
  }

  /** The canvas puts agents under the flow, never under the fleet. */
  lemma NoFleetEdge(c: Config, i: nat, role: string)
    ensures FleetParents(Hydrated(c), Hydrated(c).edges, AgentId(i, role)) == 0
  {
    RolesContainNothing(c.flow.roles, |c.flow.roles|);
    GrantsContainNothing(c.flow.roles, c.grants, |c.grants|);
    assert AgentId(i, role)[0] == 'a' && FLEET[0] == 'f' && FLOW[0] == 't';
    NoParents(Hydrated(c), Hydrated(c).edges, AgentId(i, role));
  }

  lemma RolesAreRejected(c: Config)
    requires c.flow.roles != []
    ensures !IsValid(Hydrated(c))
  {
    var g := Hydrated(c);
    if GoodGraph(g) {
      var id := AgentId(0, c.flow.roles[0].role);
      AgentsApart(c);
      FirstAgent(c.flow.roles, |c.flow.roles|);
      NoFleetEdge(c, 0, c.flow.roles[0].role);
      assert Violated(g, NotUnderOneFleet(id, 0));
    }
  }

  lemma {:induction false} FirstAgent(roles: seq<Role>, k: nat)
    requires 0 < k <= |roles|
    ensures AgentOf(0, roles[0]) in AgentNodes(roles, k)
  {
    if k > 1 { FirstAgent(roles, k - 1); }
  }

  /** Names and references that the schema would accept. */
  predicate Named(c: Config) {
    && c.fleetName != "" && c.flow.name != "" && c.flow.version >= 1
    && (forall x :: x in c.grants ==> x.agentRef != "") && (forall r :: r in c.rails ==> r.resourceId != "" && r.destination != "")
  }

  lemma {:induction false} GrantNodesGood(grants: seq<GrantIntent>, k: nat)
    requires k <= |grants| && forall x :: x in grants ==> x.agentRef != ""
    ensures forall n :: n in GrantNodes(grants, k) ==> GoodNode(n)
  {
    if k > 0 { GrantNodesGood(grants, k - 1); }
  }

  lemma {:induction false} RailNodesGood(rails: seq<ServiceRail>, k: nat)
    requires k <= |rails| && forall r :: r in rails ==> r.resourceId != "" && r.destination != ""
    ensures forall n :: n in RailNodes(rails, k) ==> GoodNode(n)
  {
    if k > 0 { RailNodesGood(rails, k - 1); }
  }

  lemma {:induction false} NoGrantEdges(grants: seq<GrantIntent>, k: nat)
    requires k <= |grants|
    ensures GrantEdges([], grants, k) == []
  {
    if k > 0 { NoGrantEdges(grants, k - 1); }
  }

  lemma EmptyFlowIsGood(c: Config)
    requires Named(c) && c.flow.roles == []
    ensures GoodGraph(Hydrated(c)) && Hydrated(c).edges == [Edge(ORG, FLEET, Contains), Edge(FLEET, FLOW, Contains)]
  {
    GrantNodesGood(c.grants, |c.grants|);
    RailNodesGood(c.rails, |c.rails|);
    NoGrantEdges(c.grants, |c.grants|);
    assert forall n :: n in BaseNodes(c) ==> GoodNode(n);
  }

  /** Validation accepts the canvas that configToGraph makes if and only if the flow has no role at all. */
  lemma HydratedIsValidIffNoRoles(c: Config)
    requires Named(c)
    ensures IsValid(Hydrated(c)) <==> c.flow.roles == []
  {
    if c.flow.roles != [] {
      RolesAreRejected(c);
    } else {
      EmptyFlowIsGood(c);
      BaseKinds(c);
      AgentsApart(c);
      assert Agents(Hydrated(c).nodes) == [];
      assert Hydrated(c).edges[0] in Hydrated(c).edges;
    }
  }
}
