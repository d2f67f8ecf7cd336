// What the graph builder's lists and counts say of a graph: validation and compilation stated over the
// nodes and edges themselves (src/engines/control/graph-builder/validate.ts and compiler.ts).
module GraphReading {
  import opened Options
  import opened DecimalText
  import opened PolicyCompile
  import opened GraphCompiler

  // ---- Lists of nodes ----------------------------------------------------------------------------

  lemma Grown(all: set<int>, before: set<int>, n: int, more: bool)
    requires n !in before && before <= all <= before + {n} && (n in all <==> more)
    ensures |all| == |before| + if more then 1 else 0
  {
    if more { assert all == before + {n}; } else { assert all == before; }
  }

  /** The places before i that hold an element of this kind. */
  ghost function Before<T>(kind: T -> bool, s: seq<T>, i: int): set<int>
    requires i <= |s|
  {
    set j | 0 <= j < i && kind(s[j])
  }

  /** The first element of this kind. */
  ghost predicate IsFirst<T>(kind: T -> bool, s: seq<T>, x: T) {
    exists i :: 0 <= i < |s| && s[i] == x && kind(x) && forall j :: 0 <= j < i ==> !kind(s[j])
  }

  lemma {:induction false} FilterBoth<T>(f: T -> bool, a: seq<T>, b: seq<T>)
    ensures Filter(f, a + b) == Filter(f, a) + Filter(f, b)
    decreases |a|
  {
    if a == [] {
      assert a + b == b;
    } else {
      assert (a + b)[1..] == a[1..] + b;
      FilterBoth(f, a[1..], b);
    }
  }

  lemma FilterOne<T>(f: T -> bool, x: T)
    ensures Filter(f, [x]) == if f(x) then [x] else []
  {
  }

  lemma {:induction false} FilterCounts<T>(kind: T -> bool, s: seq<T>)
    ensures |Filter(kind, s)| == |Before(kind, s, |s|)|
    decreases |s|
  {
    if s != [] {
      var front, x := s[..|s| - 1], s[|s| - 1];
      assert s == front + [x];
      FilterCounts(kind, front);
      FilterBoth(kind, front, [x]);
      FilterOne(kind, x);
      Grown(Before(kind, s, |s|), Before(kind, front, |front|), |front|, kind(x));
    } else {
      assert Before(kind, s, 0) == {};
    }
  }

  /** The list of a kind holds every element of the kind, at the place that its predecessors leave it. */
  lemma {:induction false} FilterPlaces<T>(kind: T -> bool, s: seq<T>, i: nat)
    requires i < |s| && kind(s[i])
    ensures var k := |Before(kind, s, i)|; k < |Filter(kind, s)| && Filter(kind, s)[k] == s[i]
  {
    assert s == s[..i] + s[i..];
    FilterBoth(kind, s[..i], s[i..]);
    FilterCounts(kind, s[..i]);
    assert Before(kind, s[..i], i) == Before(kind, s, i);
    assert Filter(kind, s[i..])[0] == s[i];
  }

  lemma {:induction false} FilterHolds<T>(kind: T -> bool, s: seq<T>, x: T)
    ensures x in Filter(kind, s) <==> x in s && kind(x)
    decreases |s|
  {
    if s != [] { FilterHolds(kind, s[1..], x); }
  }

  lemma {:induction false} FirstOfRest<T>(kind: T -> bool, s: seq<T>, x: T)
    requires s != [] && !kind(s[0])
    ensures IsFirst(kind, s, x) <==> IsFirst(kind, s[1..], x)
  {
    var rest := s[1..];
    if IsFirst(kind, s, x) {
      var i :| 0 <= i < |s| && s[i] == x && kind(x) && forall j :: 0 <= j < i ==> !kind(s[j]);
      assert rest[i - 1] == x && forall j :: 0 <= j < i - 1 ==> rest[j] == s[j + 1];
    }
    if IsFirst(kind, rest, x) {
      var i :| 0 <= i < |rest| && rest[i] == x && kind(x) && forall j :: 0 <= j < i ==> !kind(rest[j]);
      assert s[i + 1] == x && forall j :: 0 < j < i + 1 ==> s[j] == rest[j - 1];
    }
  }

  /** The first of a kind, and no other element, heads the list. */
  lemma {:induction false} FilterFirst<T>(kind: T -> bool, s: seq<T>, x: T)
    ensures IsFirst(kind, s, x) <==> Filter(kind, s) != [] && Filter(kind, s)[0] == x
    decreases |s|
  {
    if s != [] {
      if kind(s[0]) {
        assert Filter(kind, s)[0] == s[0];
      } else {
        FirstOfRest(kind, s, x);
        FilterFirst(kind, s[1..], x);
      }
    }
  }

  // ---- Containment -------------------------------------------------------------------------------

  ghost predicate LeadsFromFleet(g: Graph, e: Edge, agent: NodeId) {
    e.to == agent && e.kind.Contains? && exists n :: n in g.nodes && n.FleetNode? && n.id == e.from
  }

  lemma {:induction false} ParentsAdd(g: Graph, a: seq<Edge>, e: Edge, agent: NodeId)
    ensures FleetParents(g, a + [e], agent) == FleetParents(g, a, agent) + if LeadsFromFleet(g, e, agent) then 1 else 0
    decreases |a|
  {
    if a == [] {
      assert a + [e] == [e] && FleetParents(g, [], agent) == 0 && [e][1..] == [];
    } else {
      assert (a + [e])[1..] == a[1..] + [e];
      ParentsAdd(g, a[1..], e, agent);
    }
  }

  ghost function ParentPlaces(g: Graph, edges: seq<Edge>, agent: NodeId): set<int> {
    set i | 0 <= i < |edges| && LeadsFromFleet(g, edges[i], agent)
  }

  lemma {:induction false} ParentsOfEdges(g: Graph, edges: seq<Edge>, agent: NodeId)
    ensures FleetParents(g, edges, agent) == |ParentPlaces(g, edges, agent)|
    decreases |edges|
  {
    if edges == [] {
      assert ParentPlaces(g, edges, agent) == {};
    } else {
      var front, e := edges[..|edges| - 1], edges[|edges| - 1];
      assert edges == front + [e];
      ParentsOfEdges(g, front, agent);
      ParentsAdd(g, front, e, agent);
      Grown(ParentPlaces(g, edges, agent), ParentPlaces(g, front, agent), |front|, LeadsFromFleet(g, e, agent));
    }
  }

  /** The count is the number of edges by which a fleet contains the agent. */
  lemma {:induction false} ParentsAreCounted(g: Graph, agent: NodeId)
    ensures FleetParents(g, g.edges, agent)
         == |(set i | 0 <= i < |g.edges| && g.edges[i].to == agent && g.edges[i].kind.Contains?
                     && exists n :: n in g.nodes && n.FleetNode? && n.id == g.edges[i].from)|
  {
    ParentsOfEdges(g, g.edges, agent);
    assert ParentPlaces(g, g.edges, agent)
        == set i | 0 <= i < |g.edges| && g.edges[i].to == agent && g.edges[i].kind.Contains?
                   && exists n :: n in g.nodes && n.FleetNode? && n.id == g.edges[i].from;
  }

  // ---- Guardrails --------------------------------------------------------------------------------

  /** The last guardrail node under an id, which is the one that a Map keeps. */
  ghost predicate LastHolder(nodes: seq<Node>, i: int, id: NodeId) {
    && 0 <= i < |nodes| && nodes[i].GuardrailNode? && nodes[i].id == id
    && forall j :: i < j < |nodes| && nodes[j].GuardrailNode? ==> nodes[j].id != id
  }

  lemma {:induction false} FoundIsLast(nodes: seq<Node>, id: NodeId, i: int)
    requires LastHolder(nodes, i, id)
    ensures FindGuardrail(nodes, id) == Some(nodes[i].guardrail)
    decreases |nodes|
  {
    if i < |nodes| - 1 { FoundIsLast(nodes[..|nodes| - 1], id, i); }
  }

  lemma {:induction false} LastIsFound(nodes: seq<Node>, id: NodeId) returns (i: int)
    requires FindGuardrail(nodes, id).Some?
    ensures LastHolder(nodes, i, id)
    decreases |nodes|
  {
    var last := nodes[|nodes| - 1];
    if last.GuardrailNode? && last.id == id { i := |nodes| - 1; } else { i := LastIsFound(nodes[..|nodes| - 1], id); }
  }

  /** This edge puts agent a under guardrail c. */
  ghost predicate Governs(g: Graph, e: Edge, a: NodeId, c: GuardrailConfig) {
    e.from == a && e.kind.GovernedBy? && exists i :: LastHolder(g.nodes, i, e.to) && g.nodes[i].guardrail == c
  }

  ghost predicate GovernsSome(g: Graph, e: Edge, a: NodeId) { exists c :: Governs(g, e, a, c) }

  lemma GovernsIsFound(g: Graph, e: Edge, a: NodeId, c: GuardrailConfig)
    ensures Governs(g, e, a, c) <==> e.from == a && e.kind.GovernedBy? && FindGuardrail(g.nodes, e.to) == Some(c)
  {
    if FindGuardrail(g.nodes, e.to) == Some(c) {
      var i := LastIsFound(g.nodes, e.to);
      FoundIsLast(g.nodes, e.to, i);
    }
    if Governs(g, e, a, c) {
      var i :| LastHolder(g.nodes, i, e.to) && g.nodes[i].guardrail == c;
      FoundIsLast(g.nodes, e.to, i);
    }
  }

  lemma {:induction false} GovernedBoth(a: seq<Edge>, b: seq<Edge>, from: NodeId)
    ensures GovernedIds(a + b, from) == GovernedIds(a, from) + GovernedIds(b, from)
    decreases |a|
  {
    if a == [] {
      assert a + b == b;
    } else {
      assert (a + b)[1..] == a[1..] + b;
      GovernedBoth(a[1..], b, from);
    }
  }

  lemma {:induction false} ResolveBoth(nodes: seq<Node>, a: seq<NodeId>, b: seq<NodeId>)
    ensures Resolve(nodes, a + b) == Resolve(nodes, a) + Resolve(nodes, b)
    decreases |a|
  {
    if a == [] {
      assert a + b == b;
    } else {
      assert (a + b)[1..] == a[1..] + b;
      ResolveBoth(nodes, a[1..], b);
    }
  }

  function Attached(g: Graph, edges: seq<Edge>, a: NodeId): seq<GuardrailConfig> { Resolve(g.nodes, GovernedIds(edges, a)) }

  lemma {:induction false} AttachedOne(g: Graph, e: Edge, a: NodeId)
    ensures Attached(g, [e], a) == if e.from == a && e.kind.GovernedBy? && FindGuardrail(g.nodes, e.to).Some? then [FindGuardrail(g.nodes, e.to).value] else []
  {
    assert [e][1..] == [] && GovernedIds([], a) == [];
    assert GovernedIds([e], a) == if e.from == a && e.kind.GovernedBy? then [e.to] else [];
    assert [e.to][1..] == [] && Resolve(g.nodes, []) == [];
  }

  lemma AttachedBoth(g: Graph, x: seq<Edge>, y: seq<Edge>, a: NodeId)
    ensures Attached(g, x + y, a) == Attached(g, x, a) + Attached(g, y, a)
  {
    GovernedBoth(x, y, a);
    ResolveBoth(g.nodes, GovernedIds(x, a), GovernedIds(y, a));
  }

  /** The edges before place i that put the agent under some guardrail. */
  ghost function Governing(g: Graph, a: NodeId, edges: seq<Edge>, i: int): set<int>
    requires i <= |edges|
  {
    set j | 0 <= j < i && GovernsSome(g, edges[j], a)
  }

  lemma GovernsIffAttached(g: Graph, e: Edge, a: NodeId)
    ensures |Attached(g, [e], a)| == if GovernsSome(g, e, a) then 1 else 0
  {
    AttachedOne(g, e, a);
    if Attached(g, [e], a) != [] { GovernsIsFound(g, e, a, FindGuardrail(g.nodes, e.to).value); }
    if GovernsSome(g, e, a) {
      var c :| Governs(g, e, a, c);
      GovernsIsFound(g, e, a, c);
    }
  }

  lemma GoverningAdds(g: Graph, a: NodeId, front: seq<Edge>, e: Edge)
    ensures |Governing(g, a, front + [e], |front| + 1)| == |Governing(g, a, front, |front|)| + if GovernsSome(g, e, a) then 1 else 0
  {
    Grown(Governing(g, a, front + [e], |front| + 1), Governing(g, a, front, |front|), |front|, GovernsSome(g, e, a));
  }

  lemma {:induction false} AttachedCounts(g: Graph, a: NodeId, edges: seq<Edge>)
    ensures |Attached(g, edges, a)| == |Governing(g, a, edges, |edges|)|
    decreases |edges|
  {
    if edges == [] {
      assert Governing(g, a, edges, 0) == {};
    } else {
      var front, e := edges[..|edges| - 1], edges[|edges| - 1];
      assert edges == front + [e];
      AttachedCounts(g, a, front);
      AttachedBoth(g, front, [e], a);
      GovernsIffAttached(g, e, a);
      GoverningAdds(g, a, front, e);
    }
  }

  /** The guardrails of an agent are those that its edges lead to, one for each such edge, in the order of the edges. */
  lemma GuardrailPlaces(g: Graph, a: NodeId, i: nat, c: GuardrailConfig)
    requires i < |g.edges| && Governs(g, g.edges[i], a, c)
    ensures var k := |Governing(g, a, g.edges, i)|; k < |GuardrailsOf(g, a)| && GuardrailsOf(g, a)[k] == c
  {
    var e, before, after := g.edges[i], g.edges[..i], g.edges[i + 1..];
    assert g.edges == before + ([e] + after);
    AttachedBoth(g, before, [e] + after, a);
    AttachedBoth(g, [e], after, a);
    GovernsIsFound(g, e, a, c);
    AttachedOne(g, e, a);
    AttachedCounts(g, a, before);
    assert Governing(g, a, before, i) == Governing(g, a, g.edges, i);
  }

  lemma {:induction false} AttachedIsGoverned(g: Graph, a: NodeId, edges: seq<Edge>, c: GuardrailConfig)
    ensures c in Attached(g, edges, a) <==> exists e :: e in edges && Governs(g, e, a, c)
    decreases |edges|
  {
    if edges != [] {
      var e, rest := edges[0], edges[1..];
      assert edges == [e] + rest;
      AttachedBoth(g, [e], rest, a);
      AttachedOne(g, e, a);
      GovernsIsFound(g, e, a, c);
      AttachedIsGoverned(g, a, rest, c);
    }
  }

  /** An agent has a guardrail if and only if an edge leads from it to an id whose last holder is that guardrail. */
  lemma GuardrailsAreGoverned(g: Graph, a: NodeId, c: GuardrailConfig)
    ensures c in GuardrailsOf(g, a)
       <==> exists e, i :: e in g.edges && e.from == a && e.kind.GovernedBy? && LastHolder(g.nodes, i, e.to) && g.nodes[i].guardrail == c
  {
    AttachedIsGoverned(g, a, g.edges, c);
  }

  // ---- Validation --------------------------------------------------------------------------------

  ghost predicate FirstOrg(g: Graph, x: Node) { IsFirst((n: Node) => n.OrgNode?, g.nodes, x) }

  ghost predicate FirstFleet(g: Graph, x: Node) { IsFirst((n: Node) => n.FleetNode?, g.nodes, x) }

  /** The agent is put under a guardrail for trades. */
  ghost predicate TradeGuarded(g: Graph, a: NodeId) {
    exists e, i :: e in g.edges && e.from == a && e.kind.GovernedBy? && LastHolder(g.nodes, i, e.to) && g.nodes[i].guardrail.kind == "cspr-trade"
  }

  /** The rules over the nodes and edges of the graph. */
  ghost predicate Breaks(g: Graph, e: GraphError)
    requires GoodGraph(g)
  {
    match e
    case BadSchema => false
    case OrgCount(found) => found != 1 && found == |(set i | 0 <= i < |g.nodes| && g.nodes[i].OrgNode?)|
    case NoFleet => forall n :: n in g.nodes ==> !n.FleetNode?
    case FleetNotContained =>
      exists o, f :: FirstOrg(g, o) && FirstFleet(g, f)
        && Edge(o.id, f.id, Contains) !in g.edges
    case NotUnderOneFleet(a, found) =>
      && found != 1 && (exists n :: n in g.nodes && n.AgentNode? && n.id == a)
      && found == |(set i | 0 <= i < |g.edges| && g.edges[i].to == a && g.edges[i].kind.Contains?
                           && exists n :: n in g.nodes && n.FleetNode? && n.id == g.edges[i].from)|
    case TraderWithoutGuardrail(a) =>
      (exists n :: n in g.nodes && n.AgentNode? && n.id == a && "cspr-trade" in n.agent.allowedActions) && !TradeGuarded(g, a)
    case SubCapExceeds(a, cap, limit) =>
      && cap > limit && (exists n :: n in g.nodes && n.AgentNode? && n.id == a && cap == Value(n.agent.subCap))
      && exists o :: o in g.nodes && o.OrgNode? && FirstOrg(g, o) && limit == Value(o.org.perAgentMax)
  }

  lemma HeadIsFirst(g: Graph)
    ensures Orgs(g.nodes) != [] ==> FirstOrg(g, Orgs(g.nodes)[0])
    ensures Fleets(g.nodes) != [] ==> FirstFleet(g, Fleets(g.nodes)[0])
  {
    if Orgs(g.nodes) != [] { FilterFirst((n: Node) => n.OrgNode?, g.nodes, Orgs(g.nodes)[0]); }
    if Fleets(g.nodes) != [] { FilterFirst((n: Node) => n.FleetNode?, g.nodes, Fleets(g.nodes)[0]); }
  }

  lemma FirstIsHead(g: Graph)
    ensures forall x :: FirstOrg(g, x) ==> Orgs(g.nodes) != [] && Orgs(g.nodes)[0] == x
    ensures forall x :: FirstFleet(g, x) ==> Fleets(g.nodes) != [] && Fleets(g.nodes)[0] == x
  {
    forall x | FirstOrg(g, x) ensures Orgs(g.nodes) != [] && Orgs(g.nodes)[0] == x {
      FilterFirst((n: Node) => n.OrgNode?, g.nodes, x);
    }
    forall x | FirstFleet(g, x) ensures Fleets(g.nodes) != [] && Fleets(g.nodes)[0] == x {
      FilterFirst((n: Node) => n.FleetNode?, g.nodes, x);
    }
  }

  lemma OrgsAreCounted(g: Graph)
    ensures |Orgs(g.nodes)| == |(set i | 0 <= i < |g.nodes| && g.nodes[i].OrgNode?)|
  {
    FilterCounts((n: Node) => n.OrgNode?, g.nodes);
    assert Before((n: Node) => n.OrgNode?, g.nodes, |g.nodes|) == set i | 0 <= i < |g.nodes| && g.nodes[i].OrgNode?;
  }

  lemma AgentsAreListed(g: Graph)
    ensures forall n :: n in Agents(g.nodes) <==> n in g.nodes && n.AgentNode?
  {
    forall n ensures n in Agents(g.nodes) <==> n in g.nodes && n.AgentNode? { FilterHolds((n: Node) => n.AgentNode?, g.nodes, n); }
  }

  lemma NoFleetIsListed(g: Graph)
    ensures Fleets(g.nodes) == [] <==> forall n :: n in g.nodes ==> !n.FleetNode?
  {
    forall n ensures n in Fleets(g.nodes) <==> n in g.nodes && n.FleetNode? { FilterHolds((n: Node) => n.FleetNode?, g.nodes, n); }
    if Fleets(g.nodes) != [] { assert Fleets(g.nodes)[0] in Fleets(g.nodes); }
  }

  lemma TradersAreGuarded(g: Graph, a: NodeId)
    ensures HasTradeGuardrail(g, a) <==> TradeGuarded(g, a)
  {
    forall c ensures c in GuardrailsOf(g, a)
       <==> exists e, i :: e in g.edges && e.from == a && e.kind.GovernedBy? && LastHolder(g.nodes, i, e.to) && g.nodes[i].guardrail == c
    {
      GuardrailsAreGoverned(g, a, c);
    }
    if TradeGuarded(g, a) {
      var e, i :| e in g.edges && e.from == a && e.kind.GovernedBy? && LastHolder(g.nodes, i, e.to) && g.nodes[i].guardrail.kind == "cspr-trade";
      assert g.nodes[i].guardrail in GuardrailsOf(g, a);
    }
  }

  lemma ShapeRules(g: Graph, e: GraphError)
    requires GoodGraph(g) && (e.BadSchema? || e.OrgCount? || e.NoFleet? || e.FleetNotContained?)
    ensures Violated(g, e) <==> Breaks(g, e)
  {
    OrgsAreCounted(g);
    NoFleetIsListed(g);
    HeadIsFirst(g);
    FirstIsHead(g);
  }

  lemma CapRule(g: Graph, e: GraphError)
    requires GoodGraph(g) && e.SubCapExceeds?
    ensures Violated(g, e) <==> Breaks(g, e)
  {
    AgentsAreListed(g);
    HeadIsFirst(g);
    FirstIsHead(g);
  }

  /** Each rule means what it says of the nodes and edges. */
  lemma RulesAreOfTheGraph(g: Graph, e: GraphError)
    requires GoodGraph(g)
    ensures Violated(g, e) <==> Breaks(g, e)
  {
    AgentsAreListed(g);
    if e.NotUnderOneFleet? { ParentsAreCounted(g, e.agent); }
    if e.TraderWithoutGuardrail? { TradersAreGuarded(g, e.agent); }
    if e.SubCapExceeds? { CapRule(g, e); }
    if e.BadSchema? || e.OrgCount? || e.NoFleet? || e.FleetNotContained? { ShapeRules(g, e); }
  }

  // ---- Compilation -------------------------------------------------------------------------------

  /** The agents before place i. */
  ghost function AgentsBefore(g: Graph, i: int): set<int>
    requires i <= |g.nodes|
  {
    set j | 0 <= j < i && g.nodes[j].AgentNode?
  }

  /** Every agent of the graph has its role, in the order of the nodes, with its own actions, scope, cap and guardrails. */
  lemma RolePerAgent(g: Graph, i: nat)
    requires CompileGraphToConfig(g).Some? && i < |g.nodes| && g.nodes[i].AgentNode? && GoodNode(g.nodes[i])
    ensures var roles, k, a := CompileGraphToConfig(g).value.flow.roles, |AgentsBefore(g, i)|, g.nodes[i].agent;
            && |roles| == |AgentsBefore(g, |g.nodes|)| && k < |roles|
            && roles[k].role == a.role && roles[k].agentName == a.name
            && roles[k].allowedActions == roles[k].spend.railPermission == a.allowedActions
            && roles[k].serviceScope == roles[k].spend.serviceScope == a.serviceScope
            && roles[k].spend.spendCap == roles[k].spend.perTransactionMax == Value(a.subCap)
            && roles[k].spend.velocityLimitPerHour == a.velocity
            && roles[k].guardrails == GuardrailsOf(g, g.nodes[i].id)
  {
    var agents, k := Agents(g.nodes), |AgentsBefore(g, i)|;
    FilterPlaces((n: Node) => n.AgentNode?, g.nodes, i);
    FilterCounts((n: Node) => n.AgentNode?, g.nodes);
    assert Before((n: Node) => n.AgentNode?, g.nodes, i) == AgentsBefore(g, i);
    assert Before((n: Node) => n.AgentNode?, g.nodes, |g.nodes|) == AgentsBefore(g, |g.nodes|);
    RolesPerAgents(g, agents);
    RoleComesFromAgent(g, agents, k);
  }

  lemma {:induction false} RolesPerAgents(g: Graph, agents: seq<Node>)
    requires forall n :: n in agents ==> n.AgentNode?
    ensures |RolesOf(g, agents)| == |agents|
  {
    if agents != [] { RolesPerAgents(g, agents[1..]); }
  }

  /** What the rest of the configuration is read from: the first ceiling, the first fleet and the first flow, if there is one. */
  lemma HeadOfConfig(g: Graph, o: Node, f: Node)
    requires o in g.nodes && o.OrgNode? && GoodNode(o) && f in g.nodes && f.FleetNode? && FirstOrg(g, o) && FirstFleet(g, f)
    ensures var c := CompileGraphToConfig(g);
            && c.Some? && c.value.fleetName == f.fleet
            && c.value.ceiling == AllocationPolicy(Value(o.org.totalBudget), Value(o.org.perAgentMax), o.org.cooldownSeconds, o.org.destinations)
            && (forall w :: w in g.nodes && w.FlowNode? && FirstFlow(g, w) ==> c.value.flow.name == w.flow && c.value.flow.version == w.version)
            && ((forall w :: w in g.nodes ==> !w.FlowNode?) ==> c.value.flow.name == f.fleet && c.value.flow.version == 1)
  {
    FirstIsHead(g);
    forall w | FirstFlow(g, w) ensures Flows(g.nodes) != [] && Flows(g.nodes)[0] == w { FilterFirst((n: Node) => n.FlowNode?, g.nodes, w); }
    if Flows(g.nodes) != [] { FilterHolds((n: Node) => n.FlowNode?, g.nodes, Flows(g.nodes)[0]); }
  }

  ghost predicate FirstFlow(g: Graph, x: Node) { IsFirst((n: Node) => n.FlowNode?, g.nodes, x) }

  /** Compilation throws exactly when there is no ceiling or no fleet. */
  lemma CompilesIff(g: Graph)
    ensures CompileGraphToConfig(g).Some? <==> (exists o :: o in g.nodes && o.OrgNode?) && exists f :: f in g.nodes && f.FleetNode?
  {
    NoFleetIsListed(g);
    forall n ensures n in Orgs(g.nodes) <==> n in g.nodes && n.OrgNode? { FilterHolds((n: Node) => n.OrgNode?, g.nodes, n); }
    if Orgs(g.nodes) != [] { assert Orgs(g.nodes)[0] in Orgs(g.nodes); }
  }

  lemma {:induction false} GrantPlaces(nodes: seq<Node>, k: nat)
    requires (forall n :: n in nodes ==> n.GrantNode?) && k < |nodes|
    ensures |GrantsOf(nodes)| == |nodes| && GrantsOf(nodes)[k] == nodes[k].grant
  {
    if |nodes| > 1 { GrantPlaces(nodes[1..], if k == 0 then 0 else k - 1); }
  }

  lemma {:induction false} RailPlaces(nodes: seq<Node>, k: nat)
    requires (forall n :: n in nodes ==> n.RailNode?) && k < |nodes|
    ensures |RailsOf(nodes)| == |nodes| && RailsOf(nodes)[k] == nodes[k].rail
  {
    if |nodes| > 1 { RailPlaces(nodes[1..], if k == 0 then 0 else k - 1); }
  }

  /** Every grant intent and every service rail of the graph is carried over, in the order of the nodes. */
  lemma AttachmentPerNode(g: Graph, i: nat)
    requires CompileGraphToConfig(g).Some? && i < |g.nodes|
    ensures var c := CompileGraphToConfig(g).value;
            && (g.nodes[i].GrantNode? ==>
                 var k := |(set j | 0 <= j < i && g.nodes[j].GrantNode?)|;
                 && |c.grants| == |(set j | 0 <= j < |g.nodes| && g.nodes[j].GrantNode?)| && k < |c.grants| && c.grants[k] == g.nodes[i].grant)
            && (g.nodes[i].RailNode? ==>
                 var k := |(set j | 0 <= j < i && g.nodes[j].RailNode?)|;
                 && |c.rails| == |(set j | 0 <= j < |g.nodes| && g.nodes[j].RailNode?)| && k < |c.rails| && c.rails[k] == g.nodes[i].rail)
  {
    if g.nodes[i].GrantNode? { GrantPerNode(g, i); }
    if g.nodes[i].RailNode? { RailPerNode(g, i); }
  }

  lemma GrantPerNode(g: Graph, i: nat)
    requires i < |g.nodes| && g.nodes[i].GrantNode?
    ensures var k, grants := |(set j | 0 <= j < i && g.nodes[j].GrantNode?)|, GrantsOf(Grants(g.nodes));
            && |grants| == |(set j | 0 <= j < |g.nodes| && g.nodes[j].GrantNode?)| && k < |grants| && grants[k] == g.nodes[i].grant
  {
    var k := |(set j | 0 <= j < i && g.nodes[j].GrantNode?)|;
    FilterPlaces((n: Node) => n.GrantNode?, g.nodes, i);
    FilterCounts((n: Node) => n.GrantNode?, g.nodes);
    assert Before((n: Node) => n.GrantNode?, g.nodes, i) == set j | 0 <= j < i && g.nodes[j].GrantNode?;
    assert Before((n: Node) => n.GrantNode?, g.nodes, |g.nodes|) == set j | 0 <= j < |g.nodes| && g.nodes[j].GrantNode?;
    GrantPlaces(Grants(g.nodes), k);
  }

  lemma RailPerNode(g: Graph, i: nat)
    requires i < |g.nodes| && g.nodes[i].RailNode?
    ensures var k, rails := |(set j | 0 <= j < i && g.nodes[j].RailNode?)|, RailsOf(Rails(g.nodes));
            && |rails| == |(set j | 0 <= j < |g.nodes| && g.nodes[j].RailNode?)| && k < |rails| && rails[k] == g.nodes[i].rail
  {
    var k := |(set j | 0 <= j < i && g.nodes[j].RailNode?)|;
    FilterPlaces((n: Node) => n.RailNode?, g.nodes, i);
    FilterCounts((n: Node) => n.RailNode?, g.nodes);
    assert Before((n: Node) => n.RailNode?, g.nodes, i) == set j | 0 <= j < i && g.nodes[j].RailNode?;
    assert Before((n: Node) => n.RailNode?, g.nodes, |g.nodes|) == set j | 0 <= j < |g.nodes| && g.nodes[j].RailNode?;
    RailPlaces(Rails(g.nodes), k);
  }

  // ---- A graph of one guarded trader ---------------------------------------------------------------

  /** A ceiling over a fleet over a trader that is governed by a guardrail for trades. */
  function OneTrader(org: OrgConfig, agent: AgentConfig, guardrail: GuardrailConfig): Graph {
    Graph([OrgNode("o", org), FleetNode("f", "fleet"), AgentNode("a", agent), GuardrailNode("g", guardrail)],
          [Edge("o", "f", Contains), Edge("f", "a", Contains), Edge("a", "g", GovernedBy)])
  }

  lemma {:induction false} FilterFour(kind: Node -> bool, w: Node, x: Node, y: Node, z: Node)
    ensures Filter(kind, [w, x, y, z]) == Filter(kind, [w]) + Filter(kind, [x]) + Filter(kind, [y]) + Filter(kind, [z])
  {
    FilterBoth(kind, [w], [x]);
    FilterBoth(kind, [w] + [x], [y]);
    FilterBoth(kind, [w] + [x] + [y], [z]);
    assert [w, x, y, z] == [w] + [x] + [y] + [z];
  }

  lemma OneOfEach(g: Graph)
    requires |g.nodes| == 4 && g.nodes[0].OrgNode? && g.nodes[1].FleetNode? && g.nodes[2].AgentNode? && g.nodes[3].GuardrailNode?
    ensures Orgs(g.nodes) == [g.nodes[0]] && Fleets(g.nodes) == [g.nodes[1]] && Agents(g.nodes) == [g.nodes[2]]
  {
    var w, x, y, z := g.nodes[0], g.nodes[1], g.nodes[2], g.nodes[3];
    assert g.nodes == [w, x, y, z];
    FilterFour((n: Node) => n.OrgNode?, w, x, y, z);
    FilterFour((n: Node) => n.FleetNode?, w, x, y, z);
    FilterFour((n: Node) => n.AgentNode?, w, x, y, z);
  }

  lemma {:induction false} OneParent(g: Graph, org: OrgConfig, agent: AgentConfig, guardrail: GuardrailConfig)
    requires g == OneTrader(org, agent, guardrail)
    ensures FleetParents(g, g.edges, "a") == 1
  {
    assert g.nodes[1] in g.nodes && forall n :: n in g.nodes && n.FleetNode? ==> n.id == "f";
    ParentsAdd(g, [], g.edges[0], "a");
    ParentsAdd(g, [g.edges[0]], g.edges[1], "a");
    ParentsAdd(g, [g.edges[0], g.edges[1]], g.edges[2], "a");
    assert [] + [g.edges[0]] == [g.edges[0]] && [g.edges[0]] + [g.edges[1]] == [g.edges[0], g.edges[1]] && [g.edges[0], g.edges[1]] + [g.edges[2]] == g.edges;
  }

  lemma TraderIsGuarded(g: Graph, org: OrgConfig, agent: AgentConfig, guardrail: GuardrailConfig)
    requires g == OneTrader(org, agent, guardrail) && guardrail.kind == "cspr-trade"
    ensures HasTradeGuardrail(g, "a")
  {
    assert g.edges[2] in g.edges && LastHolder(g.nodes, 3, g.edges[2].to);
    TradersAreGuarded(g, "a");
  }

  lemma OnlyTheCapMayFail(g: Graph, org: OrgConfig, agent: AgentConfig, guardrail: GuardrailConfig, e: GraphError)
    requires g == OneTrader(org, agent, guardrail) && GoodGraph(g) && guardrail.kind == "cspr-trade"
    requires GoodNode(OrgNode("o", org)) && GoodNode(AgentNode("a", agent))
    ensures Violated(g, e) ==> Value(agent.subCap) > Value(org.perAgentMax)
  {
    OneOfEach(g);
    if e.NotUnderOneFleet? { OneParent(g, org, agent, guardrail); }
    if e.TraderWithoutGuardrail? { TraderIsGuarded(g, org, agent, guardrail); }
    assert g.edges[0] in g.edges;
  }

  /** Validation accepts that graph if and only if the trader's cap is within the ceiling's maximum for one agent. */
  lemma OneTraderIsValid(org: OrgConfig, agent: AgentConfig, guardrail: GuardrailConfig)
    requires GoodNode(OrgNode("o", org)) && GoodNode(AgentNode("a", agent)) && GoodNode(GuardrailNode("g", guardrail)) && guardrail.kind == "cspr-trade"
    ensures IsValid(OneTrader(org, agent, guardrail)) <==> Value(agent.subCap) <= Value(org.perAgentMax)
  {
    var g := OneTrader(org, agent, guardrail);
    assert GoodGraph(g);
    forall e ensures Violated(g, e) ==> Value(agent.subCap) > Value(org.perAgentMax) { OnlyTheCapMayFail(g, org, agent, guardrail, e); }
    if Value(agent.subCap) > Value(org.perAgentMax) {
      OneOfEach(g);
      assert Violated(g, SubCapExceeds("a", Value(agent.subCap), Value(org.perAgentMax)));
    }
  }
}
