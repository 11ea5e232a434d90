/** The engine's component model: the condensation of a stored plan and its execution order. */
module ComponentModel {
  import opened Graphs
  import opened Ordering
  import opened Tarjan
  import opened Compiler
  import opened Kahn

  datatype Component = Component(nodes: seq<NodeId>, incoming: seq<nat>, predecessors: seq<nat>, cyclic: bool,
                                 maxIterations: int)

  datatype Model = Model(nodes: map<NodeId, PlanNode>, outgoing: map<NodeId, seq<nat>>,
                         componentByNode: map<NodeId, nat>,
                         components: seq<Component>, order: seq<nat>)

  datatype BuildError = UnknownComponentNode(id: NodeId) | UnknownEdgeNode(edge: nat) | CyclicComponentGraph

  datatype BuildResult = Built(model: Model) | Rejected(error: BuildError)

  // ---------------------------------------------------------------- grouping

  ghost predicate DistinctPlanIds(nodes: seq<PlanNode>) {
    forall i, j :: 0 <= i < j < |nodes| ==> nodes[i].id != nodes[j].id
  }

  /** The stored components are non-empty and share no node; a plan node may be in none of them. */
  ghost predicate ValidPartition(plan: Plan) {
    && DistinctPlanIds(plan.nodes)
    && Disjoint(plan.components)
    && forall c :: c in plan.components ==> c != [] && NoDuplicates(c)
  }

  ghost function PlanIds(plan: Plan): set<NodeId> {
    set n | n in plan.nodes :: n.id
  }

  /** Every component member and every edge endpoint is a node of the plan. */
  ghost predicate KnownNodes(plan: Plan) {
    && Union(plan.components) <= PlanIds(plan)
    && forall e :: e in plan.edges ==> e.from in PlanIds(plan) && e.to in PlanIds(plan)
  }

  /** Groups of node names in component order, with the component number of each node. */
  ghost predicate Grouped(groups: seq<seq<NodeId>>, byNode: map<NodeId, nat>) {
    && (forall k :: 0 <= k < |groups| ==> groups[k] != [] && NoDuplicates(groups[k]) && Sorted(StrLess, groups[k]))
    && (forall id :: id in byNode ==> byNode[id] < |groups| && id in groups[byNode[id]])
    && (forall k, id :: 0 <= k < |groups| && id in groups[k] ==> id in byNode && byNode[id] == k)
  }

  function Outgoing(outgoing: map<NodeId, seq<nat>>, id: NodeId): seq<nat> {
    if id in outgoing then outgoing[id] else []
  }

  // ---------------------------------------------------------------- the model of a plan

  ghost predicate Increasing(s: seq<nat>) {
    forall i, j :: 0 <= i < j < |s| ==> s[i] < s[j]
  }

  ghost predicate Endpoints(edges: seq<FlowEdge>, byNode: map<NodeId, nat>, upto: nat) {
    upto <= |edges| && forall i :: 0 <= i < upto ==> edges[i].from in byNode && edges[i].to in byNode
  }

  /** The condensation: pairs of different components joined by an edge. */
  ghost function Condensation(edges: seq<FlowEdge>, byNode: map<NodeId, nat>, upto: nat): set<(nat, nat)>
    requires Endpoints(edges, byNode, upto)
  {
    set i | 0 <= i < upto && byNode[edges[i].from] != byNode[edges[i].to] ::
        (byNode[edges[i].from], byNode[edges[i].to])
  }

  ghost predicate Crosses(edges: seq<FlowEdge>, byNode: map<NodeId, nat>, i: nat, k: nat)
    requires i < |edges| && edges[i].from in byNode && edges[i].to in byNode
  {
    byNode[edges[i].to] == k && byNode[edges[i].from] != k
  }

  ghost predicate Inside(edges: seq<FlowEdge>, byNode: map<NodeId, nat>, i: nat, k: nat)
    requires i < |edges| && edges[i].from in byNode && edges[i].to in byNode
  {
    byNode[edges[i].to] == k && byNode[edges[i].from] == k
  }

  ghost predicate IncomingOf(edges: seq<FlowEdge>, byNode: map<NodeId, nat>, upto: nat, k: nat, incoming: seq<nat>)
    requires Endpoints(edges, byNode, upto)
  {
    Increasing(incoming) && forall i: nat :: i in incoming <==> i < upto && Crosses(edges, byNode, i, k)
  }

  ghost predicate PredecessorsOf(condensation: set<(nat, nat)>, k: nat, predecessors: seq<nat>) {
    NoDuplicates(predecessors) && forall p: nat :: p in predecessors <==> (p, k) in condensation
  }

  ghost predicate CyclicOf(edges: seq<FlowEdge>, byNode: map<NodeId, nat>, upto: nat, k: nat, cyclic: bool)
    requires Endpoints(edges, byNode, upto)
  {
    cyclic <==> exists i :: 0 <= i < upto && Inside(edges, byNode, i, k)
  }

  /** The cap is the largest loop policy among the members, and at least one. */
  ghost predicate IterationCap(nodes: map<NodeId, PlanNode>, members: seq<NodeId>, cap: int) {
    && cap >= 1
    && (forall id :: id in members ==> id in nodes && nodes[id].loopMaxIterations <= cap)
    && (cap == 1 || exists id :: id in members && id in nodes && nodes[id].loopMaxIterations == cap)
  }

  ghost predicate Leaves(edges: seq<FlowEdge>, upto: nat, i: nat, id: NodeId) {
    i < upto <= |edges| && edges[i].from == id
  }

  ghost predicate InEdgeOrder(edges: seq<FlowEdge>, a: nat, b: nat) {
    a < |edges| && b < |edges| && !EdgeLess(edges[b], edges[a])
  }

  /** The edges leaving a node, ordered by target and condition. */
  ghost predicate OutgoingOf(edges: seq<FlowEdge>, id: NodeId, outgoing: seq<nat>) {
    && NoDuplicates(outgoing)
    && (forall i: nat :: i in outgoing <==> Leaves(edges, |edges|, i, id))
    && (forall i, j :: 0 <= i < j < |outgoing| ==> InEdgeOrder(edges, outgoing[i], outgoing[j]))
  }

  ghost predicate NodesOf(plan: Plan, nodes: map<NodeId, PlanNode>) {
    && nodes.Keys == PlanIds(plan)
    && forall n :: n in plan.nodes ==> nodes[n.id] == n
  }

  ghost predicate CoversPlan(plan: Plan, groups: seq<seq<NodeId>>) {
    && Union(groups) == PlanIds(plan) + Union(plan.components)
    && |plan.components| <= |groups|
    && (forall k :: 0 <= k < |plan.components| ==> multiset(groups[k]) == multiset(plan.components[k]))
    && (forall k :: |plan.components| <= k < |groups| ==> |groups[k]| == 1)
  }

  function GroupsOf(components: seq<Component>): (groups: seq<seq<NodeId>>)
    ensures |groups| == |components| && forall k :: 0 <= k < |groups| ==> groups[k] == components[k].nodes
  {
    seq(|components|, k requires 0 <= k < |components| => components[k].nodes)
  }

  function HeadsOf(groups: seq<seq<NodeId>>): (heads: seq<NodeId>)
    requires forall k :: 0 <= k < |groups| ==> groups[k] != []
    ensures |heads| == |groups| && forall k :: 0 <= k < |groups| ==> heads[k] == groups[k][0]
  {
    seq(|groups|, k requires 0 <= k < |groups| => groups[k][0])
  }

  ghost predicate ComponentLinked(edges: seq<FlowEdge>, byNode: map<NodeId, nat>, upto: nat, k: nat, c: Component)
    requires Endpoints(edges, byNode, upto)
  {
    && IncomingOf(edges, byNode, upto, k, c.incoming)
    && PredecessorsOf(Condensation(edges, byNode, upto), k, c.predecessors)
    && CyclicOf(edges, byNode, upto, k, c.cyclic)
  }

  ghost predicate ComponentsLinked(edges: seq<FlowEdge>, byNode: map<NodeId, nat>, upto: nat,
                                   components: seq<Component>)
    requires Endpoints(edges, byNode, upto)
  {
    forall k :: 0 <= k < |components| ==> ComponentLinked(edges, byNode, upto, k, components[k])
  }

  /** Everything the scheduler relies on. */
  ghost predicate IsModelOf(plan: Plan, m: Model) {
    && NodesOf(plan, m.nodes)
    && Grouped(GroupsOf(m.components), m.componentByNode) && CoversPlan(plan, GroupsOf(m.components))
    && Endpoints(plan.edges, m.componentByNode, |plan.edges|)
    && ComponentsLinked(plan.edges, m.componentByNode, |plan.edges|, m.components)
    && (forall k :: 0 <= k < |m.components| ==>
          IterationCap(m.nodes, m.components[k].nodes, m.components[k].maxIterations))
    && (forall id :: OutgoingOf(plan.edges, id, Outgoing(m.outgoing, id)))
    && (NoDuplicates(m.order) && |m.order| == |m.components| && forall c :: c in m.order ==> c < |m.components|)
    && Topological(Condensation(plan.edges, m.componentByNode, |plan.edges|), m.order)
    && LeastReadyFirst(Condensation(plan.edges, m.componentByNode, |plan.edges|), HeadsOf(GroupsOf(m.components)),
          m.order)
  }

  // ---------------------------------------------------------------- building it

  method IndexNodes(plan: Plan) returns (nodes: map<NodeId, PlanNode>)
    requires DistinctPlanIds(plan.nodes)
    ensures NodesOf(plan, nodes)
  {
    nodes := map[];
    for i := 0 to |plan.nodes|
      invariant nodes.Keys == set n | n in plan.nodes[..i] :: n.id
      invariant forall k :: 0 <= k < i ==> plan.nodes[k].id in nodes && nodes[plan.nodes[k].id] == plan.nodes[k]
    {
      assert plan.nodes[..i + 1] == plan.nodes[..i] + [plan.nodes[i]];
      nodes := nodes[plan.nodes[i].id := plan.nodes[i]];
    }
    assert plan.nodes[..|plan.nodes|] == plan.nodes;
  }

  /** The stored components, followed by a singleton for each node they do not cover. */
  method GatherGroups(plan: Plan) returns (groups: seq<seq<NodeId>>)
    requires ValidPartition(plan)
    ensures CoversPlan(plan, groups) && Disjoint(groups)
    ensures forall g :: g in groups ==> g != [] && NoDuplicates(g)
  {
    groups := plan.components;
    var covered := set c, id | c in plan.components && id in c :: id;
    for i := 0 to |plan.nodes|
      invariant plan.components <= groups && Disjoint(groups)
      invariant forall g :: g in groups ==> g != [] && NoDuplicates(g)
      invariant forall k :: |plan.components| <= k < |groups| ==> |groups[k]| == 1
      invariant Union(groups) == (set n | n in plan.nodes[..i] :: n.id) + covered
    {
      var id := plan.nodes[i].id;
      assert plan.nodes[..i + 1] == plan.nodes[..i] + [plan.nodes[i]];
      if id !in covered {
        assert id !in Union(groups);
        AddSingleton(groups, id);
        groups := groups + [[id]];
      }
    }
    assert plan.nodes[..|plan.nodes|] == plan.nodes;
  }

  lemma AddSingleton(groups: seq<seq<NodeId>>, id: NodeId)
    requires Disjoint(groups) && id !in Union(groups)
    ensures Disjoint(groups + [[id]]) && Union(groups + [[id]]) == Union(groups) + {id}
  {
    var all := groups + [[id]];
    assert all[|groups|] == [id] && [id] in all;
    forall x | x in Union(all) ensures x in Union(groups) + {id} {
      var c :| c in all && x in c;
      assert c in groups || c == [id];
    }
    forall x | x in Union(groups) + {id} ensures x in Union(all) {
      if x != id {
        var c :| c in groups && x in c;
        assert c in all;
      } else {
        assert x in [id];
      }
    }
    forall i, j | 0 <= i < j < |all| ensures Members(all[i]) !! Members(all[j]) {
      if j == |groups| {
        assert groups[i] in groups;
      }
    }
  }

  /** Sorts each group, numbers its members and computes its iteration cap; fails on an unknown member. */
  method NumberGroups(nodes: map<NodeId, PlanNode>, groups: seq<seq<NodeId>>)
    returns (components: seq<Component>, byNode: map<NodeId, nat>, unknown: Option<NodeId>)
    requires Disjoint(groups) && forall g :: g in groups ==> g != [] && NoDuplicates(g)
    ensures unknown.Some? <==> !(Union(groups) <= nodes.Keys)
    ensures unknown.Some? ==> unknown.value in Union(groups) && unknown.value !in nodes
    ensures unknown.None? ==>
              && |components| == |groups| && Grouped(GroupsOf(components), byNode) && byNode.Keys == Union(groups)
              && (forall k :: 0 <= k < |groups| ==> multiset(components[k].nodes) == multiset(groups[k]))
              && (forall k :: 0 <= k < |groups| ==>
                    Fresh(components[k]) && IterationCap(nodes, components[k].nodes, components[k].maxIterations))
  {
    hide IterationCap, Grouped, Numbered, Disjoint, NoDuplicates, StrLess, Sorted;
    components, byNode, unknown := [], map[], None;
    NothingGrouped();
    for k := 0 to |groups|
      invariant unknown.None? && |components| == k
      invariant Grouped(GroupsOf(components), byNode) && byNode.Keys == Union(groups[..k]) <= nodes.Keys
      invariant forall j :: 0 <= j < k ==> multiset(components[j].nodes) == multiset(groups[j])
      invariant forall j :: 0 <= j < k ==>
                  Fresh(components[j]) && IterationCap(nodes, components[j].nodes, components[j].maxIterations)
    {
      assert groups[k] in groups;
      UnionStep(groups, k);
      var members, cap, byNode', missing := NumberGroup(nodes, groups[k], byNode, k);
      if missing.Some? {
        return components, byNode, missing;
      }
      GroupedStep(groups, k, components, byNode, members, byNode');
      byNode := byNode';
      components := components + [Component(members, [], [], false, cap)];
    }
    assert groups[..|groups|] == groups;
  }

  predicate Fresh(c: Component) {
    c.incoming == [] && c.predecessors == [] && !c.cyclic
  }

  /** `byNode` extended with every member of one group. */
  ghost predicate Numbered(byNode: map<NodeId, nat>, members: seq<NodeId>, k: nat, byNode': map<NodeId, nat>) {
    && byNode'.Keys == byNode.Keys + Members(members)
    && forall id :: id in byNode' ==> byNode'[id] == if id in members then k else byNode[id]
  }

  method NumberGroup(nodes: map<NodeId, PlanNode>, group: seq<NodeId>, byNode0: map<NodeId, nat>, k: nat)
    returns (members: seq<NodeId>, cap: int, byNode: map<NodeId, nat>, missing: Option<NodeId>)
    requires group != [] && NoDuplicates(group)
    ensures missing.Some? <==> exists id :: id in group && id !in nodes
    ensures missing.Some? ==> missing.value in group && missing.value !in nodes
    ensures missing.None? ==> multiset(members) == multiset(group) && members != [] && NoDuplicates(members)
    ensures missing.None? ==> Sorted(StrLess, members) && IterationCap(nodes, members, cap)
    ensures missing.None? ==> Numbered(byNode0, members, k, byNode)
  {
    StrLessIsTotalOrder();
    members := Sort(StrLess, group);
    PermutationFacts(group, members);
    hide StrLess, Sorted, StrictWeakOrder, TiesAreEqual, NoDuplicates;
    cap, byNode, missing := NumberMembers(nodes, members, byNode0, k);
  }

  method NumberMembers(nodes: map<NodeId, PlanNode>, members: seq<NodeId>, byNode0: map<NodeId, nat>, k: nat)
    returns (cap: int, byNode: map<NodeId, nat>, missing: Option<NodeId>)
    ensures missing.Some? <==> exists id :: id in members && id !in nodes
    ensures missing.Some? ==> missing.value in members && missing.value !in nodes
    ensures missing.None? ==> IterationCap(nodes, members, cap) && Numbered(byNode0, members, k, byNode)
  {
    cap, byNode, missing := 1, byNode0, None;
    for i := 0 to |members|
      invariant missing.None? && IterationCap(nodes, members[..i], cap)
      invariant Numbered(byNode0, members[..i], k, byNode)
    {
      if members[i] !in nodes {
        return cap, byNode, Some(members[i]);
      }
      assert members[..i + 1] == members[..i] + [members[i]];
      assert members[i] in members[..i + 1];
      byNode := byNode[members[i] := k];
      if nodes[members[i]].loopMaxIterations > cap {
        cap := nodes[members[i]].loopMaxIterations;
      }
    }
    assert members[..|members|] == members;
  }

  lemma UnionStep(groups: seq<seq<NodeId>>, k: nat)
    requires k < |groups|
    ensures Union(groups[..k + 1]) == Union(groups[..k]) + Members(groups[k])
    ensures Union(groups[..k + 1]) <= Union(groups)
  {
    assert groups[..k + 1] == groups[..k] + [groups[k]];
    assert forall c :: c in groups[..k + 1] ==> c in groups;
  }

  lemma GroupedStep(groups: seq<seq<NodeId>>, k: nat, components: seq<Component>, byNode: map<NodeId, nat>,
                    members: seq<NodeId>, byNode': map<NodeId, nat>)
    requires Disjoint(groups) && k < |groups| && |components| == k
    requires Grouped(GroupsOf(components), byNode) && byNode.Keys == Union(groups[..k])
    requires multiset(members) == multiset(groups[k]) && members != [] && NoDuplicates(members)
             && Sorted(StrLess, members)
    requires Numbered(byNode, members, k, byNode')
    ensures forall cap :: Grouped(GroupsOf(components + [Component(members, [], [], false, cap)]), byNode')
    ensures byNode'.Keys == byNode.Keys + Members(groups[k])
  {
    hide StrLess, Grouped, Numbered, NoDuplicates, Sorted;
    PermutationFacts(groups[k], members);
    forall id | id in members ensures id !in byNode {
      assert forall j :: 0 <= j < k && id in groups[j] ==> id in Members(groups[j]) && id in Members(groups[k]);
    }
    GroupedMore(GroupsOf(components), byNode, members, byNode');
    forall cap ensures Grouped(GroupsOf(components + [Component(members, [], [], false, cap)]), byNode') {
      assert GroupsOf(components + [Component(members, [], [], false, cap)]) == GroupsOf(components) + [members];
    }
  }

  lemma GroupedMore(groups: seq<seq<NodeId>>, byNode: map<NodeId, nat>, members: seq<NodeId>,
                    byNode': map<NodeId, nat>)
    requires Grouped(groups, byNode) && forall id :: id in members ==> id !in byNode
    requires members != [] && NoDuplicates(members) && Sorted(StrLess, members)
    requires Numbered(byNode, members, |groups|, byNode')
    ensures Grouped(groups + [members], byNode') && byNode'.Keys == byNode.Keys + Members(members)
  {
    hide StrLess, NoDuplicates, Sorted;
  }

  lemma GroupedNonempty(groups: seq<seq<NodeId>>, byNode: map<NodeId, nat>)
    requires Grouped(groups, byNode)
    ensures forall k :: 0 <= k < |groups| ==> groups[k] != []
  {
    hide StrLess;
  }

  lemma NothingGrouped()
    ensures Grouped(GroupsOf([]), map[])
  {
    hide StrLess;
  }

  /** The condensation's edges and both kinds of adjacency after the first `upto` plan edges. */
  ghost predicate Linked(edges: seq<FlowEdge>, byNode: map<NodeId, nat>, upto: nat, components: seq<Component>,
                         adjacency: map<nat, seq<nat>>, indegree: seq<int>)
    requires Endpoints(edges, byNode, upto)
  {
    var condensation := Condensation(edges, byNode, upto);
    && ComponentsLinked(edges, byNode, upto, components)
    && Adjacent(condensation, |components|, adjacency)
    && |indegree| == |components|
    && (forall k :: 0 <= k < |components| ==> indegree[k] == |components[k].predecessors|)
  }

  ghost predicate OutgoingLinked(edges: seq<FlowEdge>, upto: nat, outgoing: map<NodeId, seq<nat>>)
    requires upto <= |edges|
  {
    forall id, i: nat :: i in Outgoing(outgoing, id) <==> Leaves(edges, upto, i, id)
  }

  ghost predicate OutgoingIncreasing(outgoing: map<NodeId, seq<nat>>) {
    forall id :: Increasing(Outgoing(outgoing, id))
  }

  lemma CondensationStep(edges: seq<FlowEdge>, byNode: map<NodeId, nat>, i: nat)
    requires i < |edges| && Endpoints(edges, byNode, i + 1)
    ensures var from, to := byNode[edges[i].from], byNode[edges[i].to];
            Condensation(edges, byNode, i + 1) == Condensation(edges, byNode, i)
                + (if from == to then {} else {(from, to)})
  {
  }

  /** Only the component an edge ends in sees it. */
  lemma OtherComponents(edges: seq<FlowEdge>, byNode: map<NodeId, nat>, i: nat, k: nat, c: Component)
    requires i < |edges| && Endpoints(edges, byNode, i + 1) && byNode[edges[i].to] != k
    requires ComponentLinked(edges, byNode, i, k, c)
    ensures ComponentLinked(edges, byNode, i + 1, k, c)
  {
    CondensationStep(edges, byNode, i);
    hide Condensation;
  }

  lemma TargetComponent(edges: seq<FlowEdge>, byNode: map<NodeId, nat>, i: nat, c: Component)
    requires i < |edges| && Endpoints(edges, byNode, i + 1)
    requires ComponentLinked(edges, byNode, i, byNode[edges[i].to], c)
    ensures var from, to := byNode[edges[i].from], byNode[edges[i].to];
            ComponentLinked(edges, byNode, i + 1, to,
              if from == to then c.(cyclic := true)
              else c.(incoming := c.incoming + [i],
                      predecessors := if (from, to) in Condensation(edges, byNode, i) then c.predecessors
                          else c.predecessors + [from]))
  {
    CondensationStep(edges, byNode, i);
    var to := byNode[edges[i].to];
    assert Inside(edges, byNode, i, to) <==> byNode[edges[i].from] == to;
    assert forall j: nat :: j in c.incoming + [i] <==> j in c.incoming || j == i;
    assert forall a :: 0 <= a < |c.incoming| ==> c.incoming[a] in c.incoming;
    hide Condensation;
  }

  lemma AdjacencyGrows(condensation: set<(nat, nat)>, n: nat, adjacency: map<nat, seq<nat>>, from: nat, to: nat)
    requires Adjacent(condensation, n, adjacency) && from < n && to < n && (from, to) !in condensation
    ensures Adjacent(condensation + {(from, to)}, n, adjacency[from := Targets(adjacency, from) + [to]])
  {
    var grown := adjacency[from := Targets(adjacency, from) + [to]];
    assert to !in Targets(adjacency, from);
    assert forall p: nat :: p != from ==> Targets(grown, p) == Targets(adjacency, p);
    assert Targets(grown, from) == Targets(adjacency, from) + [to];
    hide Targets;
  }

  /** How one edge changes the component it ends in. */
  function Attach(c: Component, i: nat, from: nat, to: nat, known: bool): Component {
    if from == to then c.(cyclic := true)
    else c.(incoming := c.incoming + [i], predecessors := if known then c.predecessors else c.predecessors + [from])
  }

  lemma LinkedComponents(edges: seq<FlowEdge>, byNode: map<NodeId, nat>, i: nat, components: seq<Component>)
    requires i < |edges| && Endpoints(edges, byNode, i + 1) && byNode[edges[i].to] < |components|
    requires ComponentsLinked(edges, byNode, i, components)
    ensures var from, to := byNode[edges[i].from], byNode[edges[i].to];
            ComponentsLinked(edges, byNode, i + 1,
              components[to := Attach(components[to], i, from, to, (from, to) in Condensation(edges, byNode, i))])
  {
    hide Condensation, ComponentLinked;
    var to := byNode[edges[i].to];
    TargetComponent(edges, byNode, i, components[to]);
    forall k | 0 <= k < |components| && k != to ensures ComponentLinked(edges, byNode, i + 1, k, components[k]) {
      OtherComponents(edges, byNode, i, k, components[k]);
    }
  }

  lemma LinkedStep(edges: seq<FlowEdge>, byNode: map<NodeId, nat>, i: nat, components: seq<Component>,
                   adjacency: map<nat, seq<nat>>, indegree: seq<int>)
    requires i < |edges| && Endpoints(edges, byNode, i + 1)
    requires byNode[edges[i].from] < |components| && byNode[edges[i].to] < |components|
    requires Linked(edges, byNode, i, components, adjacency, indegree)
    ensures var from, to := byNode[edges[i].from], byNode[edges[i].to];
            var known := from == to || (from, to) in Condensation(edges, byNode, i);
            Linked(edges, byNode, i + 1, components[to := Attach(components[to], i, from, to, known)],
                   if known then adjacency else adjacency[from := Targets(adjacency, from) + [to]],
                   if known then indegree else indegree[to := indegree[to] + 1])
  {
    var from, to := byNode[edges[i].from], byNode[edges[i].to];
    LinkedComponents(edges, byNode, i, components);
    CondensationStep(edges, byNode, i);
    hide Condensation, ComponentsLinked, Adjacent;
    var seen := Condensation(edges, byNode, i);
    if from == to || (from, to) in seen {
      assert seen + {(from, to)} == seen || from == to;
      assert Condensation(edges, byNode, i + 1) == seen;
    } else {
      AdjacencyGrows(seen, |components|, adjacency, from, to);
    }
  }

  method LinkEdge(edges: seq<FlowEdge>, byNode: map<NodeId, nat>, i: nat, components: seq<Component>,
                  adjacency: map<nat, seq<nat>>, indegree: seq<int>, seen: set<(nat, nat)>)
    returns (components': seq<Component>, adjacency': map<nat, seq<nat>>, indegree': seq<int>, seen': set<(nat, nat)>)
    requires i < |edges| && Endpoints(edges, byNode, i + 1) && Grouped(GroupsOf(components), byNode)
    requires |indegree| == |components|
    requires Linked(edges, byNode, i, components, adjacency, indegree) && seen == Condensation(edges, byNode, i)
    ensures SameGroups(components, components') && |indegree'| == |indegree|
    ensures Linked(edges, byNode, i + 1, components', adjacency', indegree')
            && seen' == Condensation(edges, byNode, i + 1)
  {
    hide Condensation, Grouped, Linked;
    SameComponentEdge(edges, byNode, i, components);
    LinkedStep(edges, byNode, i, components, adjacency, indegree);
    CondensationStep(edges, byNode, i);
    var from, to := byNode[edges[i].from], byNode[edges[i].to];
    components', adjacency', indegree', seen' := components, adjacency, indegree, seen;
    var c := components[to];
    if from == to {
      components' := components[from := c.(cyclic := c.cyclic || |c.nodes| > 1 || edges[i].from == edges[i].to)];
    } else {
      components' := components[to := c.(incoming := c.incoming + [i])];
      if (from, to) !in seen {
        seen' := seen + {(from, to)};
        adjacency' := adjacency[from := Targets(adjacency, from) + [to]];
        components' := components'[to := components'[to].(predecessors := c.predecessors + [from])];
        indegree' := indegree[to := indegree[to] + 1];
      }
    }
    assert components' == components[to := components'[to]];
  }

  ghost predicate SameGroups(before: seq<Component>, after: seq<Component>) {
    && |after| == |before|
    && forall k :: 0 <= k < |before| ==>
        after[k].nodes == before[k].nodes && after[k].maxIterations == before[k].maxIterations
  }

  /** An edge inside a component either joins two of its members or is a self edge. */
  lemma SameComponentEdge(edges: seq<FlowEdge>, byNode: map<NodeId, nat>, i: nat, components: seq<Component>)
    requires i < |edges| && Endpoints(edges, byNode, i + 1) && Grouped(GroupsOf(components), byNode)
    ensures byNode[edges[i].from] < |components| && byNode[edges[i].to] < |components|
    ensures byNode[edges[i].from] == byNode[edges[i].to] ==>
              |components[byNode[edges[i].to]].nodes| > 1 || edges[i].from == edges[i].to
  {
    assert edges[i].from in GroupsOf(components)[byNode[edges[i].from]];
    assert edges[i].to in GroupsOf(components)[byNode[edges[i].to]];
  }

  /** Indexes every edge: who it leaves, which component it enters, and the component graph it induces. */
  method LinkEdges(edges: seq<FlowEdge>, byNode: map<NodeId, nat>, components0: seq<Component>)
    returns (components: seq<Component>, outgoing: map<NodeId, seq<nat>>, adjacency: map<nat, seq<nat>>,
        indegree: seq<int>, unknown: Option<nat>)
    requires Grouped(GroupsOf(components0), byNode)
    requires forall k :: 0 <= k < |components0| ==> Fresh(components0[k])
    ensures SameGroups(components0, components)
    ensures unknown.None? <==> Endpoints(edges, byNode, |edges|)
    ensures unknown.Some? ==>
              unknown.value < |edges| && !(edges[unknown.value].from in byNode && edges[unknown.value].to in byNode)
    ensures unknown.None? ==> Linked(edges, byNode, |edges|, components, adjacency, indegree)
    ensures unknown.None? ==> OutgoingLinked(edges, |edges|, outgoing) && OutgoingIncreasing(outgoing)
  {
    hide Linked, Grouped, OutgoingLinked, OutgoingIncreasing, Condensation;
    components, outgoing, adjacency, unknown := components0, map[], map[], None;
    indegree := seq(|components|, _ => 0);
    var seen := {};
    NothingLinked(edges, byNode, components, indegree);
    for i := 0 to |edges|
      invariant unknown.None? && Endpoints(edges, byNode, i) && SameGroups(components0, components)
                && |indegree| == |components|
      invariant Linked(edges, byNode, i, components, adjacency, indegree) && seen == Condensation(edges, byNode, i)
      invariant OutgoingLinked(edges, i, outgoing) && OutgoingIncreasing(outgoing)
    {
      if edges[i].from !in byNode || edges[i].to !in byNode {
        return components, outgoing, adjacency, indegree, Some(i);
      }
      OutgoingGrows(edges, i, outgoing);
      outgoing := outgoing[edges[i].from := Outgoing(outgoing, edges[i].from) + [i]];
      assert GroupsOf(components) == GroupsOf(components0);
      components, adjacency, indegree, seen := LinkEdge(edges, byNode, i, components, adjacency, indegree, seen);
    }
  }

  lemma NothingLinked(edges: seq<FlowEdge>, byNode: map<NodeId, nat>, components: seq<Component>, indegree: seq<int>)
    requires forall k :: 0 <= k < |components| ==> Fresh(components[k])
    requires |indegree| == |components| && forall k :: 0 <= k < |indegree| ==> indegree[k] == 0
    ensures Linked(edges, byNode, 0, components, map[], indegree) && Condensation(edges, byNode, 0) == {}
    ensures OutgoingLinked(edges, 0, map[]) && OutgoingIncreasing(map[])
  {
    assert forall id :: Outgoing(map[], id) == [];
  }

  lemma OutgoingGrows(edges: seq<FlowEdge>, i: nat, outgoing: map<NodeId, seq<nat>>)
    requires i < |edges| && OutgoingLinked(edges, i, outgoing) && OutgoingIncreasing(outgoing)
    ensures var grown := outgoing[edges[i].from := Outgoing(outgoing, edges[i].from) + [i]];
            OutgoingLinked(edges, i + 1, grown) && OutgoingIncreasing(grown)
  {
    var from := edges[i].from;
    var grown := outgoing[from := Outgoing(outgoing, from) + [i]];
    assert forall id :: id != from ==> Outgoing(grown, id) == Outgoing(outgoing, id);
    var list := Outgoing(outgoing, from);
    assert Increasing(list);
    forall a | 0 <= a < |list| ensures list[a] < i {
      var x := list[a];
      assert x in list;
    }
    assert Increasing(list + [i]);
    forall id, j: nat ensures j in Outgoing(grown, id) <==> Leaves(edges, i + 1, j, id) {
      assert j in Outgoing(outgoing, id) <==> Leaves(edges, i, j, id);
    }
  }

  function EdgeAt(edges: seq<FlowEdge>, i: nat): FlowEdge {
    if i < |edges| then edges[i] else FlowEdge("", "", "")
  }

  function ByEdge(edges: seq<FlowEdge>): (nat, nat) -> bool {
    (a: nat, b: nat) => EdgeLess(EdgeAt(edges, a), EdgeAt(edges, b))
  }

  lemma ByEdgeIsOrder(edges: seq<FlowEdge>)
    ensures StrictWeakOrder(ByEdge(edges))
  {
    EdgeLessIsOrder();
    hide EdgeLess;
  }

  method SortOutgoing(edges: seq<FlowEdge>, outgoing: map<NodeId, seq<nat>>) returns (sorted: map<NodeId, seq<nat>>)
    requires OutgoingLinked(edges, |edges|, outgoing) && OutgoingIncreasing(outgoing)
    ensures forall id :: OutgoingOf(edges, id, Outgoing(sorted, id))
  {
    var left := outgoing.Keys;
    sorted := map[];
    while left != {}
      invariant left <= outgoing.Keys && sorted.Keys == outgoing.Keys - left
      invariant forall id :: id in sorted ==> OutgoingOf(edges, id, sorted[id])
      decreases left
    {
      var id :| id in left;
      var list := SortList(edges, id, outgoing);
      sorted := sorted[id := list];
      left := left - {id};
    }
    assert forall id :: id !in outgoing ==> Outgoing(outgoing, id) == [];
  }

  method SortList(edges: seq<FlowEdge>, id: NodeId, outgoing: map<NodeId, seq<nat>>) returns (list: seq<nat>)
    requires OutgoingLinked(edges, |edges|, outgoing) && OutgoingIncreasing(outgoing)
    ensures OutgoingOf(edges, id, list)
  {
    ByEdgeIsOrder(edges);
    var unsorted := Outgoing(outgoing, id);
    assert Increasing(unsorted) && NoDuplicates(unsorted);
    list := Sort(ByEdge(edges), unsorted);
    PermutationFacts(unsorted, list);
    hide EdgeLess;
    forall a: nat ensures a in list <==> Leaves(edges, |edges|, a, id) {
      assert a in unsorted <==> a in Outgoing(outgoing, id);
    }
    forall a, b | 0 <= a < b < |list| ensures InEdgeOrder(edges, list[a], list[b]) {
      var x, y := list[a], list[b];
      assert x in list && y in list;
      assert !ByEdge(edges)(y, x);
      assert ByEdge(edges)(y, x) == EdgeLess(EdgeAt(edges, y), EdgeAt(edges, x));
    }
  }

  /** Predecessor lists are put in component-name order. */
  method SortPredecessors(heads: seq<NodeId>, components0: seq<Component>) returns (components: seq<Component>)
    requires forall k :: 0 <= k < |components0| ==> NoDuplicates(components0[k].predecessors)
    ensures SameGroups(components0, components)
    ensures forall k :: 0 <= k < |components| ==>
              && components[k].incoming == components0[k].incoming && components[k].cyclic == components0[k].cyclic
              && NoDuplicates(components[k].predecessors) && HeadSorted(heads, components[k].predecessors)
              && Elements(components[k].predecessors) == Elements(components0[k].predecessors)
  {
    hide HeadSorted, NoDuplicates, Elements;
    components := components0;
    for k := 0 to |components|
      invariant SameGroups(components0, components)
      invariant forall j :: 0 <= j < |components| ==>
                  components[j].incoming == components0[j].incoming && components[j].cyclic == components0[j].cyclic
      invariant forall j :: k <= j < |components| ==> components[j] == components0[j]
      invariant forall j :: 0 <= j < k ==>
              && NoDuplicates(components[j].predecessors) && HeadSorted(heads, components[j].predecessors)
              && Elements(components[j].predecessors) == Elements(components0[j].predecessors)
    {
      var predecessors := SortReady(heads, components[k].predecessors);
      components := components[k := components[k].(predecessors := predecessors)];
    }
  }

  lemma IndegreeIsPending(edges: set<(nat, nat)>, k: nat, predecessors: seq<nat>)
    requires PredecessorsOf(edges, k, predecessors)
    ensures |predecessors| == |Pending(edges, {}, k)|
  {
    DistinctCount(predecessors);
    assert Elements(predecessors) == Pending(edges, {}, k);
  }

  /** Two nodes belong together when they are the same or some stored component holds both. */
  ghost predicate Together(plan: Plan, u: NodeId, v: NodeId) {
    u == v || exists c :: c in plan.components && u in c && v in c
  }

  /** A numbering of the plan's nodes by component. */
  ghost predicate Numbers(plan: Plan, byNode: map<NodeId, nat>) {
    && byNode.Keys == PlanIds(plan)
    && forall u, v :: u in byNode && v in byNode ==> (byNode[u] == byNode[v] <==> Together(plan, u, v))
  }

  lemma GroupsNumber(plan: Plan, groups: seq<seq<NodeId>>, byNode: map<NodeId, nat>)
    requires ValidPartition(plan) && Grouped(groups, byNode) && CoversPlan(plan, groups)
    requires Union(groups) == PlanIds(plan) == byNode.Keys
    ensures Numbers(plan, byNode)
  {
    hide StrLess, Sorted, NoDuplicates, Disjoint, DistinctPlanIds, Union, PlanIds;
    forall u, v | u in byNode && v in byNode ensures byNode[u] == byNode[v] <==> Together(plan, u, v) {
      var k := byNode[u];
      if k == byNode[v] && k < |plan.components| {
        PermutationFacts(groups[k], plan.components[k]);
        assert plan.components[k] in plan.components;
      }
      if u != v && Together(plan, u, v) {
        var c :| c in plan.components && u in c && v in c;
        var j :| 0 <= j < |plan.components| && plan.components[j] == c;
        PermutationFacts(groups[j], plan.components[j]);
      }
    }
  }

  method OrderComponents(plan: Plan, byNode: map<NodeId, nat>, components: seq<Component>,
                         adjacency: map<nat, seq<nat>>, indegree: seq<int>)
    returns (order: seq<nat>)
    requires Endpoints(plan.edges, byNode, |plan.edges|) && Grouped(GroupsOf(components), byNode)
    requires Linked(plan.edges, byNode, |plan.edges|, components, adjacency, indegree)
    ensures NoDuplicates(order) && forall c :: c in order ==> c < |components|
    ensures var condensation := Condensation(plan.edges, byNode, |plan.edges|);
            && Topological(condensation, order) && LeastReadyFirst(condensation, HeadsOf(GroupsOf(components)), order)
            && (|order| == |components| <==> !HasCycle(condensation))
  {
    ghost var condensation := Condensation(plan.edges, byNode, |plan.edges|);
    hide StrLess, Topological, LeastReadyFirst, HasCycle, Condensation;
    forall k | 0 <= k < |components| ensures indegree[k] == |Pending(condensation, {}, k)| {
      IndegreeIsPending(condensation, k, components[k].predecessors);
    }
    order := KahnOrder(|components|, condensation, adjacency, indegree, HeadsOf(GroupsOf(components)));
  }

  /** Rebuilds the condensation of a stored plan and orders it. */
  method BuildComponentModel(plan: Plan) returns (r: BuildResult, ghost byNode: map<NodeId, nat>)
    requires ValidPartition(plan)
    ensures r.Built? ==> IsModelOf(plan, r.model) && r.model.componentByNode == byNode
    ensures r.Rejected? && !r.error.CyclicComponentGraph? <==> !KnownNodes(plan)
    ensures KnownNodes(plan) ==>
              && Numbers(plan, byNode) && Endpoints(plan.edges, byNode, |plan.edges|)
              && (r.Rejected? <==> HasCycle(Condensation(plan.edges, byNode, |plan.edges|)))
  {
    hide StrLess, Topological, LeastReadyFirst, HasCycle, Condensation, Linked, Grouped, Disjoint, OutgoingLinked,
         OutgoingIncreasing, IterationCap, OutgoingOf;
    var nodes := IndexNodes(plan);
    var groups := GatherGroups(plan);
    var numbered, numbers, missing := NumberGroups(nodes, groups);
    byNode := numbers;
    if missing.Some? {
      return Rejected(UnknownComponentNode(missing.value)), byNode;
    }
    var linked, outgoing, adjacency, indegree, unknown := LinkEdges(plan.edges, numbers, numbered);
    if unknown.Some? {
      return Rejected(UnknownEdgeNode(unknown.value)), byNode;
    }
    assert GroupsOf(linked) == GroupsOf(numbered);
    CoversSorted(plan, groups, GroupsOf(linked));
    GroupsNumber(plan, GroupsOf(linked), byNode);
    LinkedDistinct(plan.edges, byNode, linked, adjacency, indegree);
    GroupedNonempty(GroupsOf(linked), byNode);
    var components := SortPredecessors(HeadsOf(GroupsOf(linked)), linked);
    var sortedOutgoing := SortOutgoing(plan.edges, outgoing);
    var order := OrderComponents(plan, numbers, linked, adjacency, indegree);
    if |order| != |components| {
      return Rejected(CyclicComponentGraph), byNode;
    }
    PredecessorsSorted(plan.edges, byNode, linked, components, adjacency, indegree);
    assert GroupsOf(components) == GroupsOf(linked);
    r := Built(Model(nodes, sortedOutgoing, numbers, components, order));
  }

  lemma LinkedDistinct(edges: seq<FlowEdge>, byNode: map<NodeId, nat>, linked: seq<Component>,
                       adjacency: map<nat, seq<nat>>, indegree: seq<int>)
    requires Endpoints(edges, byNode, |edges|) && Linked(edges, byNode, |edges|, linked, adjacency, indegree)
    ensures forall k :: 0 <= k < |linked| ==> NoDuplicates(linked[k].predecessors)
  {
    hide Condensation, IncomingOf, CyclicOf, Adjacent, NoDuplicates;
    forall k | 0 <= k < |linked| ensures NoDuplicates(linked[k].predecessors) {
      assert ComponentLinked(edges, byNode, |edges|, k, linked[k]);
    }
  }

  lemma CoversSorted(plan: Plan, groups: seq<seq<NodeId>>, sorted: seq<seq<NodeId>>)
    requires CoversPlan(plan, groups) && |sorted| == |groups|
    requires forall k :: 0 <= k < |groups| ==> multiset(sorted[k]) == multiset(groups[k])
    ensures CoversPlan(plan, sorted)
  {
    forall k | 0 <= k < |groups| ensures Members(sorted[k]) == Members(groups[k]) && |sorted[k]| == |groups[k]| {
      PermutationFacts(sorted[k], groups[k]);
    }
    forall x ensures x in Union(sorted) <==> x in Union(groups) {
      if x in Union(sorted) {
        var c :| c in sorted && x in c;
        var k :| 0 <= k < |sorted| && sorted[k] == c;
        assert groups[k] in groups && x in Members(groups[k]);
      }
      if x in Union(groups) {
        var c :| c in groups && x in c;
        var k :| 0 <= k < |groups| && groups[k] == c;
        assert sorted[k] in sorted && x in Members(sorted[k]);
      }
    }
  }

  lemma PredecessorsSorted(edges: seq<FlowEdge>, byNode: map<NodeId, nat>, linked: seq<Component>,
                           components: seq<Component>,
                           adjacency: map<nat, seq<nat>>, indegree: seq<int>)
    requires Endpoints(edges, byNode, |edges|) && Linked(edges, byNode, |edges|, linked, adjacency, indegree)
    requires |components| == |linked|
    requires forall k :: 0 <= k < |components| ==>
              && components[k].incoming == linked[k].incoming && components[k].cyclic == linked[k].cyclic
              && NoDuplicates(components[k].predecessors)
              && Elements(components[k].predecessors) == Elements(linked[k].predecessors)
    ensures ComponentsLinked(edges, byNode, |edges|, components)
  {
    hide Condensation, IncomingOf, CyclicOf, Adjacent;
    forall k | 0 <= k < |components| ensures ComponentLinked(edges, byNode, |edges|, k, components[k]) {
      forall p: nat ensures p in components[k].predecessors <==> p in linked[k].predecessors {
        assert p in Elements(components[k].predecessors) <==> p in Elements(linked[k].predecessors);
      }
    }
  }

  // ---------------------------------------------------------------- compiled plans

  /** What the compiler guarantees about a plan it accepted, as far as the engine can see. */
  ghost predicate Compiled(plan: Plan) {
    && DistinctPlanIds(plan.nodes)
    && (forall e :: e in plan.edges ==> e.from in PlanIds(plan) && e.to in PlanIds(plan))
    && IsDecomposition(Pairs(plan.edges), PlanIds(plan), plan.components)
    && 1 <= plan.maxParallel <= 128
    && (forall n :: n in plan.nodes ==> n.loopMaxIterations <= 1000)
  }

  lemma CompiledIsValid(plan: Plan)
    requires Compiled(plan)
    ensures ValidPartition(plan) && KnownNodes(plan)
  {
    hide Reach, StrLess, HeadLess;
    SccNonEmpty(Pairs(plan.edges), PlanIds(plan), plan.components);
  }

  /** In a compiled plan two nodes share a number exactly when each reaches the other. */
  lemma NumbersAreSccs(plan: Plan, byNode: map<NodeId, nat>, u: NodeId, v: NodeId)
    requires Compiled(plan) && Numbers(plan, byNode) && u in byNode && v in byNode
    ensures byNode[u] == byNode[v] <==> Mutual(Pairs(plan.edges), u, v)
  {
    hide Reach, StrLess, HeadLess, Disjoint, DistinctPlanIds;
    assert u in Union(plan.components);
    var c :| c in plan.components && u in c;
    assert u in Members(c);
    assert v in Members(c) <==> Mutual(Pairs(plan.edges), u, v);
    if Together(plan, u, v) {
      if u == v {
        ReachSelf(Pairs(plan.edges), u);
      } else {
        var d :| d in plan.components && u in d && v in d;
        assert u in Members(d) && v in Members(d);
      }
    }
  }

  /** Paths between components of a compiled plan are paths between any of their members. */
  lemma CondensationReach(plan: Plan, byNode: map<NodeId, nat>, u: NodeId, v: NodeId)
    requires Compiled(plan) && Numbers(plan, byNode) && Endpoints(plan.edges, byNode, |plan.edges|)
    requires u in byNode && v in byNode
    requires Reach(Condensation(plan.edges, byNode, |plan.edges|), byNode[u], byNode[v])
    ensures Reach(Pairs(plan.edges), u, v)
  {
    hide Reach, Compiled, Numbers;
    var edges, condensation := Pairs(plan.edges), Condensation(plan.edges, byNode, |plan.edges|);
    var region := set c | c in byNode.Values && ReachesAll(edges, byNode, u, c);
    forall x | x in byNode && byNode[x] == byNode[u] ensures Reach(edges, u, x) {
      NumbersAreSccs(plan, byNode, u, x);
    }
    forall a, b | (a, b) in condensation && a in region ensures b in region {
      var i :| 0 <= i < |plan.edges| && byNode[plan.edges[i].from] == a && byNode[plan.edges[i].to] == b;
      var e := plan.edges[i];
      ReachEdge(edges, e.from, e.to);
      ReachTrans(edges, u, e.from, e.to);
      forall x | x in byNode && byNode[x] == b ensures Reach(edges, u, x) {
        NumbersAreSccs(plan, byNode, e.to, x);
        ReachTrans(edges, u, e.to, x);
      }
    }
    ReachClosed(condensation, region, byNode[u], byNode[v]);
  }

  ghost predicate ReachesAll(edges: set<(NodeId, NodeId)>, byNode: map<NodeId, nat>, u: NodeId, c: nat) {
    forall x :: x in byNode && byNode[x] == c ==> Reach(edges, u, x)
  }

  /** The condensation of a compiled plan has no cycle. */
  lemma CompiledAcyclic(plan: Plan, byNode: map<NodeId, nat>)
    requires Compiled(plan) && Numbers(plan, byNode) && Endpoints(plan.edges, byNode, |plan.edges|)
    ensures !HasCycle(Condensation(plan.edges, byNode, |plan.edges|))
  {
    hide Reach, Compiled, Numbers;
    var condensation := Condensation(plan.edges, byNode, |plan.edges|);
    if HasCycle(condensation) {
      var a, b :| (a, b) in condensation && Reach(condensation, b, a);
      var i :| 0 <= i < |plan.edges| && byNode[plan.edges[i].from] == a && byNode[plan.edges[i].to] == b && a != b;
      var e := plan.edges[i];
      CondensationReach(plan, byNode, e.to, e.from);
      ReachEdge(Pairs(plan.edges), e.from, e.to);
      NumbersAreSccs(plan, byNode, e.from, e.to);
    }
  }

  /** An accepted Flow's canonical plan is a compiled plan. */
  lemma AcceptedIsCompiled(flow: Flow, binder: Binder, plan: Plan)
    requires Acceptable(flow, binder) && IsPlanOf(flow, binder, plan)
    ensures Compiled(plan)
  {
    hide IsDecomposition, StrLess, Reach, CyclesBounded, SourcesAccepted;
    PlanIdsDistinct(flow.nodes, binder, plan.nodes);
    PermutationFacts(plan.edges, flow.edges);
    assert Pairs(plan.edges) == Pairs(flow.edges);
    forall id ensures id in PlanIds(plan) <==> id in Ids(flow.nodes) {
      if id in Ids(flow.nodes) {
        var n :| n in flow.nodes && n.id == id;
        var i :| 0 <= i < |flow.nodes| && flow.nodes[i] == n;
        assert BindAll(flow.nodes, binder)[i] in plan.nodes;
      }
    }
    forall e | e in plan.edges ensures e.from in PlanIds(plan) && e.to in PlanIds(plan) {
      assert e in flow.edges;
    }
    assert PlanIds(plan) == Ids(flow.nodes);
    forall n | n in plan.nodes ensures n.loopMaxIterations <= 1000 {
      assert n in BindAll(flow.nodes, binder);
      var i :| 0 <= i < |flow.nodes| && BindAll(flow.nodes, binder)[i] == n;
      assert flow.nodes[i] in flow.nodes;
    }
  }

  /** Compiling an acceptable Flow and rebuilding its component model never fails. */
  method CompileAndBuild(flow: Flow, binder: Binder) returns (model: Option<Model>, plan: Plan)
    ensures model.Some? <==> Acceptable(flow, binder)
    ensures model.Some? ==> IsPlanOf(flow, binder, plan) && Compiled(plan) && IsModelOf(plan, model.value)
  {
    var compiled, diagnostics := Compile(flow, binder);
    plan := compiled;
    model := None;
    if diagnostics == [] {
      AcceptedIsCompiled(flow, binder, plan);
      CompiledIsValid(plan);
      var r, byNode := BuildComponentModel(plan);
      CompiledAcyclic(plan, byNode);
      model := Some(r.model);
    }
  }

  // ---------------------------------------------------------------- a plan has only one model

  /** A node of the stored components is in no group behind them. */
  lemma StoredNumber(plan: Plan, groups: seq<seq<NodeId>>, byNode: map<NodeId, nat>, id: NodeId)
    requires Grouped(groups, byNode) && CoversPlan(plan, groups) && id in Union(plan.components)
    ensures id in byNode && byNode[id] < |plan.components|
  {
    hide StrLess, Sorted;
    var c :| c in plan.components && id in c;
    var j :| 0 <= j < |plan.components| && plan.components[j] == c;
    PermutationFacts(plan.components[j], groups[j]);
  }

  lemma NoMoreGroups(plan: Plan, groups: seq<seq<NodeId>>, byNode: map<NodeId, nat>)
    requires Compiled(plan) && Grouped(groups, byNode) && CoversPlan(plan, groups)
    ensures |groups| == |plan.components|
  {
    hide Reach, StrLess, HeadLess, Sorted, IsScc;
    var n := |plan.components|;
    if |groups| > n {
      var id := groups[n][0];
      assert id in groups[n] && groups[n] in groups;
      assert id in Union(groups);
      StoredNumber(plan, groups, byNode, id);
    }
  }

  /** The groups of a compiled plan are its components. */
  lemma GroupsFixed(plan: Plan, groups: seq<seq<NodeId>>, byNode: map<NodeId, nat>)
    requires Compiled(plan) && Grouped(groups, byNode) && CoversPlan(plan, groups)
    ensures groups == plan.components
  {
    hide Reach, StrLess, HeadLess, IsScc, Union, Disjoint, Sorted, NoDuplicates;
    NoMoreGroups(plan, groups, byNode);
    forall k | 0 <= k < |groups| ensures groups[k] == plan.components[k] {
      assert plan.components[k] in plan.components;
      SameSorted(groups[k], plan.components[k]);
    }
  }

  lemma SameSorted(one: seq<NodeId>, two: seq<NodeId>)
    requires multiset(one) == multiset(two) && Sorted(StrLess, one) && Sorted(StrLess, two)
    ensures one == two
  {
    StrLessIsTotalOrder();
    hide StrLess;
    SortedUnique(StrLess, one, two);
  }

  lemma NumbersFixed(groups: seq<seq<NodeId>>, one: map<NodeId, nat>, two: map<NodeId, nat>)
    requires Grouped(groups, one) && Grouped(groups, two)
    ensures one == two
  {
    hide NoDuplicates, Sorted;
    forall id ensures id in one <==> id in two {
      assert id in one ==> id in groups[one[id]];
      assert id in two ==> id in groups[two[id]];
    }
    forall id | id in one ensures one[id] == two[id] {
      assert id in groups[one[id]];
    }
  }

  lemma HeadsDistinct(groups: seq<seq<NodeId>>, byNode: map<NodeId, nat>)
    requires Grouped(groups, byNode)
    ensures forall k :: 0 <= k < |groups| ==> groups[k] != []
    ensures forall a, b :: 0 <= a < b < |groups| ==> HeadsOf(groups)[a] != HeadsOf(groups)[b]
  {
    hide NoDuplicates, Sorted;
    forall a | 0 <= a < |groups| ensures HeadsOf(groups)[a] in byNode && byNode[HeadsOf(groups)[a]] == a {
      assert groups[a][0] in groups[a];
    }
  }

  lemma CapFixed(nodes: map<NodeId, PlanNode>, members: seq<NodeId>, one: int, two: int)
    requires IterationCap(nodes, members, one) && IterationCap(nodes, members, two)
    ensures one == two
  {
  }

  lemma NodesFixed(plan: Plan, one: map<NodeId, PlanNode>, two: map<NodeId, PlanNode>)
    requires NodesOf(plan, one) && NodesOf(plan, two)
    ensures one == two
  {
    forall id | id in one ensures one[id] == two[id] {
      var n :| n in plan.nodes && n.id == id;
    }
  }

  predicate NatLess(a: nat, b: nat) {
    a < b
  }

  lemma IncomingFixed(one: seq<nat>, two: seq<nat>)
    requires Increasing(one) && Increasing(two) && forall i: nat :: i in one <==> i in two
    ensures one == two
  {
    SameMembersSameMultiset(one, two);
    SortedUnique(NatLess, one, two);
  }

  /**
   * Rebuilding the model of a compiled plan gives the same components, caps and order every time, so a workflow that is
   * replayed schedules as it did. Left open is only in which order predecessors and leaving edges are listed.
   */
  lemma ModelUnique(plan: Plan, one: Model, two: Model)
    requires Compiled(plan) && IsModelOf(plan, one) && IsModelOf(plan, two)
    ensures one.nodes == two.nodes && one.componentByNode == two.componentByNode && one.order == two.order
    ensures GroupsOf(one.components) == plan.components && |two.components| == |one.components|
    ensures forall k :: 0 <= k < |one.components| ==> SameComponent(one.components[k], two.components[k])
  {
    hide Compiled, CoversPlan, NodesOf, Topological, LeastReadyFirst, OutgoingOf, IterationCap, Grouped, Condensation,
         ComponentsLinked, StrLess;
    GroupsFixed(plan, GroupsOf(one.components), one.componentByNode);
    GroupsFixed(plan, GroupsOf(two.components), two.componentByNode);
    NumbersFixed(GroupsOf(one.components), one.componentByNode, two.componentByNode);
    NodesFixed(plan, one.nodes, two.nodes);
    HeadsDistinct(GroupsOf(one.components), one.componentByNode);
    OrderUnique(Condensation(plan.edges, one.componentByNode, |plan.edges|), HeadsOf(GroupsOf(one.components)),
                one.order, two.order);
    forall k | 0 <= k < |one.components| ensures SameComponent(one.components[k], two.components[k]) {
      ComponentFixed(plan, one, two, k);
    }
  }

  ghost predicate SameComponent(a: Component, b: Component) {
    && a.nodes == b.nodes && a.incoming == b.incoming && a.cyclic == b.cyclic && a.maxIterations == b.maxIterations
    && forall p :: p in a.predecessors <==> p in b.predecessors
  }

  lemma ComponentFixed(plan: Plan, one: Model, two: Model, k: nat)
    requires IsModelOf(plan, one) && IsModelOf(plan, two) && k < |one.components| == |two.components|
    requires one.nodes == two.nodes && one.componentByNode == two.componentByNode
    requires GroupsOf(one.components) == GroupsOf(two.components)
    ensures SameComponent(one.components[k], two.components[k])
  {
    hide CoversPlan, NodesOf, Topological, LeastReadyFirst, OutgoingOf, IterationCap, Grouped, Condensation, StrLess,
         Crosses, Inside;
    assert GroupsOf(one.components)[k] == GroupsOf(two.components)[k];
    CapFixed(one.nodes, one.components[k].nodes, one.components[k].maxIterations, two.components[k].maxIterations);
    assert ComponentLinked(plan.edges, one.componentByNode, |plan.edges|, k, one.components[k]);
    assert ComponentLinked(plan.edges, one.componentByNode, |plan.edges|, k, two.components[k]);
    IncomingFixed(one.components[k].incoming, two.components[k].incoming);
  }
}
