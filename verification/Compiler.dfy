/** The graph part of compiling a Flow into a canonical execution plan. */
module Compiler {
  import opened Graphs
  import opened Ordering
  import opened Tarjan

  datatype Option<+T> = None | Some(value: T)

  /** A user node. `sources` are the nodes its input mappings read; `spec` is everything bound opaquely. */
  datatype FlowNode = FlowNode(id: NodeId, loopMax: Option<int>, sources: seq<NodeId>, spec: string)
  datatype FlowEdge = FlowEdge(from: NodeId, to: NodeId, condition: string)
  datatype Flow = Flow(uid: string, generation: nat, maxParallel: int, nodes: seq<FlowNode>, edges: seq<FlowEdge>)

  datatype PlanNode = PlanNode(id: NodeId, action: string, loopMaxIterations: int)
  datatype Plan = Plan(flowUid: string, flowGeneration: nat, maxParallel: int,
                       nodes: seq<PlanNode>, edges: seq<FlowEdge>, components: seq<seq<NodeId>>)

  /** Plugin binding, schema and CEL checks: deterministic, otherwise arbitrary. */
  datatype Binder = Binder(validNode: FlowNode -> bool, action: FlowNode -> string,
                           validCondition: (FlowEdge, set<FlowNode>) -> bool)

  datatype Diagnostic =
    | MaxParallelOutOfRange
    | InvalidNode(index: nat)
    | DuplicateNode(index: nat)
    | LoopOutOfRange(index: nat)
    | UnknownFrom(index: nat)
    | UnknownTo(index: nat)
    | InvalidCondition(index: nat)
    | UnknownSource(index: nat, source: NodeId)
    | SourceNotPredecessor(index: nat, source: NodeId)
    | UnboundedCycle(component: seq<NodeId>)

  // ---------------------------------------------------------------- what an accepted Flow is

  ghost function Pairs(edges: seq<FlowEdge>): set<(NodeId, NodeId)> {
    set e | e in edges :: (e.from, e.to)
  }

  ghost function Ids(nodes: seq<FlowNode>): set<NodeId> {
    set n | n in nodes :: n.id
  }

  function NodeSet(nodes: seq<FlowNode>): set<FlowNode> {
    set n | n in nodes
  }

  /** Reached in at least one step. */
  ghost predicate Precedes(edges: set<(NodeId, NodeId)>, u: NodeId, v: NodeId) {
    exists w :: (u, w) in edges && Reach(edges, w, v)
  }

  ghost predicate DistinctIds(nodes: seq<FlowNode>) {
    forall i, j :: 0 <= i < j < |nodes| ==> nodes[i].id != nodes[j].id
  }

  predicate LoopInRange(node: FlowNode) {
    node.loopMax.Some? ==> 1 <= node.loopMax.value <= 1000
  }

  ghost predicate NodesAccepted(nodes: seq<FlowNode>, binder: Binder) {
    DistinctIds(nodes) && forall n :: n in nodes ==> binder.validNode(n) && LoopInRange(n)
  }

  ghost predicate EdgesAccepted(edges: seq<FlowEdge>, nodes: seq<FlowNode>, binder: Binder) {
    forall e :: e in edges ==> e.from in Ids(nodes) && e.to in Ids(nodes) && binder.validCondition(e, NodeSet(nodes))
  }

  ghost predicate SourcesAccepted(nodes: seq<FlowNode>, ids: set<NodeId>, edges: set<(NodeId, NodeId)>) {
    forall n, s :: n in nodes && s in n.sources ==> s in ids && Precedes(edges, s, n.id)
  }

  ghost predicate HasLoopPolicy(nodes: seq<FlowNode>, edges: set<(NodeId, NodeId)>, u: NodeId) {
    exists n :: n in nodes && n.loopMax.Some? && n.loopMax.value > 0 && Mutual(edges, u, n.id)
  }

  /** Every vertex on a cycle shares its cycle region with a node that carries a finite loop policy. */
  ghost predicate CyclesBounded(nodes: seq<FlowNode>, edges: set<(NodeId, NodeId)>) {
    forall u :: u in Ids(nodes) && Precedes(edges, u, u) ==> HasLoopPolicy(nodes, edges, u)
  }

  function Parallelism(maxParallel: int): int {
    if maxParallel == 0 then 1 else maxParallel
  }

  ghost predicate Acceptable(flow: Flow, binder: Binder) {
    && 1 <= Parallelism(flow.maxParallel) <= 128
    && NodesAccepted(flow.nodes, binder)
    && EdgesAccepted(flow.edges, flow.nodes, binder)
    && SourcesAccepted(flow.nodes, Ids(flow.nodes), Pairs(flow.edges))
    && CyclesBounded(flow.nodes, Pairs(flow.edges))
  }

  // ---------------------------------------------------------------- the canonical plan

  function Bind(node: FlowNode, binder: Binder): PlanNode {
    PlanNode(node.id, binder.action(node), if node.loopMax.Some? then node.loopMax.value else 0)
  }

  function BindAll(nodes: seq<FlowNode>, binder: Binder): (r: seq<PlanNode>)
    ensures |r| == |nodes| && forall i :: 0 <= i < |nodes| ==> r[i] == Bind(nodes[i], binder)
  {
    seq(|nodes|, i requires 0 <= i < |nodes| => Bind(nodes[i], binder))
  }

  predicate IdLess(a: PlanNode, b: PlanNode) {
    StrLess(a.id, b.id)
  }

  predicate EdgeLess(a: FlowEdge, b: FlowEdge) {
    if a.from == b.from then
      if a.to == b.to then StrLess(a.condition, b.condition) else StrLess(a.to, b.to)
    else
      StrLess(a.from, b.from)
  }

  ghost predicate IsPlanOf(flow: Flow, binder: Binder, plan: Plan) {
    && plan.flowUid == flow.uid && plan.flowGeneration == flow.generation
    && plan.maxParallel == Parallelism(flow.maxParallel)
    && multiset(plan.nodes) == multiset(BindAll(flow.nodes, binder)) && Sorted(IdLess, plan.nodes)
    && multiset(plan.edges) == multiset(flow.edges) && Sorted(EdgeLess, plan.edges)
    && IsDecomposition(Pairs(flow.edges), Ids(flow.nodes), plan.components)
  }

  ghost predicate Permuted(f: Flow, g: Flow) {
    && f.uid == g.uid && f.generation == g.generation && f.maxParallel == g.maxParallel
    && multiset(f.nodes) == multiset(g.nodes)
    && multiset(f.edges) == multiset(g.edges)
  }

  lemma EdgeLessIsOrder()
    ensures StrictWeakOrder(EdgeLess)
    ensures forall s :: TiesAreEqual(EdgeLess, s)
  {
    StrLessIsTotalOrder();
    hide StrLess;
    forall a, b | !EdgeLess(a, b) && !EdgeLess(b, a) ensures a == b {
      StrLessTotal(a.from, b.from);
      StrLessTotal(a.to, b.to);
      StrLessTotal(a.condition, b.condition);
    }
    forall a, b, c | !EdgeLess(b, a) && !EdgeLess(c, b) ensures !EdgeLess(c, a) {
      StrLessTotal(a.from, b.from);
      StrLessTotal(b.from, c.from);
      StrLessTotal(a.to, b.to);
      StrLessTotal(b.to, c.to);
    }
  }

  lemma IdLessIsOrder(nodes: seq<PlanNode>)
    requires forall i, j :: 0 <= i < j < |nodes| ==> nodes[i].id != nodes[j].id
    ensures StrictWeakOrder(IdLess) && TiesAreEqual(IdLess, nodes)
  {
    StrLessIsTotalOrder();
    hide StrLess;
    forall a, b | a in nodes && b in nodes && !IdLess(a, b) && !IdLess(b, a) ensures a == b {
      StrLessTotal(a.id, b.id);
    }
  }

  lemma BoundMembers(f: seq<FlowNode>, g: seq<FlowNode>, binder: Binder)
    requires forall n :: n in f ==> n in g
    ensures forall x :: x in BindAll(f, binder) ==> x in BindAll(g, binder)
  {
    forall x | x in BindAll(f, binder) ensures x in BindAll(g, binder) {
      var i :| 0 <= i < |f| && x == BindAll(f, binder)[i];
      assert f[i] in g;
      var k :| 0 <= k < |g| && g[k] == f[i];
      assert BindAll(g, binder)[k] == x;
    }
  }

  lemma PlanIdsDistinct(nodes: seq<FlowNode>, binder: Binder, bound: seq<PlanNode>)
    requires DistinctIds(nodes) && multiset(bound) == multiset(BindAll(nodes, binder))
    ensures forall x :: x in bound <==> x in BindAll(nodes, binder)
    ensures forall i, j :: 0 <= i < j < |bound| ==> bound[i].id != bound[j].id
  {
    var all := BindAll(nodes, binder);
    PermutationFacts(all, bound);
    forall i, j | 0 <= i < j < |bound| ensures bound[i].id != bound[j].id {
      assert bound[i] in all && bound[j] in all;
    }
  }

  /** Reordering a Flow's nodes and edges does not change the plan it compiles to. */
  lemma CanonicalPlan(f: Flow, g: Flow, binder: Binder, p: Plan, q: Plan)
    requires Permuted(f, g) && DistinctIds(f.nodes)
    requires IsPlanOf(f, binder, p) && IsPlanOf(g, binder, q)
    ensures p == q
  {
    PermutationFacts(f.edges, g.edges);
    PermutationFacts(f.nodes, g.nodes);
    assert Pairs(f.edges) == Pairs(g.edges);
    assert Ids(f.nodes) == Ids(g.nodes);
    DecompositionUnique(Pairs(f.edges), Ids(f.nodes), p.components, q.components);
    hide IsDecomposition, StrLess;
    EdgeLessIsOrder();
    SortedUnique(EdgeLess, p.edges, q.edges);
    DistinctPermutes(f.nodes, g.nodes);
    PlanIdsDistinct(f.nodes, binder, p.nodes);
    PlanIdsDistinct(g.nodes, binder, q.nodes);
    BoundMembers(f.nodes, g.nodes, binder);
    BoundMembers(g.nodes, f.nodes, binder);
    SameMembersSameMultiset(p.nodes, q.nodes);
    IdLessIsOrder(p.nodes);
    SortedUnique(IdLess, p.nodes, q.nodes);
  }

  /**
   * A canonical plan keeps every node with its action and its loop policy, and every edge as often as the Flow has it;
   * the nodes are in the order of their ids, the edges in that of source, target and condition.
   */
  lemma PlanKeeps(flow: Flow, binder: Binder, plan: Plan)
    requires IsPlanOf(flow, binder, plan) && DistinctIds(flow.nodes)
    ensures |plan.nodes| == |flow.nodes|
    ensures forall n :: n in flow.nodes ==>
              PlanNode(n.id, binder.action(n), match n.loopMax case None => 0 case Some(max) => max) in plan.nodes
    ensures forall e :: multiset(plan.edges)[e] == multiset(flow.edges)[e]
    ensures plan.maxParallel == (if flow.maxParallel == 0 then 1 else flow.maxParallel)
    ensures forall i, j :: 0 <= i < j < |plan.nodes| ==> StrLess(plan.nodes[i].id, plan.nodes[j].id)
    ensures forall i, j :: 0 <= i < j < |plan.edges| ==> EdgeUpTo(plan.edges[i], plan.edges[j])
  {
    hide StrLess, IsDecomposition;
    PlanIdsDistinct(flow.nodes, binder, plan.nodes);
    SameLength(plan.nodes, BindAll(flow.nodes, binder));
    forall n | n in flow.nodes
      ensures PlanNode(n.id, binder.action(n), match n.loopMax case None => 0 case Some(max) => max) in plan.nodes
    {
      var i :| 0 <= i < |flow.nodes| && flow.nodes[i] == n;
      assert BindAll(flow.nodes, binder)[i] in plan.nodes;
    }
    forall i, j | 0 <= i < j < |plan.nodes| ensures StrLess(plan.nodes[i].id, plan.nodes[j].id) {
      StrLessTotal(plan.nodes[i].id, plan.nodes[j].id);
    }
    forall i, j | 0 <= i < j < |plan.edges| ensures EdgeUpTo(plan.edges[i], plan.edges[j]) {
      EdgeUpToMeans(plan.edges[i], plan.edges[j]);
    }
  }

  ghost predicate EdgeUpTo(a: FlowEdge, b: FlowEdge) {
    || StrLess(a.from, b.from)
    || (a.from == b.from && StrLess(a.to, b.to))
    || (a.from == b.from && a.to == b.to && (StrLess(a.condition, b.condition) || a.condition == b.condition))
  }

  lemma EdgeUpToMeans(a: FlowEdge, b: FlowEdge)
    ensures EdgeUpTo(a, b) <==> !EdgeLess(b, a)
  {
    hide StrLess;
    StrLessTotal(a.from, b.from);
    StrLessTotal(b.from, a.from);
    StrLessTotal(a.to, b.to);
    StrLessTotal(b.to, a.to);
    StrLessTotal(a.condition, b.condition);
    StrLessTotal(b.condition, a.condition);
  }

  lemma SameLength<T>(s: seq<T>, t: seq<T>)
    requires multiset(s) == multiset(t)
    ensures |s| == |t|
  {
    assert |multiset(s)| == |s| && |multiset(t)| == |t|;
  }

  lemma DistinctPermutes(f: seq<FlowNode>, g: seq<FlowNode>)
    requires DistinctIds(f) && multiset(f) == multiset(g)
    ensures DistinctIds(g)
  {
    assert NoDuplicates(f);
    PermutationFacts(f, g);
    forall i, j | 0 <= i < j < |g| ensures g[i].id != g[j].id {
      assert g[i] in f && g[j] in f;
    }
  }

  /** Whether a Flow is accepted does not depend on the order of its nodes and edges either. */
  lemma AcceptancePermutes(f: Flow, g: Flow, binder: Binder)
    requires Permuted(f, g) && Acceptable(f, binder)
    ensures Acceptable(g, binder)
  {
    SameMembership(f, g);
    hide Precedes, HasLoopPolicy, LoopInRange;
    DistinctPermutes(f.nodes, g.nodes);
    assert EdgesAccepted(g.edges, g.nodes, binder);
    assert SourcesAccepted(g.nodes, Ids(g.nodes), Pairs(g.edges));
    forall u | u in Ids(g.nodes) && Precedes(Pairs(g.edges), u, u) ensures HasLoopPolicy(g.nodes, Pairs(g.edges), u) {
      PolicyPermutes(f.nodes, g.nodes, Pairs(f.edges), u);
    }
  }

  /** Permuted Flows have the same nodes and edges. */
  lemma SameMembership(f: Flow, g: Flow)
    requires Permuted(f, g)
    ensures forall n :: n in f.nodes <==> n in g.nodes
    ensures forall e :: e in f.edges <==> e in g.edges
    ensures Pairs(f.edges) == Pairs(g.edges) && Ids(f.nodes) == Ids(g.nodes) && NodeSet(f.nodes) == NodeSet(g.nodes)
  {
    PermutationFacts(f.edges, g.edges);
    PermutationFacts(f.nodes, g.nodes);
  }

  lemma PolicyPermutes(f: seq<FlowNode>, g: seq<FlowNode>, edges: set<(NodeId, NodeId)>, u: NodeId)
    requires (forall n :: n in f <==> n in g) && HasLoopPolicy(f, edges, u)
    ensures HasLoopPolicy(g, edges, u)
  {
    hide Mutual;
  }

  // ---------------------------------------------------------------- the compiler passes

  /** Endpoint pairs of the edges whose two ends exist. */
  ghost function KnownPairs(edges: seq<FlowEdge>, ids: set<NodeId>): set<(NodeId, NodeId)> {
    set e | e in edges && e.from in ids && e.to in ids :: (e.from, e.to)
  }

  ghost predicate Indexes(nodes: map<NodeId, FlowNode>, all: seq<FlowNode>) {
    && nodes.Keys == Ids(all)
    && forall id :: id in nodes ==> nodes[id] in all && nodes[id].id == id
  }

  method BindNodes(all: seq<FlowNode>, binder: Binder)
    returns (planNodes: seq<PlanNode>, nodes: map<NodeId, FlowNode>, diagnostics: seq<Diagnostic>)
    ensures Indexes(nodes, all)
    ensures diagnostics == [] <==> NodesAccepted(all, binder)
    ensures diagnostics == [] ==> planNodes == BindAll(all, binder)
  {
    hide NodesAccepted, Indexes, LoopInRange;
    NothingIndexed(binder);
    planNodes, nodes, diagnostics := [], map[], [];
    for i := 0 to |all|
      invariant Indexes(nodes, all[..i])
      invariant diagnostics == [] <==> NodesAccepted(all[..i], binder)
      invariant diagnostics == [] ==> planNodes == BindAll(all[..i], binder)
    {
      var node := all[i];
      assert all[..i + 1] == all[..i] + [node];
      IndexesStep(nodes, all[..i], node);
      NodesAcceptedStep(all, i, binder);
      if node.id in nodes {
        diagnostics := diagnostics + [DuplicateNode(i)];
      } else {
        nodes := nodes[node.id := node];
        if !binder.validNode(node) {
          diagnostics := diagnostics + [InvalidNode(i)];
        }
        if !LoopInRange(node) {
          diagnostics := diagnostics + [LoopOutOfRange(i)];
        }
        planNodes := planNodes + [Bind(node, binder)];
      }
    }
    assert all[..|all|] == all;
  }

  lemma NothingIndexed(binder: Binder)
    ensures Indexes(map[], []) && NodesAccepted([], binder)
  {
  }

  lemma IndexesStep(nodes: map<NodeId, FlowNode>, before: seq<FlowNode>, node: FlowNode)
    requires Indexes(nodes, before)
    ensures node.id in nodes <==> node.id in Ids(before)
    ensures Indexes(if node.id in nodes then nodes else nodes[node.id := node], before + [node])
  {
    assert Ids(before + [node]) == Ids(before) + {node.id};
  }

  lemma NodesAcceptedStep(all: seq<FlowNode>, i: nat, binder: Binder)
    requires i < |all|
    ensures NodesAccepted(all[..i + 1], binder) <==>
            NodesAccepted(all[..i], binder) && all[i].id !in Ids(all[..i]) && binder.validNode(all[i])
                && LoopInRange(all[i])
  {
    var before, after := all[..i], all[..i + 1];
    assert after == before + [all[i]];
    if NodesAccepted(after, binder) {
      forall n | n in before ensures n in after && n.id != all[i].id {
        var k :| 0 <= k < i && before[k] == n;
        assert after[k] == n && after[i] == all[i];
      }
      forall a, b | 0 <= a < b < i ensures before[a].id != before[b].id {
        assert after[a] == before[a] && after[b] == before[b];
      }
    }
  }

  method LinkEdges(edges: seq<FlowEdge>, nodes: map<NodeId, FlowNode>, all: seq<FlowNode>, binder: Binder)
    returns (adjacency: map<NodeId, seq<NodeId>>, diagnostics: seq<Diagnostic>)
    requires Indexes(nodes, all)
    ensures EdgesOf(adjacency) == KnownPairs(edges, nodes.Keys) && adjacency.Keys <= nodes.Keys
    ensures diagnostics == [] <==> EdgesAccepted(edges, all, binder)
  {
    adjacency, diagnostics := map[], [];
    for i := 0 to |edges|
      invariant EdgesOf(adjacency) == KnownPairs(edges[..i], nodes.Keys) && adjacency.Keys <= nodes.Keys
      invariant diagnostics == [] <==> EdgesAccepted(edges[..i], all, binder)
    {
      var edge := edges[i];
      assert edges[..i + 1] == edges[..i] + [edge];
      if edge.from !in nodes {
        diagnostics := diagnostics + [UnknownFrom(i)];
      }
      if edge.to !in nodes {
        diagnostics := diagnostics + [UnknownTo(i)];
      }
      if !binder.validCondition(edge, NodeSet(all)) {
        diagnostics := diagnostics + [InvalidCondition(i)];
      }
      if edge.from in nodes && edge.to in nodes {
        AppendEdge(adjacency, edge.from, edge.to);
        adjacency := adjacency[edge.from := Successors(adjacency, edge.from) + [edge.to]];
      }
    }
    assert edges[..|edges|] == edges;
  }

  lemma AppendEdge(adjacency: map<NodeId, seq<NodeId>>, u: NodeId, v: NodeId)
    ensures EdgesOf(adjacency[u := Successors(adjacency, u) + [v]]) == EdgesOf(adjacency) + {(u, v)}
  {
  }

  method SortAdjacency(nodes: map<NodeId, FlowNode>, adjacency: map<NodeId, seq<NodeId>>)
    returns (sorted: map<NodeId, seq<NodeId>>)
    requires adjacency.Keys <= nodes.Keys
    ensures EdgesOf(sorted) == EdgesOf(adjacency)
    ensures forall id :: id in sorted ==> Sorted(StrLess, sorted[id])
  {
    StrLessIsTotalOrder();
    hide StrLess, Sorted, StrictWeakOrder, TiesAreEqual;
    var left := nodes.Keys;
    sorted := map[];
    while left != {}
      invariant left <= nodes.Keys && sorted.Keys == nodes.Keys - left
      invariant forall id :: id in sorted ==> Sorted(StrLess, sorted[id])
      invariant forall id, x :: id in sorted ==> (x in sorted[id] <==> x in Successors(adjacency, id))
      decreases left
    {
      var id :| id in left;
      var targets := Sort(StrLess, Successors(adjacency, id));
      PermutationFacts(Successors(adjacency, id), targets);
      sorted := sorted[id := targets];
      left := left - {id};
    }
    assert EdgesOf(sorted) == EdgesOf(adjacency);
  }

  /** Breadth-first search used to check that a mapping reads only from a predecessor. */
  method Reaches(source: NodeId, target: NodeId, adjacency: map<NodeId, seq<NodeId>>, ghost universe: set<NodeId>)
    returns (found: bool)
    requires source in universe
    requires forall u, v :: (u, v) in EdgesOf(adjacency) ==> v in universe
    ensures found <==> Precedes(EdgesOf(adjacency), source, target)
  {
    ghost var edges := EdgesOf(adjacency);
    var queue, seen := [source], {source};
    ReachSelf(edges, source);
    hide Reach, EdgesOf;
    while queue != []
      invariant seen <= universe && source in seen
      invariant forall x :: x in queue ==> x in seen
      invariant forall x :: x in seen ==> Reach(edges, source, x)
      invariant forall x, y :: x in seen && x !in queue && (x, y) in edges ==> y in seen && y != target
      decreases universe - seen, |queue|
    {
      var current := queue[0];
      ghost var rest := queue[1..];
      assert queue == [current] + rest;
      queue := queue[1..];
      var successors := Successors(adjacency, current);
      SuccessorEdges(adjacency, current);
      ghost var seen0 := seen;
      for i := 0 to |successors|
        invariant seen0 <= seen <= universe && source in seen && current in seen
        invariant seen == seen0 ==> queue == rest
        invariant forall x :: x in queue ==> x in seen
        invariant forall x :: x in rest ==> x in queue
        invariant forall x :: x in seen && x !in seen0 ==> x in queue
        invariant forall x :: x in seen ==> Reach(edges, source, x)
        invariant forall k :: 0 <= k < i ==> successors[k] in seen && successors[k] != target
      {
        var next := successors[i];
        if next == target {
          FoundTarget(edges, source, current, target);
          return true;
        }
        if next !in seen {
          ReachEdge(edges, current, next);
          ReachTrans(edges, source, current, next);
          seen := seen + {next};
          queue := queue + [next];
        }
      }
      assert seen != seen0 ==> universe - seen < universe - seen0;
      assert forall y :: (current, y) in edges ==> y in successors;
    }
    NotFound(edges, seen, source, target);
    found := false;
  }

  lemma FoundTarget(edges: set<(NodeId, NodeId)>, source: NodeId, current: NodeId, target: NodeId)
    requires Reach(edges, source, current) && (current, target) in edges
    ensures Precedes(edges, source, target)
  {
    hide Reach;
    if source == current {
      ReachSelf(edges, target);
    } else {
      var w := ReachFirstStep(edges, source, current);
      ReachEdge(edges, current, target);
      ReachTrans(edges, w, current, target);
    }
  }

  lemma NotFound(edges: set<(NodeId, NodeId)>, seen: set<NodeId>, source: NodeId, target: NodeId)
    requires source in seen
    requires forall x, y :: x in seen && (x, y) in edges ==> y in seen && y != target
    ensures !Precedes(edges, source, target)
  {
    hide Reach;
    var rest := seen - {target};
    assert Closed(edges, rest);
    if Precedes(edges, source, target) {
      var w :| (source, w) in edges && Reach(edges, w, target);
      ReachClosed(edges, rest, w, target);
    }
  }

  method CheckMappings(all: seq<FlowNode>, nodes: map<NodeId, FlowNode>, adjacency: map<NodeId, seq<NodeId>>)
    returns (diagnostics: seq<Diagnostic>)
    requires forall u, v :: (u, v) in EdgesOf(adjacency) ==> v in nodes.Keys
    ensures diagnostics == [] <==> SourcesAccepted(all, nodes.Keys, EdgesOf(adjacency))
  {
    hide Reach, EdgesOf;
    ghost var edges := EdgesOf(adjacency);
    diagnostics := [];
    for i := 0 to |all|
      invariant diagnostics == [] <==> SourcesAccepted(all[..i], nodes.Keys, edges)
    {
      var node := all[i];
      assert all[..i + 1] == all[..i] + [node];
      ghost var before := diagnostics;
      for j := 0 to |node.sources|
        invariant diagnostics == [] <==>
                  before == [] && forall k :: 0 <= k < j ==>
                      node.sources[k] in nodes && Precedes(edges, node.sources[k], node.id)
      {
        var source := node.sources[j];
        if source !in nodes {
          diagnostics := diagnostics + [UnknownSource(i, source)];
        } else {
          var found := Reaches(source, node.id, adjacency, nodes.Keys);
          if !found {
            diagnostics := diagnostics + [SourceNotPredecessor(i, source)];
          }
        }
      }
    }
    assert all[..|all|] == all;
  }

  /** A component is cyclic when it has two members or a self edge; then it needs a loop policy. */
  method LacksLoopPolicy(component: seq<NodeId>, adjacency: map<NodeId, seq<NodeId>>, nodes: map<NodeId, FlowNode>)
    returns (bad: bool)
    ensures bad <==> !ComponentBounded(component, nodes, EdgesOf(adjacency))
  {
    var cyclic := |component| > 1;
    if |component| == 1 {
      SuccessorEdges(adjacency, component[0]);
      for i := 0 to |Successors(adjacency, component[0])|
        invariant cyclic <==> component[0] in Successors(adjacency, component[0])[..i]
      {
        if Successors(adjacency, component[0])[i] == component[0] {
          cyclic := true;
        }
      }
    }
    var finite := false;
    if cyclic {
      for j := 0 to |component|
        invariant finite <==> exists k :: 0 <= k < j && LoopNode(nodes, component[k])
      {
        if LoopNode(nodes, component[j]) {
          finite := true;
        }
      }
    }
    bad := cyclic && !finite;
  }

  method CheckCycles(components: seq<seq<NodeId>>, adjacency: map<NodeId, seq<NodeId>>, nodes: map<NodeId, FlowNode>,
                     ghost all: seq<FlowNode>)
    returns (diagnostics: seq<Diagnostic>)
    requires Indexes(nodes, all)
    requires IsDecomposition(EdgesOf(adjacency), nodes.Keys, components)
    requires forall u, v :: (u, v) in EdgesOf(adjacency) ==> u in nodes && v in nodes
    ensures DistinctIds(all) ==> (diagnostics == [] <==> CyclesBounded(all, EdgesOf(adjacency)))
  {
    hide Reach, EdgesOf, ComponentBounded;
    diagnostics := [];
    for i := 0 to |components|
      invariant diagnostics == [] <==>
                  forall k :: 0 <= k < i ==> ComponentBounded(components[k], nodes, EdgesOf(adjacency))
    {
      var bad := LacksLoopPolicy(components[i], adjacency, nodes);
      if bad {
        diagnostics := diagnostics + [UnboundedCycle(components[i])];
      }
    }
    if DistinctIds(all) {
      BoundedByComponents(components, nodes, all, EdgesOf(adjacency));
    }
  }

  predicate LoopNode(nodes: map<NodeId, FlowNode>, id: NodeId) {
    id in nodes && nodes[id].loopMax.Some? && nodes[id].loopMax.value > 0
  }

  ghost predicate Cyclic(component: seq<NodeId>, edges: set<(NodeId, NodeId)>) {
    |component| > 1 || (|component| == 1 && (component[0], component[0]) in edges)
  }

  ghost predicate ComponentBounded(component: seq<NodeId>, nodes: map<NodeId, FlowNode>, edges: set<(NodeId, NodeId)>) {
    Cyclic(component, edges) ==> exists k :: 0 <= k < |component| && LoopNode(nodes, component[k])
  }

  /** A vertex lies on a cycle exactly when its component is cyclic in the compiler's sense. */
  lemma CyclicComponent(edges: set<(NodeId, NodeId)>, ids: set<NodeId>, component: seq<NodeId>, u: NodeId)
    requires IsScc(edges, ids, Members(component)) && NoDuplicates(component) && u in component
    requires forall x, y :: (x, y) in edges ==> y in ids
    ensures Cyclic(component, edges) <==> Precedes(edges, u, u)
  {
    hide Reach;
    assert u in Members(component);
    if Cyclic(component, edges) {
      if |component| == 1 {
        ReachSelf(edges, u);
      } else {
        var v := if component[0] == u then component[1] else component[0];
        assert v in Members(component);
        var w := ReachFirstStep(edges, u, v);
        ReachTrans(edges, w, v, u);
      }
    }
    if Precedes(edges, u, u) {
      var w :| (u, w) in edges && Reach(edges, w, u);
      ReachEdge(edges, u, w);
      assert w in Members(component);
      var a :| 0 <= a < |component| && component[a] == u;
      var b :| 0 <= b < |component| && component[b] == w;
    }
  }

  lemma CycleComponentBounded(components: seq<seq<NodeId>>, nodes: map<NodeId, FlowNode>, all: seq<FlowNode>,
                              edges: set<(NodeId, NodeId)>,
                              c: seq<NodeId>)
    requires Indexes(nodes, all) && DistinctIds(all) && CyclesBounded(all, edges)
    requires IsDecomposition(edges, nodes.Keys, components) && c in components
    requires forall u, v :: (u, v) in edges ==> u in nodes && v in nodes
    ensures ComponentBounded(c, nodes, edges)
  {
    hide Reach, Disjoint, HeadLess, StrLess, Precedes, Sorted, NoDuplicates, Union;
    SccNonEmpty(edges, nodes.Keys, components);
    if Cyclic(c, edges) {
      CyclicComponent(edges, nodes.Keys, c, c[0]);
      assert c[0] in Members(c) && HasLoopPolicy(all, edges, c[0]);
      var n :| n in all && n.loopMax.Some? && n.loopMax.value > 0 && Mutual(edges, c[0], n.id);
      assert n.id in Members(c) && nodes[n.id] == n;
      var j :| 0 <= j < |c| && c[j] == n.id;
      assert LoopNode(nodes, c[j]);
    }
  }

  lemma CycleVertexBounded(components: seq<seq<NodeId>>, nodes: map<NodeId, FlowNode>, all: seq<FlowNode>,
                           edges: set<(NodeId, NodeId)>,
                           u: NodeId)
    requires Indexes(nodes, all) && IsDecomposition(edges, nodes.Keys, components)
    requires forall u, v :: (u, v) in edges ==> u in nodes && v in nodes
    requires u in Ids(all) && Precedes(edges, u, u)
    requires forall k :: 0 <= k < |components| ==> ComponentBounded(components[k], nodes, edges)
    ensures HasLoopPolicy(all, edges, u)
  {
    hide Reach, Disjoint, HeadLess, StrLess, Precedes, Sorted, NoDuplicates;
    assert u in Union(components);
    var c :| c in components && u in c;
    CyclicComponent(edges, nodes.Keys, c, u);
    assert ComponentBounded(c, nodes, edges);
    var j :| 0 <= j < |c| && LoopNode(nodes, c[j]);
    assert u in Members(c) && c[j] in Members(c);
    assert Mutual(edges, u, c[j]);
  }

  lemma BoundedByComponents(components: seq<seq<NodeId>>, nodes: map<NodeId, FlowNode>, all: seq<FlowNode>,
                            edges: set<(NodeId, NodeId)>)
    requires Indexes(nodes, all) && DistinctIds(all)
    requires IsDecomposition(edges, nodes.Keys, components)
    requires forall u, v :: (u, v) in edges ==> u in nodes && v in nodes
    ensures CyclesBounded(all, edges) <==>
            forall k :: 0 <= k < |components| ==> ComponentBounded(components[k], nodes, edges)
  {
    hide ComponentBounded, HasLoopPolicy, Precedes, IsDecomposition, Indexes;
    forall k | 0 <= k < |components| && CyclesBounded(all, edges)
      ensures ComponentBounded(components[k], nodes, edges) {
      CycleComponentBounded(components, nodes, all, edges, components[k]);
    }
    forall u | u in Ids(all) && Precedes(edges, u, u)
               && (forall k :: 0 <= k < |components| ==> ComponentBounded(components[k], nodes, edges))
      ensures HasLoopPolicy(all, edges, u)
    {
      CycleVertexBounded(components, nodes, all, edges, u);
    }
  }

  method SortedKeys(nodes: map<NodeId, FlowNode>) returns (ids: seq<NodeId>)
    ensures Members(ids) == nodes.Keys && Sorted(StrLess, ids)
  {
    var left := nodes.Keys;
    ids := [];
    while left != {}
      invariant left <= nodes.Keys && Members(ids) == nodes.Keys - left
      decreases left
    {
      var id :| id in left;
      assert Members(ids + [id]) == Members(ids) + {id};
      ids := ids + [id];
      left := left - {id};
    }
    StrLessIsTotalOrder();
    ghost var unsorted := ids;
    ids := Sort(StrLess, ids);
    PermutationFacts(unsorted, ids);
    assert Members(ids) == Members(unsorted);
  }

  /** Reports no error exactly for acceptable Flows, and then the plan is the Flow's canonical plan. */
  method Compile(flow: Flow, binder: Binder) returns (plan: Plan, diagnostics: seq<Diagnostic>)
    ensures diagnostics == [] <==> Acceptable(flow, binder)
    ensures diagnostics == [] ==> IsPlanOf(flow, binder, plan)
  {
    var maxParallel := Parallelism(flow.maxParallel);
    diagnostics := if maxParallel < 1 || maxParallel > 128 then [MaxParallelOutOfRange] else [];
    var planNodes, nodes, nodeDiagnostics := BindNodes(flow.nodes, binder);
    var adjacency, edgeDiagnostics := LinkEdges(flow.edges, nodes, flow.nodes, binder);
    assert edgeDiagnostics == [] ==> KnownPairs(flow.edges, nodes.Keys) == Pairs(flow.edges);
    hide NodesAccepted, EdgesAccepted, KnownPairs, Pairs, EdgesOf, SourcesAccepted, CyclesBounded, BindAll;
    KnownPairsKnown(flow.edges, nodes.Keys);
    adjacency := SortAdjacency(nodes, adjacency);
    var mappingDiagnostics := CheckMappings(flow.nodes, nodes, adjacency);
    var ids := SortedKeys(nodes);
    var components := StronglyConnected(ids, adjacency);
    var cycleDiagnostics := CheckCycles(components, adjacency, nodes, flow.nodes);
    diagnostics := diagnostics + nodeDiagnostics + edgeDiagnostics + mappingDiagnostics + cycleDiagnostics;
    EdgeLessIsOrder();
    IdLessIsOrder([]);
    var sortedNodes := Sort(IdLess, planNodes);
    var sortedEdges := Sort(EdgeLess, flow.edges);
    plan := Plan(flow.uid, flow.generation, maxParallel, sortedNodes, sortedEdges, components);
  }

  lemma KnownPairsKnown(edges: seq<FlowEdge>, ids: set<NodeId>)
    ensures forall u, v :: (u, v) in KnownPairs(edges, ids) ==> u in ids && v in ids
  {
  }
}
