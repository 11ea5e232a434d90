/** Which nodes of a succeeded Run executed: those its switched-on edges lead to from the roots. */
module Reachability {
  import opened Graphs
  import opened Ordering
  import opened Tarjan
  import opened Compiler
  import opened Kahn
  import opened ComponentModel
  import opened Execution
  import opened ExecutionFacts
  import opened Locality
  import opened Sequential
  import opened Answers

  /** The first node of a component that no edge enters. */
  ghost predicate IsRoot(m: Model, id: NodeId) {
    exists k :: 0 <= k < |m.components| && m.components[k].incoming == [] && m.components[k].nodes != []
        && m.components[k].nodes[0] == id
  }

  ghost predicate FromRoot(plan: Plan, m: Model, on: set<nat>, id: NodeId) {
    exists root :: IsRoot(m, root) && Reach(ActivePairs(plan, on), root, id)
  }

  /** The trace of the component a node belongs to. */
  ghost function TraceOf(m: Model, results: map<nat, ComponentResult>, id: NodeId): seq<Activity> {
    if id in m.componentByNode && m.componentByNode[id] in results then results[m.componentByNode[id]].trace else []
  }

  ghost predicate Ran(m: Model, results: map<nat, ComponentResult>, id: NodeId) {
    Runs(TraceOf(m, results, id), id) > 0
  }

  /** Component k of a run without errors or rejections, with what it was started on. */
  ghost predicate Exact(plan: Plan, m: Model, results: map<nat, ComponentResult>, k: nat, on: set<nat>) {
    && k in results && Usable(plan, m, k) && EntersInside(plan, m, k)
    && Accounted(m, k, results[k]) && Reached(plan, m, k, on, results[k])
  }

  // ---------------------------------------------------------------- components of the sequential run

  lemma SccsShaped(plan: Plan, m: Model, k: nat)
    requires Compiled(plan) && k < |m.components|
    requires IsModelOf(plan, m)
    ensures SccShaped(m, k)
  {
    hide IsModelOf, Reach, Compiled, Numbers, Mutual;
    ModelUsable(plan, m, k);
    var c := m.components[k];
    if |c.nodes| > 1 {
      var u, v := c.nodes[0], c.nodes[1];
      assert u in c.nodes && v in c.nodes && u != v;
      ModelNumbers(plan, m);
      NumbersAreSccs(plan, m.componentByNode, u, v);
      InnerEdge(plan, m, k, u, v);
    }
  }

  lemma InnerEdge(plan: Plan, m: Model, k: nat, u: NodeId, v: NodeId)
    requires Compiled(plan) && Numbers(plan, m.componentByNode)
    requires InComponent(m, k, u) && InComponent(m, k, v) && u != v && Mutual(Pairs(plan.edges), u, v)
    requires Usable(plan, m, k)
    requires IsModelOf(plan, m)
    ensures m.components[k].cyclic
  {
    hide IsModelOf, Reach, Compiled, Numbers;
    var w := ReachFirstStep(Pairs(plan.edges), u, v);
    ReachEdge(Pairs(plan.edges), u, w);
    ReachTrans(Pairs(plan.edges), v, u, w);
    var e :| e in plan.edges && e.from == u && e.to == w;
    var i :| 0 <= i < |plan.edges| && plan.edges[i] == e;
    ComponentEdge(plan, m, i);
    NumbersAreSccs(plan, m.componentByNode, w, v);
    assert InComponent(m, k, plan.edges[i].from) && InComponent(m, k, plan.edges[i].to);
  }

  lemma ModelNumbers(plan: Plan, m: Model)
    requires Compiled(plan)
    requires IsModelOf(plan, m)
    ensures Numbers(plan, m.componentByNode)
  {
    hide Topological, LeastReadyFirst, ComponentsLinked, Condensation, IsDecomposition, Grouped, CoversPlan, NodesOf,
         ValidPartition,
         DistinctPlanIds, IterationCap, OutgoingOf, Endpoints, Numbers, NoDuplicates;
    CompiledIsValid(plan);
    var groups := GroupsOf(m.components);
    GroupedKeys(groups, m.componentByNode);
    CoveredIds(plan, groups);
    GroupsNumber(plan, groups, m.componentByNode);
  }

  lemma CoveredIds(plan: Plan, groups: seq<seq<NodeId>>)
    requires CoversPlan(plan, groups) && KnownNodes(plan)
    ensures Union(groups) == PlanIds(plan)
  {
    hide Union;
  }

  lemma GroupedKeys(groups: seq<seq<NodeId>>, byNode: map<NodeId, nat>)
    requires Grouped(groups, byNode)
    ensures Union(groups) == byNode.Keys
  {
    hide Sorted, NoDuplicates;
    forall id ensures id in Union(groups) <==> id in byNode.Keys {
      if id in byNode.Keys {
        assert groups[byNode[id]] in groups;
      }
      if id in Union(groups) {
        var g :| g in groups && id in g;
        var k :| 0 <= k < |groups| && groups[k] == g;
      }
    }
  }

  // ---------------------------------------------------------------- the whole run

  /** A component saw nothing but final outputs, not its own, and every one of a node that leads to it. */
  ghost predicate Sees(plan: Plan, m: Model, k: nat, visible: map<NodeId, Json>, outputs: map<NodeId, Json>)
    requires k < |m.components|
  {
    && (forall a :: a in visible ==> a in outputs && visible[a] == outputs[a] && !InComponent(m, k, a))
    && (forall a, id ::
          a in outputs && !InComponent(m, k, a) && id in m.components[k].nodes && Reach(Pairs(plan.edges), a, id) ==>
            a in visible)
  }

  /** The result of a component is what its nodes answered, with the final flags and such outputs visible. */
  ghost predicate AnsweredAt(plan: Plan, m: Model, world: World, final: RunState, k: nat)
    requires k < |m.components|
  {
    && k in final.results
    && exists visible :: Answered(plan, m, k, world, final.edges, visible, final.results[k])
                         && Sees(plan, m, k, visible, final.outputs)
  }

  /** The outputs are those of the components. */
  ghost predicate OutputsKept(final: RunState) {
    && (forall id :: id in final.outputs ==> exists k :: k in final.results && id in final.results[k].outputs)
    && (forall k, id :: k in final.results && id in final.results[k].outputs ==>
          id in final.outputs && final.outputs[id] == final.results[k].outputs[id])
  }

  /**
   * Every component ran as its specification says, started on the edges that are on at the end, and delivered what its
   * nodes answered.
   */
  ghost predicate SettledRun(plan: Plan, m: Model, world: World, final: RunState) {
    && (forall k :: k in final.results <==> 0 <= k < |m.components|)
    && (forall k :: 0 <= k < |m.components| ==> Exact(plan, m, final.results, k, final.edges))
    && (forall e :: e in final.edges <==> exists k :: k in final.results && e in final.results[k].edges)
    && OutputsKept(final) && (forall k :: 0 <= k < |m.components| ==> AnsweredAt(plan, m, world, final, k))
  }

  lemma ReachedLocal(plan: Plan, m: Model, k: nat, on: set<nat>, on': set<nat>, r: ComponentResult)
    requires Usable(plan, m, k) && EntersInside(plan, m, k)
    requires forall e :: e in m.components[k].incoming ==> (e in on <==> e in on')
    requires Reached(plan, m, k, on, r)
    ensures Reached(plan, m, k, on', r)
  {
    hide FromEntry, Runs;
    EntriesLocal(plan, m.components[k].incoming, on, on');
  }

  // ---------------------------------------------------------------- forwards: what the roots lead to executes

  lemma RootRuns(plan: Plan, m: Model, world: World, final: RunState, id: NodeId)
    requires SettledRun(plan, m, world, final) && IsRoot(m, id)
    ensures id in m.componentByNode && Ran(m, final.results, id)
  {
    hide FromEntry, Runs, Accounted, InComponent;
    var k :| 0 <= k < |m.components| && m.components[k].incoming == [] && m.components[k].nodes != []
        && m.components[k].nodes[0] == id;
    assert Exact(plan, m, final.results, k, final.edges);
    assert id in m.components[k].nodes && id in StartQueue(plan, m.components[k], final.edges);
    assert m.componentByNode[id] == k;
  }

  lemma EdgeRuns(plan: Plan, m: Model, world: World, final: RunState, e: nat)
    requires SettledRun(plan, m, world, final) && e in final.edges
    requires IsModelOf(plan, m)
    ensures e < |plan.edges| && plan.edges[e].from in m.componentByNode && plan.edges[e].to in m.componentByNode
    ensures Ran(m, final.results, plan.edges[e].from) && Ran(m, final.results, plan.edges[e].to)
  {
    hide IsModelOf, FromEntry, Runs, StartQueue, ComponentActive, Accounted, Usable, EntersInside;
    var c :| c in final.results && e in final.results[c].edges;
    assert Exact(plan, m, final.results, c, final.edges);
    assert e < |plan.edges| && Runs(final.results[c].trace, plan.edges[e].from) > 0;
    RunsInside(plan, m, world, final, c, plan.edges[e].from);
    ComponentEdge(plan, m, e);
    var k := m.componentByNode[plan.edges[e].to];
    if k != c {
      EnteredRuns(plan, m, world, final, e);
    }
  }

  lemma RunsInside(plan: Plan, m: Model, world: World, final: RunState, c: nat, id: NodeId)
    requires SettledRun(plan, m, world, final) && c in final.results && Runs(final.results[c].trace, id) > 0
    ensures InComponent(m, c, id)
  {
    hide Reached, FromEntry, Runs, EntersInside;
    assert Exact(plan, m, final.results, c, final.edges);
  }

  lemma EnteredRuns(plan: Plan, m: Model, world: World, final: RunState, e: nat)
    requires SettledRun(plan, m, world, final) && e in final.edges && e < |plan.edges|
    requires plan.edges[e].from in m.componentByNode && plan.edges[e].to in m.componentByNode
    requires m.componentByNode[plan.edges[e].from] != m.componentByNode[plan.edges[e].to]
    requires IsModelOf(plan, m)
    ensures Ran(m, final.results, plan.edges[e].to)
  {
    hide IsModelOf, FromEntry, Runs, Accounted, Entries, InComponent;
    var k := m.componentByNode[plan.edges[e].to];
    Entering(plan, m, e);
    assert Exact(plan, m, final.results, k, final.edges);
    EntriesFacts(plan, m.components[k].incoming, final.edges);
    assert EnteredBy(plan, m.components[k].incoming, final.edges, plan.edges[e].to);
    hide Usable, EntersInside;
    assert plan.edges[e].to in StartQueue(plan, m.components[k], final.edges);
  }

  lemma Entering(plan: Plan, m: Model, e: nat)
    requires e < |plan.edges| && plan.edges[e].from in m.componentByNode && plan.edges[e].to in m.componentByNode
    requires m.componentByNode[plan.edges[e].from] != m.componentByNode[plan.edges[e].to]
    requires IsModelOf(plan, m)
    ensures var k := m.componentByNode[plan.edges[e].to]; k < |m.components| && e in m.components[k].incoming
  {
    hide Topological, LeastReadyFirst, CoversPlan, Condensation, NodesOf, IterationCap, OutgoingOf;
    var k := m.componentByNode[plan.edges[e].to];
    assert ComponentLinked(plan.edges, m.componentByNode, |plan.edges|, k, m.components[k]);
    assert Crosses(plan.edges, m.componentByNode, e, k);
  }

  lemma ReachableRuns(plan: Plan, m: Model, world: World, final: RunState, id: NodeId)
    requires SettledRun(plan, m, world, final) && FromRoot(plan, m, final.edges, id)
    requires IsModelOf(plan, m)
    ensures id in m.componentByNode && Ran(m, final.results, id)
  {
    hide IsModelOf, SettledRun, Reach, Ran, IsRoot;
    var root :| IsRoot(m, root) && Reach(ActivePairs(plan, final.edges), root, id);
    RootRuns(plan, m, world, final, root);
    var region := set x | x in m.componentByNode && Ran(m, final.results, x);
    forall u, v | (u, v) in ActivePairs(plan, final.edges) && u in region ensures v in region {
      var e :| e in final.edges && e < |plan.edges| && plan.edges[e].from == u && plan.edges[e].to == v;
      EdgeRuns(plan, m, world, final, e);
    }
    ReachClosed(ActivePairs(plan, final.edges), region, root, id);
  }

  // ---------------------------------------------------------------- backwards: what executes, the roots lead to

  lemma {:induction false} RunsReachable(plan: Plan, m: Model, world: World, final: RunState, n: nat, id: NodeId)
    requires SettledRun(plan, m, world, final) && n < |m.order| && InComponent(m, m.order[n], id)
    requires Ran(m, final.results, id)
    requires IsModelOf(plan, m)
    ensures FromRoot(plan, m, final.edges, id)
    decreases n
  {
    hide IsModelOf, SettledRun, Reach, Ran, IsRoot, InComponent, FromRoot, FromEntry;
    var k := m.order[n];
    OrderMember(plan, m, n);
    var s := EntryOf(plan, m, world, final, k, id);
    if m.components[k].incoming == [] {
      RootReaches(plan, m, final.edges, k, s, id);
    } else {
      var e := EntryEdge(plan, m, final, k, s);
      EdgeRuns(plan, m, world, final, e);
      EdgeSource(plan, m, k, e);
      PrefixDownClosed(plan, m, n);
      var p := m.componentByNode[plan.edges[e].from];
      assert p in Elements(m.order[..n]);
      var i :| 0 <= i < n && m.order[i] == p;
      SourceInside(plan, m, e);
      RunsReachable(plan, m, world, final, i, plan.edges[e].from);
      FromRootStep(plan, m, final.edges, e, id);
    }
  }

  lemma SourceInside(plan: Plan, m: Model, e: nat)
    requires e < |plan.edges| && plan.edges[e].from in m.componentByNode
    ensures InComponent(m, m.componentByNode[plan.edges[e].from], plan.edges[e].from)
  {
  }

  /** An executed node was led to, inside its component, from one of the component's entries. */
  lemma EntryOf(plan: Plan, m: Model, world: World, final: RunState, k: nat, id: NodeId) returns (s: NodeId)
    requires SettledRun(plan, m, world, final) && k < |m.components| && InComponent(m, k, id)
    requires Ran(m, final.results, id)
    ensures m.components[k].nodes != [] && ValidEdges(plan, m.components[k].incoming)
    ensures s in StartQueue(plan, m.components[k], final.edges)
    ensures Reach(ActivePairs(plan, final.edges), s, id)
  {
    hide Reach, Runs, Accounted, StartQueue, ComponentActive;
    var r := final.results[k];
    assert Exact(plan, m, final.results, k, final.edges);
    hide EntersInside, Usable;
    assert FromEntry(plan, r.edges, StartQueue(plan, m.components[k], final.edges), id);
    FromEntryGrows(plan, r.edges, final.edges, StartQueue(plan, m.components[k], final.edges), id);
    s :| s in StartQueue(plan, m.components[k], final.edges) && Reach(ActivePairs(plan, final.edges), s, id);
  }

  lemma RootReaches(plan: Plan, m: Model, on: set<nat>, k: nat, s: NodeId, id: NodeId)
    requires k < |m.components| && m.components[k].incoming == [] && m.components[k].nodes != []
    requires s in StartQueue(plan, m.components[k], on) && Reach(ActivePairs(plan, on), s, id)
    ensures FromRoot(plan, m, on, id)
  {
    hide Reach;
    assert IsRoot(m, s);
  }

  lemma EntryEdge(plan: Plan, m: Model, final: RunState, k: nat, s: NodeId) returns (e: nat)
    requires k < |m.components| && m.components[k].incoming != []
    requires m.components[k].nodes != [] && ValidEdges(plan, m.components[k].incoming)
    requires s in StartQueue(plan, m.components[k], final.edges)
    ensures e in m.components[k].incoming && e in final.edges && e < |plan.edges| && plan.edges[e].to == s
  {
    EntriesFacts(plan, m.components[k].incoming, final.edges);
    assert EnteredBy(plan, m.components[k].incoming, final.edges, s);
    e :| e in m.components[k].incoming && e in final.edges && e < |plan.edges| && plan.edges[e].to == s;
  }

  lemma FromRootStep(plan: Plan, m: Model, on: set<nat>, e: nat, id: NodeId)
    requires e in on && e < |plan.edges| && FromRoot(plan, m, on, plan.edges[e].from)
    requires Reach(ActivePairs(plan, on), plan.edges[e].to, id)
    ensures FromRoot(plan, m, on, id)
  {
    hide Reach, IsRoot;
    var from, to := plan.edges[e].from, plan.edges[e].to;
    var root :| IsRoot(m, root) && Reach(ActivePairs(plan, on), root, from);
    assert (from, to) in ActivePairs(plan, on);
    ReachEdge(ActivePairs(plan, on), from, to);
    ReachTrans(ActivePairs(plan, on), root, from, to);
    ReachTrans(ActivePairs(plan, on), root, to, id);
  }

  // ---------------------------------------------------------------- the theorem

  /**
   * In any run that settled a node executes exactly when the switched-on edges lead to it from a root; it then
   * executes at iterations 0, 1, ... at most its component's cap (never more than 1000), and otherwise it is skipped
   * exactly once.
   */
  lemma ExecutedExactlyReachable(plan: Plan, m: Model, world: World, final: RunState, id: NodeId)
    requires Compiled(plan) && SettledRun(plan, m, world, final) && id in m.componentByNode
    requires IsModelOf(plan, m)
    ensures var trace := TraceOf(m, final.results, id);
            && (Runs(trace, id) > 0 <==> FromRoot(plan, m, final.edges, id))
            && Skips(trace, id) == (if Runs(trace, id) > 0 then 0 else 1)
            && InOrder(trace) && Runs(trace, id) <= 1000
  {
    hide IsModelOf, Compiled, Reach, FromRoot, Reached, Runs, Skips, InOrder, EntersInside;
    KnownComponent(plan, m, id);
    var k := m.componentByNode[id];
    var n := PositionOf(plan, m, k);
    assert Exact(plan, m, final.results, k, final.edges);
    CapBounded(plan, m, k);
    hide SettledRun;
    if Ran(m, final.results, id) {
      RunsReachable(plan, m, world, final, n, id);
    }
    if FromRoot(plan, m, final.edges, id) {
      ReachableRuns(plan, m, world, final, id);
    }
  }

  lemma KnownComponent(plan: Plan, m: Model, id: NodeId)
    requires id in m.componentByNode
    requires IsModelOf(plan, m)
    ensures m.componentByNode[id] < |m.components|
  {
    hide Topological, LeastReadyFirst, CoversPlan, Condensation, NodesOf, IterationCap, OutgoingOf, ComponentsLinked;
  }

  /**
   * How often a component of a compiled Flow may execute a node: as often as the largest loop policy of its nodes says,
   * and once if none has one.
   */
  lemma CapOfFlow(flow: Flow, binder: Binder, plan: Plan, m: Model, k: nat)
    requires DistinctIds(flow.nodes) && IsPlanOf(flow, binder, plan) && IsModelOf(plan, m) && k < |m.components|
    ensures m.components[k].maxIterations >= 1
    ensures forall n :: n in flow.nodes && n.loopMax.Some? && n.id in m.components[k].nodes ==>
              n.loopMax.value <= m.components[k].maxIterations
    ensures m.components[k].maxIterations > 1 ==>
              exists n :: n in flow.nodes && n.id in m.components[k].nodes
                          && n.loopMax == Some(m.components[k].maxIterations)
  {
    hide Topological, LeastReadyFirst, CoversPlan, Condensation, Grouped, OutgoingOf, ComponentsLinked, IsDecomposition,
         StrLess, EdgeLess;
    var cap := m.components[k].maxIterations;
    PlanKeeps(flow, binder, plan);
    PlanIdsDistinct(flow.nodes, binder, plan.nodes);
    assert IterationCap(m.nodes, m.components[k].nodes, cap);
    if cap > 1 {
      var id :| id in m.components[k].nodes && id in m.nodes && m.nodes[id].loopMaxIterations == cap;
      var node :| node in plan.nodes && node.id == id;
      assert node in BindAll(flow.nodes, binder);
      var i :| 0 <= i < |flow.nodes| && BindAll(flow.nodes, binder)[i] == node;
      assert flow.nodes[i] in flow.nodes && flow.nodes[i].loopMax == Some(cap);
    }
  }

  /** No component of a compiled plan may execute a node more than 1000 times. */
  lemma CapBounded(plan: Plan, m: Model, k: nat)
    requires Compiled(plan) && k < |m.components|
    requires IsModelOf(plan, m)
    ensures m.components[k].maxIterations <= 1000
  {
    hide Topological, LeastReadyFirst, CoversPlan, Condensation, Grouped, OutgoingOf, ComponentsLinked, IsDecomposition;
    var cap := m.components[k].maxIterations;
    assert IterationCap(m.nodes, m.components[k].nodes, cap);
    if cap != 1 {
      var id :| id in m.components[k].nodes && id in m.nodes && m.nodes[id].loopMaxIterations == cap;
      var node :| node in plan.nodes && node.id == id;
    }
  }
}
