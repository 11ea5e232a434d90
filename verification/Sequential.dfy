/** The run of a plan one component at a time in model order, and what any down-closed part of it fixes. */
module Sequential {
  import opened Graphs
  import opened Ordering
  import opened Tarjan
  import opened Compiler
  import opened Kahn
  import opened ComponentModel
  import opened Execution
  import opened ExecutionFacts
  import opened Locality

  datatype RunState = RunState(edges: set<nat>, outputs: map<NodeId, Json>, results: map<nat, ComponentResult>)

  /** A completed component's effects are merged unless it failed. */
  function Merged(state: RunState, k: nat, r: ComponentResult): RunState {
    RunState(if r.error == "" then state.edges + r.edges else state.edges,
             if r.error == "" then state.outputs + r.outputs else state.outputs,
             state.results[k := r])
  }

  lemma ModelUsable(plan: Plan, m: Model, k: nat)
    requires IsModelOf(plan, m) && k < |m.components|
    ensures Usable(plan, m, k) && EntersInside(plan, m, k)
  {
    hide StrLess, Topological, LeastReadyFirst, Condensation, NodesOf, CoversPlan, EdgeLess;
    var c := m.components[k];
    var groups := GroupsOf(m.components);
    assert groups[k] == c.nodes && IterationCap(m.nodes, c.nodes, c.maxIterations);
    assert ComponentLinked(plan.edges, m.componentByNode, |plan.edges|, k, c);
    forall id ensures ValidEdges(plan, Outgoing(m.outgoing, id)) {
      var outgoing := Outgoing(m.outgoing, id);
      assert OutgoingOf(plan.edges, id, outgoing);
      forall i | 0 <= i < |outgoing| ensures outgoing[i] < |plan.edges| {
        var e := outgoing[i];
        assert e in outgoing;
      }
    }
    forall id, e: nat ensures e in Outgoing(m.outgoing, id) <==> Leaves(plan.edges, |plan.edges|, e, id) {
      assert OutgoingOf(plan.edges, id, Outgoing(m.outgoing, id));
    }
    forall i | 0 <= i < |c.incoming| ensures c.incoming[i] < |plan.edges| && plan.edges[c.incoming[i]].to in c.nodes {
      var e := c.incoming[i];
      assert e in c.incoming;
      assert plan.edges[e].to in groups[m.componentByNode[plan.edges[e].to]];
    }
    forall e | 0 <= e < |plan.edges| && InComponent(m, k, plan.edges[e].from) && InComponent(m, k, plan.edges[e].to)
      ensures c.cyclic {
      assert Inside(plan.edges, m.componentByNode, e, k);
    }
  }

  /** The first n components of the order, run one after the other. */
  ghost function Prefix(plan: Plan, m: Model, world: World, n: nat): RunState
    requires IsModelOf(plan, m) && n <= |m.order|
  {
    if n == 0 then RunState({}, map[], map[]) else
      var before, k := Prefix(plan, m, world, n - 1), m.order[n - 1];
      assert k in m.order;
      ModelUsable(plan, m, k);
      Merged(before, k, RunComponent(plan, m, k, world, before.edges, before.outputs))
  }

  /** The whole order, one component after the other. */
  ghost function SequentialRun(plan: Plan, m: Model, world: World): RunState {
    if IsModelOf(plan, m) then Prefix(plan, m, world, |m.order|) else RunState({}, map[], map[])
  }

  ghost predicate AllOk(results: map<nat, ComponentResult>) {
    forall k :: k in results ==> Ok(results[k])
  }

  // ---------------------------------------------------------------- what a set of completed components fixes

  /** `edges` and `outputs` hold exactly what the components in `done` contributed. */
  ghost predicate Collected(results: map<nat, ComponentResult>, done: set<nat>, edges: set<nat>,
                            outputs: map<NodeId, Json>) {
    && done <= results.Keys
    && (forall e :: e in edges <==> exists c :: c in done && results[c].error == "" && e in results[c].edges)
    && (forall id :: id in outputs <==> exists c :: c in done && results[c].error == "" && id in results[c].outputs)
    && (forall id, c :: c in done && results[c].error == "" && id in results[c].outputs ==>
          id in outputs && outputs[id] == results[c].outputs[id])
  }

  /** The model's component graph. */
  ghost function Components(plan: Plan, m: Model): set<(nat, nat)> {
    if Endpoints(plan.edges, m.componentByNode, |plan.edges|)
    then Condensation(plan.edges, m.componentByNode, |plan.edges|) else {}
  }

  /** An edge either stays in its component or joins two in the component graph. */
  lemma ComponentEdge(plan: Plan, m: Model, i: nat)
    requires IsModelOf(plan, m) && i < |plan.edges|
    ensures plan.edges[i].from in m.componentByNode && plan.edges[i].to in m.componentByNode
    ensures var p, c := m.componentByNode[plan.edges[i].from], m.componentByNode[plan.edges[i].to];
            p == c || (p, c) in Components(plan, m)
  {
    hide Topological, LeastReadyFirst, ComponentsLinked, Grouped, CoversPlan;
  }

  lemma PredecessorsAre(plan: Plan, m: Model, k: nat)
    requires IsModelOf(plan, m) && k < |m.components|
    ensures forall p :: (p, k) in Components(plan, m) <==> p in Elements(m.components[k].predecessors)
  {
    assert ComponentLinked(plan.edges, m.componentByNode, |plan.edges|, k, m.components[k]);
    hide Topological, LeastReadyFirst, Grouped, CoversPlan, ComponentsLinked, Condensation;
  }

  ghost predicate DownClosed(edges: set<(nat, nat)>, done: set<nat>) {
    forall p, c :: (p, c) in edges && c in done ==> p in done
  }

  ghost predicate OwnResults(plan: Plan, m: Model, results: map<nat, ComponentResult>) {
    forall k :: k in results ==> k < |m.components| && Own(plan, m.components[k].nodes, results[k])
  }

  lemma CollectOne(plan: Plan, m: Model, results: map<nat, ComponentResult>, done: set<nat>, state: RunState, k: nat)
    requires IsModelOf(plan, m) && OwnResults(plan, m, results)
    requires Collected(results, done, state.edges, state.outputs) && k in results && k !in done
    ensures var after := Merged(state, k, results[k]); Collected(results, done + {k}, after.edges, after.outputs)
  {
    hide IsModelOf, OwnResults;
    forall id, c | c in done && c in results && id in results[c].outputs && id in results[k].outputs ensures c == k {
      OwnDisjoint(plan, m, results, c, k, id);
    }
    MergeCollected(results, done, state, k);
  }

  lemma MergeCollected(results: map<nat, ComponentResult>, done: set<nat>, state: RunState, k: nat)
    requires Collected(results, done, state.edges, state.outputs) && k in results && k !in done
    requires forall id, c :: c in done && c in results && id in results[c].outputs && id in results[k].outputs ==>
               c == k
    ensures var after := Merged(state, k, results[k]); Collected(results, done + {k}, after.edges, after.outputs)
  {
    var after := Merged(state, k, results[k]);
    forall e ensures e in after.edges <==>
             exists c :: c in done + {k} && results[c].error == "" && e in results[c].edges {
      if e in state.edges {
        var c :| c in done && results[c].error == "" && e in results[c].edges;
        assert c in done + {k};
      }
      assert k in done + {k};
    }
    forall id ensures id in after.outputs <==>
             exists c :: c in done + {k} && results[c].error == "" && id in results[c].outputs {
      if id in state.outputs {
        var c :| c in done && results[c].error == "" && id in results[c].outputs;
        assert c in done + {k};
      }
      assert k in done + {k};
    }
  }

  /** No node's output comes from two components. */
  lemma OwnDisjoint(plan: Plan, m: Model, results: map<nat, ComponentResult>, c: nat, k: nat, id: NodeId)
    requires IsModelOf(plan, m) && OwnResults(plan, m, results)
    requires c in results && k in results && id in results[c].outputs && id in results[k].outputs
    ensures c == k
  {
    hide IsModelOf;
    ModelUsable(plan, m, c);
    ModelUsable(plan, m, k);
  }

  // ---------------------------------------------------------------- the prefix states

  lemma PrefixResults(plan: Plan, m: Model, world: World, n: nat)
    requires IsModelOf(plan, m) && n <= |m.order|
    ensures Prefix(plan, m, world, n).results.Keys == Elements(m.order[..n])
    ensures OwnResults(plan, m, Prefix(plan, m, world, n).results)
  {
    hide IsModelOf, RunComponent, Own, Usable, EntersInside;
    if n > 0 {
      PrefixResults(plan, m, world, n - 1);
      var before, k := Prefix(plan, m, world, n - 1), m.order[n - 1];
      OrderMember(plan, m, n - 1);
      ModelUsable(plan, m, k);
      RunOwn(plan, m, k, world, before.edges, before.outputs);
      assert m.order[..n] == m.order[..n - 1] + [k];
      assert Elements(m.order[..n]) == Elements(m.order[..n - 1]) + {k};
    }
  }

  lemma OrderMember(plan: Plan, m: Model, i: nat)
    requires IsModelOf(plan, m) && i < |m.order|
    ensures m.order[i] < |m.components| && m.order[i] !in m.order[..i]
  {
    hide Topological, LeastReadyFirst, Condensation, ComponentsLinked, Grouped, CoversPlan;
    assert m.order[i] in m.order;
  }

  /** Later components do not change earlier results. */
  lemma {:induction false} PrefixStable(plan: Plan, m: Model, world: World, n: nat, later: nat, k: nat)
    requires IsModelOf(plan, m) && n <= later <= |m.order| && k in m.order[..n]
    ensures k in Prefix(plan, m, world, n).results && k in Prefix(plan, m, world, later).results
    ensures Prefix(plan, m, world, later).results[k] == Prefix(plan, m, world, n).results[k]
    decreases later - n
  {
    hide IsModelOf, OwnResults, Usable, EntersInside, RunComponent;
    PrefixResults(plan, m, world, n);
    assert k in Elements(m.order[..n]);
    if n < later {
      PrefixStable(plan, m, world, n, later - 1, k);
      NotAgain(plan, m, n, later - 1, k);
    }
  }

  lemma NotAgain(plan: Plan, m: Model, n: nat, i: nat, k: nat)
    requires IsModelOf(plan, m) && n <= i < |m.order| && k in m.order[..n]
    ensures m.order[i] != k && m.order[i] < |m.components|
  {
    hide IsModelOf;
    OrderMember(plan, m, i);
    var j :| 0 <= j < n && m.order[j] == k;
    assert m.order[..i][j] == k;
  }

  /** Each prefix state collects exactly what its components contributed. */
  lemma {:induction false} PrefixCollected(plan: Plan, m: Model, world: World, n: nat)
    requires IsModelOf(plan, m) && n <= |m.order|
    ensures var state := Prefix(plan, m, world, n);
            Collected(state.results, Elements(m.order[..n]), state.edges, state.outputs)
  {
    hide IsModelOf, RunComponent, Usable, EntersInside, OwnResults;
    if n == 0 {
      assert Elements(m.order[..0]) == {};
    } else {
      PrefixCollected(plan, m, world, n - 1);
      PrefixResults(plan, m, world, n - 1);
      PrefixResults(plan, m, world, n);
      var before, after, k := Prefix(plan, m, world, n - 1), Prefix(plan, m, world, n), m.order[n - 1];
      OrderMember(plan, m, n - 1);
      assert m.order[..n] == m.order[..n - 1] + [k];
      assert Elements(m.order[..n]) == Elements(m.order[..n - 1]) + {k};
      CollectedExtends(before.results, after.results, Elements(m.order[..n - 1]), before.edges, before.outputs);
      CollectOne(plan, m, after.results, Elements(m.order[..n - 1]), before, k);
      hide Collected;
    }
  }

  lemma CollectedExtends(results: map<nat, ComponentResult>, more: map<nat, ComponentResult>, done: set<nat>,
                         edges: set<nat>, outputs: map<NodeId, Json>)
    requires Collected(results, done, edges, outputs)
    requires forall k :: k in done ==> k in more && more[k] == results[k]
    ensures Collected(more, done, edges, outputs)
  {
  }

  /** The prefix before position n, read off the final results. */
  lemma PrefixOfFinal(plan: Plan, m: Model, world: World, n: nat)
    requires IsModelOf(plan, m) && n <= |m.order|
    ensures var state, final := Prefix(plan, m, world, n), SequentialRun(plan, m, world);
            Collected(final.results, Elements(m.order[..n]), state.edges, state.outputs)
  {
    hide IsModelOf, Collected, Prefix;
    PrefixCollected(plan, m, world, n);
    var state, final := Prefix(plan, m, world, n), SequentialRun(plan, m, world);
    forall k | k in Elements(m.order[..n]) ensures k in final.results && k in state.results
           && final.results[k] == state.results[k] {
      PrefixStable(plan, m, world, n, |m.order|, k);
    }
    CollectedExtends(state.results, final.results, Elements(m.order[..n]), state.edges, state.outputs);
  }

  lemma FinalResult(plan: Plan, m: Model, world: World, n: nat)
    requires IsModelOf(plan, m) && n < |m.order|
    ensures var state, final, k := Prefix(plan, m, world, n), SequentialRun(plan, m, world), m.order[n];
            && k < |m.components| && Usable(plan, m, k) && EntersInside(plan, m, k)
            && k in final.results && final.results[k] == RunComponent(plan, m, k, world, state.edges, state.outputs)
  {
    hide IsModelOf;
    OrderMember(plan, m, n);
    ModelUsable(plan, m, m.order[n]);
    assert m.order[..n + 1][n] == m.order[n];
    PrefixStable(plan, m, world, n + 1, |m.order|, m.order[n]);
  }

  lemma OrderComplete(plan: Plan, m: Model)
    requires IsModelOf(plan, m)
    ensures Elements(m.order) == Below(|m.components|) && NoDuplicates(m.order)
  {
    hide Topological, LeastReadyFirst, Condensation, ComponentsLinked, Grouped, CoversPlan, NodesOf, NoDuplicates,
         IterationCap, OutgoingOf;
    BoundedDistinct(m.order, |m.components|);
  }

  lemma EveryComponent(plan: Plan, m: Model, world: World)
    requires IsModelOf(plan, m)
    ensures Elements(m.order) == Below(|m.components|)
            && SequentialRun(plan, m, world).results.Keys == Below(|m.components|)
    ensures OwnResults(plan, m, SequentialRun(plan, m, world).results)
  {
    hide IsModelOf, Prefix, OwnResults, Below, Elements;
    OrderComplete(plan, m);
    PrefixResults(plan, m, world, |m.order|);
    assert m.order[..|m.order|] == m.order;
  }

  // ---------------------------------------------------------------- ancestors

  /** A path between nodes is a path between their components. */
  lemma NodePathComponents(plan: Plan, m: Model, a: NodeId, id: NodeId)
    requires IsModelOf(plan, m) && a in m.componentByNode && Reach(Pairs(plan.edges), a, id)
    ensures id in m.componentByNode && Reach(Components(plan, m), m.componentByNode[a], m.componentByNode[id])
  {
    hide IsModelOf, Reach, Components;
    var byNode, edges, condensation := m.componentByNode, Pairs(plan.edges), Components(plan, m);
    var region := set x | x in byNode && Reach(condensation, byNode[a], byNode[x]);
    ReachSelf(condensation, byNode[a]);
    forall u, v | (u, v) in edges && u in region ensures v in region {
      var e :| e in plan.edges && e.from == u && e.to == v;
      var i :| 0 <= i < |plan.edges| && plan.edges[i] == e;
      ComponentEdge(plan, m, i);
      if byNode[u] != byNode[v] {
        ReachEdge(condensation, byNode[u], byNode[v]);
        ReachTrans(condensation, byNode[a], byNode[u], byNode[v]);
      }
    }
    ReachClosed(edges, region, a, id);
  }

  /** Everything leading to a node of the plan is a node of the plan. */
  lemma AncestorKnown(plan: Plan, m: Model, a: NodeId, id: NodeId)
    requires IsModelOf(plan, m) && id in m.componentByNode && Reach(Pairs(plan.edges), a, id)
    ensures a in m.componentByNode
  {
    hide IsModelOf, Reach;
    forall x, y | (x, y) in Pairs(plan.edges) && y in m.componentByNode.Keys ensures x in m.componentByNode.Keys {
      var e :| e in plan.edges && e.from == x && e.to == y;
      var i :| 0 <= i < |plan.edges| && plan.edges[i] == e;
      ComponentEdge(plan, m, i);
    }
    ReachClosedBackward(Pairs(plan.edges), m.componentByNode.Keys, a, id);
  }

  /** Every component leading to k is complete once k's direct predecessors and everything before them are. */
  lemma AncestorDone(edges: set<(nat, nat)>, done: set<nat>, k: nat, c: nat)
    requires DownClosed(edges, done) && Reach(edges, c, k)
    requires forall p :: (p, k) in edges ==> p in done
    ensures c == k || c in done
  {
    hide Reach;
    ReachClosedBackward(edges, done + {k}, c, k);
  }

  // ---------------------------------------------------------------- the result is fixed by the ancestors

  /** Any two points at which k may start show it the same incoming edges and the same ancestor outputs. */
  lemma SameStart(plan: Plan, m: Model, world: World, results: map<nat, ComponentResult>, k: nat,
                  done: set<nat>, edges: set<nat>, outputs: map<NodeId, Json>,
                  done': set<nat>, edges': set<nat>, outputs': map<NodeId, Json>)
    requires IsModelOf(plan, m) && OwnResults(plan, m, results) && k < |m.components| && k !in done && k !in done'
    requires Collected(results, done, edges, outputs) && Collected(results, done', edges', outputs')
    requires DownClosed(Components(plan, m), done) && DownClosed(Components(plan, m), done')
    requires forall p :: (p, k) in Components(plan, m) ==> p in done && p in done'
    ensures forall e :: e in m.components[k].incoming ==> (e in edges <==> e in edges')
    ensures AgreeFor(plan, m.components[k].nodes, outputs, outputs')
  {
    hide IsModelOf;
    forall e | e in m.components[k].incoming ensures e in edges <==> e in edges' {
      IncomingSource(plan, m, results, k, e, done, edges, outputs);
      IncomingSource(plan, m, results, k, e, done', edges', outputs');
    }
    ModelUsable(plan, m, k);
    forall id, a | id in m.components[k].nodes && Reach(Pairs(plan.edges), a, id)
      ensures (a in outputs <==> a in outputs') && (a in outputs ==> outputs[a] == outputs'[a])
    {
      AncestorOutput(plan, m, results, k, id, a, done, edges, outputs);
      AncestorOutput(plan, m, results, k, id, a, done', edges', outputs');
    }
    hide Reach, Collected, OwnResults, DownClosed, Usable, EntersInside;
  }

  lemma IncomingSource(plan: Plan, m: Model, results: map<nat, ComponentResult>, k: nat, e: nat,
                       done: set<nat>, edges: set<nat>, outputs: map<NodeId, Json>)
    requires IsModelOf(plan, m) && OwnResults(plan, m, results) && k < |m.components| && k !in done
    requires Collected(results, done, edges, outputs)
    requires forall p :: (p, k) in Components(plan, m) ==> p in done
    requires e in m.components[k].incoming
    ensures e < |plan.edges| && plan.edges[e].from in m.componentByNode
    ensures var p := m.componentByNode[plan.edges[e].from];
            (p, k) in Components(plan, m) && p in results
                && (e in edges <==> results[p].error == "" && e in results[p].edges)
  {
    EdgeSource(plan, m, k, e);
    var p := m.componentByNode[plan.edges[e].from];
    hide IsModelOf;
    if e in edges {
      var c :| c in done && results[c].error == "" && e in results[c].edges;
      ModelUsable(plan, m, c);
      assert plan.edges[e].from in m.components[c].nodes;
    }
  }

  lemma EdgeSource(plan: Plan, m: Model, k: nat, e: nat)
    requires IsModelOf(plan, m) && k < |m.components| && e in m.components[k].incoming
    ensures e < |plan.edges| && plan.edges[e].from in m.componentByNode && plan.edges[e].to in m.componentByNode
    ensures m.componentByNode[plan.edges[e].to] == k
            && (m.componentByNode[plan.edges[e].from], k) in Components(plan, m)
  {
    assert ComponentLinked(plan.edges, m.componentByNode, |plan.edges|, k, m.components[k]);
    hide Topological, LeastReadyFirst, Grouped, CoversPlan, ComponentsLinked;
    assert Crosses(plan.edges, m.componentByNode, e, k);
  }

  lemma AncestorOutput(plan: Plan, m: Model, results: map<nat, ComponentResult>, k: nat, id: NodeId, a: NodeId,
                       done: set<nat>, edges: set<nat>, outputs: map<NodeId, Json>)
    requires IsModelOf(plan, m) && OwnResults(plan, m, results) && k < |m.components| && k !in done
    requires Collected(results, done, edges, outputs) && DownClosed(Components(plan, m), done)
    requires forall p :: (p, k) in Components(plan, m) ==> p in done
    requires id in m.components[k].nodes && Reach(Pairs(plan.edges), a, id)
    ensures a in m.componentByNode
    ensures var c := m.componentByNode[a];
            && (c == k || c in results)
            && (a in outputs <==> c != k && results[c].error == "" && a in results[c].outputs)
            && (a in outputs ==> outputs[a] == results[c].outputs[a])
  {
    hide IsModelOf, Reach;
    ModelUsable(plan, m, k);
    AncestorKnown(plan, m, a, id);
    NodePathComponents(plan, m, a, id);
    var c := m.componentByNode[a];
    AncestorDone(Components(plan, m), done, k, c);
    if a in outputs {
      var d :| d in done && results[d].error == "" && a in results[d].outputs;
      ModelUsable(plan, m, d);
      assert a in m.components[d].nodes;
    }
  }

  /** Whenever k may start, it produces the result it has in the sequential run. */
  lemma StartDeterminesResult(plan: Plan, m: Model, world: World, k: nat, done: set<nat>, edges: set<nat>,
                              outputs: map<NodeId, Json>)
    requires IsModelOf(plan, m) && ReadsAncestors(plan, world) && k < |m.components| && k !in done
    requires Collected(SequentialRun(plan, m, world).results, done, edges, outputs)
    requires DownClosed(Components(plan, m), done) && forall p :: (p, k) in Components(plan, m) ==> p in done
    ensures Usable(plan, m, k) && EntersInside(plan, m, k)
    ensures k in SequentialRun(plan, m, world).results
    ensures RunComponent(plan, m, k, world, edges, outputs) == SequentialRun(plan, m, world).results[k]
  {
    hide ReadsAncestors, Collected, Prefix;
    var results := SequentialRun(plan, m, world).results;
    var n := PositionOf(plan, m, k);
    PrefixResults(plan, m, world, |m.order|);
    PrefixOfFinal(plan, m, world, n);
    FinalResult(plan, m, world, n);
    PrefixDownClosed(plan, m, n);
    OrderMember(plan, m, n);
    var before := Prefix(plan, m, world, n);
    hide IsModelOf;
    SameStart(plan, m, world, results, k, done, edges, outputs, Elements(m.order[..n]), before.edges, before.outputs);
    RunLocal(plan, m, k, world, edges, outputs, before.edges, before.outputs);
  }

  lemma PositionOf(plan: Plan, m: Model, k: nat) returns (n: nat)
    requires IsModelOf(plan, m) && k < |m.components|
    ensures n < |m.order| && m.order[n] == k
  {
    hide Topological, LeastReadyFirst, Condensation, ComponentsLinked, Grouped, CoversPlan;
    BoundedDistinct(m.order, |m.components|);
    assert k in m.order;
    n :| n < |m.order| && m.order[n] == k;
  }

  lemma PrefixDownClosed(plan: Plan, m: Model, n: nat)
    requires IsModelOf(plan, m) && n <= |m.order|
    ensures DownClosed(Components(plan, m), Elements(m.order[..n]))
    ensures n < |m.order| ==> forall p :: (p, m.order[n]) in Components(plan, m) ==> p in Elements(m.order[..n])
  {
    hide LeastReadyFirst, Condensation, ComponentsLinked, Grouped, CoversPlan;
    forall p, c | (p, c) in Components(plan, m) && c in Elements(m.order[..n]) ensures p in Elements(m.order[..n]) {
      var i :| 0 <= i < n && m.order[i] == c;
      var j :| 0 <= j < i && m.order[..i][j] == p;
      assert m.order[..n][j] == p;
    }
  }
}
