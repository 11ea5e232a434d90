/** A component's run depends only on its incoming edges and on what its ancestors produced. */
module Locality {
  import opened Graphs
  import opened Ordering
  import opened Tarjan
  import opened Compiler
  import opened Kahn
  import opened ComponentModel
  import opened Execution

  /** Two sets of outputs look the same from `id`: they agree on every node that leads to it. */
  ghost predicate AgreeOn(plan: Plan, id: NodeId, one: map<NodeId, Json>, two: map<NodeId, Json>) {
    forall a :: Reach(Pairs(plan.edges), a, id) ==> (a in one <==> a in two) && (a in one ==> one[a] == two[a])
  }

  ghost predicate AgreeFor(plan: Plan, nodes: seq<NodeId>, one: map<NodeId, Json>, two: map<NodeId, Json>) {
    forall id :: id in nodes ==> AgreeOn(plan, id, one, two)
  }

  /** Executing a node uses only outputs of its predecessors, as input mappings are checked to. */
  ghost predicate ReadsAncestors(plan: Plan, world: World) {
    forall id, iteration, one, two :: AgreeOn(plan, id, one, two) ==>
             world.exec(id, iteration, one) == world.exec(id, iteration, two)
  }

  ghost predicate Alike(plan: Plan, m: Model, k: nat, v: Work, w: Work)
    requires k < |m.components|
  {
    && v.queue == w.queue && v.counts == w.counts && v.result == w.result && v.stopped == w.stopped
    && AgreeFor(plan, m.components[k].nodes, v.local, w.local)
  }

  lemma AgreeUpdate(plan: Plan, nodes: seq<NodeId>, one: map<NodeId, Json>, two: map<NodeId, Json>, id: NodeId,
                    output: Json)
    requires AgreeFor(plan, nodes, one, two)
    ensures AgreeFor(plan, nodes, one[id := output], two[id := output])
  {
    hide Reach;
    forall x | x in nodes ensures AgreeOn(plan, x, one[id := output], two[id := output]) {
      assert AgreeOn(plan, x, one, two);
    }
  }

  lemma StepLocal(plan: Plan, m: Model, k: nat, world: World, v: Work, w: Work)
    requires Usable(plan, m, k) && ReadsAncestors(plan, world) && Disciplined(m, k, v) && v.queue != []
    requires Alike(plan, m, k, v, w)
    ensures Alike(plan, m, k, Step(plan, m, k, world, v), Step(plan, m, k, world, w))
  {
    var id := v.queue[0];
    assert id in v.queue && AgreeOn(plan, id, v.local, w.local);
    assert world.exec(id, Count(v.counts, id), v.local) == world.exec(id, Count(v.counts, id), w.local);
    var done := world.exec(id, Count(v.counts, id), v.local);
    if done.Success? {
      AgreeUpdate(plan, m.components[k].nodes, v.local, w.local, id, done.output);
    }
    hide AgreeFor, AgreeOn, Enqueued, Disciplined, ReadsAncestors;
  }

  lemma {:induction false} DrainLocal(plan: Plan, m: Model, k: nat, world: World, v: Work, w: Work)
    requires Usable(plan, m, k) && ReadsAncestors(plan, world) && Disciplined(m, k, v) && Disciplined(m, k, w)
    requires Alike(plan, m, k, v, w)
    ensures Alike(plan, m, k, Drain(plan, m, k, world, v), Drain(plan, m, k, world, w))
    decreases Budget(m, k, v.counts)
  {
    hide AgreeFor, Usable, Disciplined, ReadsAncestors, Step;
    if v.queue != [] && !v.stopped {
      StepDisciplined(plan, m, k, world, v);
      StepDisciplined(plan, m, k, world, w);
      StepLocal(plan, m, k, world, v, w);
      DrainLocal(plan, m, k, world, Step(plan, m, k, world, v), Step(plan, m, k, world, w));
    }
  }

  lemma {:induction false} EntriesLocal(plan: Plan, incoming: seq<nat>, on: set<nat>, on': set<nat>)
    requires ValidEdges(plan, incoming)
    requires forall e :: e in incoming ==> (e in on <==> e in on')
    ensures Entries(plan, incoming, on) == Entries(plan, incoming, on')
    decreases |incoming|
  {
    if incoming != [] {
      var init := incoming[..|incoming| - 1];
      assert forall e :: e in init ==> e in incoming;
      assert incoming[|incoming| - 1] in incoming;
      EntriesLocal(plan, init, on, on');
    }
  }

  /** The snapshot a component is started with matters only through its incoming edges and its ancestors. */
  lemma RunLocal(plan: Plan, m: Model, k: nat, world: World, on: set<nat>, visible: map<NodeId, Json>, on': set<nat>,
                 visible': map<NodeId, Json>)
    requires Usable(plan, m, k) && EntersInside(plan, m, k) && ReadsAncestors(plan, world)
    requires forall e :: e in m.components[k].incoming ==> (e in on <==> e in on')
    requires AgreeFor(plan, m.components[k].nodes, visible, visible')
    ensures RunComponent(plan, m, k, world, on, visible) == RunComponent(plan, m, k, world, on', visible')
  {
    var c := m.components[k];
    EntriesLocal(plan, c.incoming, on, on');
    assert ComponentActive(c, on) == ComponentActive(c, on');
    StartDisciplined(plan, m, k, on, visible);
    StartDisciplined(plan, m, k, on', visible');
    DrainLocal(plan, m, k, world, Starting(plan, c, on, visible), Starting(plan, c, on', visible'));
    assert c.nodes[0] in c.nodes && AgreeOn(plan, c.nodes[0], visible, visible');
    assert world.exec(c.nodes[0], 0, visible) == world.exec(c.nodes[0], 0, visible');
    hide AgreeFor, AgreeOn, ReadsAncestors, Drain, Disciplined, Usable;
  }

  // ---------------------------------------------------------------- a component writes only its own

  /** Outputs belong to members, and switched-on edges leave members. */
  ghost predicate Own(plan: Plan, nodes: seq<NodeId>, r: ComponentResult) {
    && (forall id :: id in r.outputs ==> id in nodes)
    && (forall e :: e in r.edges ==> e < |plan.edges| && plan.edges[e].from in nodes)
  }

  lemma RecordedOwn(plan: Plan, m: Model, k: nat, r: ComponentResult, id: NodeId, iteration: nat, done: NodeResult)
    requires Usable(plan, m, k) && Own(plan, m.components[k].nodes, r) && id in m.components[k].nodes && done.Success?
    ensures Own(plan, m.components[k].nodes, Recorded(r, id, iteration, Outgoing(m.outgoing, id), done))
  {
    var outgoing := Outgoing(m.outgoing, id);
    forall e | e in Activated(outgoing, done.activated) ensures e < |plan.edges| && plan.edges[e].from == id {
      var p :| 0 <= p < |outgoing| && p < |done.activated| && done.activated[p] && outgoing[p] == e;
      assert e in Outgoing(m.outgoing, id);
    }
  }

  lemma {:induction false} DrainOwn(plan: Plan, m: Model, k: nat, world: World, w: Work)
    requires Usable(plan, m, k) && Disciplined(m, k, w) && Own(plan, m.components[k].nodes, w.result)
    ensures Own(plan, m.components[k].nodes, Drain(plan, m, k, world, w).result)
    decreases Budget(m, k, w.counts)
  {
    if w.queue != [] && !w.stopped {
      StepDisciplined(plan, m, k, world, w);
      var id := w.queue[0];
      assert id in w.queue;
      var done := world.exec(id, Count(w.counts, id), w.local);
      if done.Success? {
        RecordedOwn(plan, m, k, w.result, id, Count(w.counts, id), done);
      }
      hide Usable, Disciplined, Enqueued, Activated;
      DrainOwn(plan, m, k, world, Step(plan, m, k, world, w));
    }
  }

  lemma {:induction false} SkipRestOwn(plan: Plan, world: World, nodes: seq<NodeId>, counts: map<NodeId, nat>,
                                       r: ComponentResult)
    ensures SkipRest(world, nodes, counts, r).outputs == r.outputs && SkipRest(world, nodes, counts, r).edges == r.edges
  {
    if nodes != [] {
      SkipRestOwn(plan, world, nodes[1..], counts, r);
      SkipRestOwn(plan, world, nodes[1..], counts, r.(trace := r.trace + [Skipped(nodes[0])]));
    }
  }

  lemma RunOwn(plan: Plan, m: Model, k: nat, world: World, on: set<nat>, visible: map<NodeId, Json>)
    requires Usable(plan, m, k) && EntersInside(plan, m, k)
    ensures Own(plan, m.components[k].nodes, RunComponent(plan, m, k, world, on, visible))
  {
    var c := m.components[k];
    SkipRestOwn(plan, world, c.nodes, map[], NOTHING);
    var done := world.exec(c.nodes[0], 0, visible);
    if done.Success? {
      RecordedOwn(plan, m, k, NOTHING, c.nodes[0], 0, done);
    }
    StartDisciplined(plan, m, k, on, visible);
    DrainOwn(plan, m, k, world, Starting(plan, c, on, visible));
    var w := Drained(plan, m, k, world, on, visible);
    SkipRestOwn(plan, world, c.nodes, w.counts, w.result);
    hide Drain, SkipRest, Recorded, Usable;
  }
}
