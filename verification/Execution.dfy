/** Running one component: a single node, or the bounded worklist of a cyclic component. */
module Execution {
  import opened Graphs
  import opened Ordering
  import opened Tarjan
  import opened Compiler
  import opened Kahn
  import opened ComponentModel

  type Json = string

  datatype NodeResult =
    | Success(output: Json, activated: seq<bool>, rejected: bool)
    | Failure(error: string)

  /** The activities: executing a node at an iteration against the visible outputs, and recording a skip. */
  datatype World = World(exec: (NodeId, nat, map<NodeId, Json>) -> NodeResult, skipError: NodeId -> string)

  datatype Activity = Executed(id: NodeId, iteration: nat) | Skipped(id: NodeId)

  /** `edges` is the set of edge indices switched on; an empty `error` means none, as in the engine. */
  datatype ComponentResult = ComponentResult(edges: set<nat>, outputs: map<NodeId, Json>, rejected: bool,
                                             error: string, trace: seq<Activity>)

  const NOTHING := ComponentResult({}, map[], false, "", [])

  datatype Work = Work(queue: seq<NodeId>, counts: map<NodeId, nat>, local: map<NodeId, Json>, result: ComponentResult,
                       stopped: bool)

  // ---------------------------------------------------------------- the functional specification

  function Count(counts: map<NodeId, nat>, id: NodeId): nat {
    if id in counts then counts[id] else 0
  }

  /** The outgoing edges whose condition came out true; missing flags count as false. */
  function Activated(outgoing: seq<nat>, activated: seq<bool>): set<nat> {
    set p | 0 <= p < |outgoing| && p < |activated| && activated[p] :: outgoing[p]
  }

  function Recorded(result: ComponentResult, id: NodeId, iteration: nat, outgoing: seq<nat>,
                    done: NodeResult): ComponentResult
    requires done.Success?
  {
    result.(edges := result.edges + Activated(outgoing, done.activated), outputs := result.outputs[id := done.output],
            trace := result.trace + [Executed(id, iteration)])
  }

  /** What the engine needs of the model to run component k. */
  ghost predicate Usable(plan: Plan, m: Model, k: nat) {
    && k < |m.components|
    && m.components[k].nodes != [] && NoDuplicates(m.components[k].nodes) && m.components[k].maxIterations >= 1
    && (forall id :: id in m.components[k].nodes <==> id in m.componentByNode && m.componentByNode[id] == k)
    && (forall id, e: nat :: e in Outgoing(m.outgoing, id) <==> Leaves(plan.edges, |plan.edges|, e, id))
    && ValidEdges(plan, m.components[k].incoming) && (forall id :: ValidEdges(plan, Outgoing(m.outgoing, id)))
    && (forall e ::
          0 <= e < |plan.edges| && InComponent(m, k, plan.edges[e].from) && InComponent(m, k, plan.edges[e].to) ==>
            m.components[k].cyclic)
  }

  predicate ValidEdges(plan: Plan, edges: seq<nat>) {
    forall i :: 0 <= i < |edges| ==> edges[i] < |plan.edges|
  }

  predicate InComponent(m: Model, k: nat, id: NodeId) {
    id in m.componentByNode && m.componentByNode[id] == k
  }

  /** Adds `target` unless it is outside the component, exhausted, or already queued. */
  function Push(m: Model, k: nat, counts: map<NodeId, nat>, queue: seq<NodeId>, target: NodeId): seq<NodeId>
    requires k < |m.components|
  {
    if InComponent(m, k, target) && Count(counts, target) < m.components[k].maxIterations && target !in queue
    then queue + [target] else queue
  }

  function Enqueued(plan: Plan, m: Model, k: nat, counts: map<NodeId, nat>, queue: seq<NodeId>,
                    outgoing: seq<nat>, activated: seq<bool>): seq<NodeId>
    requires k < |m.components| && ValidEdges(plan, outgoing)
    decreases |outgoing|
  {
    if outgoing == [] then queue else
      var here := if activated != [] && activated[0] then Push(m, k, counts, queue, plan.edges[outgoing[0]].to)
          else queue;
      Enqueued(plan, m, k, counts, here, outgoing[1..], if activated == [] then [] else activated[1..])
  }

  /** One turn of the worklist loop. */
  function Step(plan: Plan, m: Model, k: nat, world: World, w: Work): Work
    requires Usable(plan, m, k) && w.queue != []
  {
    var id, rest := w.queue[0], w.queue[1..];
    var iteration := Count(w.counts, id);
    if iteration >= m.components[k].maxIterations then w.(queue := rest) else
    var counts := w.counts[id := iteration + 1];
    var outgoing := Outgoing(m.outgoing, id);
    match world.exec(id, iteration, w.local)
    case Failure(error) =>
      Work(rest, counts, w.local, w.result.(error := error, trace := w.result.trace + [Executed(id, iteration)]), true)
    case Success(output, activated, rejected) =>
      var result := Recorded(w.result, id, iteration, outgoing, Success(output, activated, rejected));
      if rejected then
        Work(rest, counts, w.local[id := output], result.(rejected := true), true)
      else
        Work(Enqueued(plan, m, k, counts, rest, outgoing, activated), counts, w.local[id := output], result, false)
  }

  ghost function Total(nodes: seq<NodeId>, counts: map<NodeId, nat>): nat {
    if nodes == [] then 0 else Count(counts, nodes[0]) + Total(nodes[1..], counts)
  }

  /** Executions still allowed by the iteration caps. */
  ghost function Budget(m: Model, k: nat, counts: map<NodeId, nat>): int
    requires k < |m.components|
  {
    |m.components[k].nodes| * m.components[k].maxIterations - Total(m.components[k].nodes, counts)
  }

  /** Queue discipline: no duplicates, only members of the component, all below the cap. */
  ghost predicate Disciplined(m: Model, k: nat, w: Work)
    requires k < |m.components|
  {
    && NoDuplicates(w.queue)
    && (forall id :: id in w.queue ==>
          id in m.components[k].nodes && Count(w.counts, id) < m.components[k].maxIterations)
    && (forall id :: id in w.counts ==>
          id in m.components[k].nodes && 0 < w.counts[id] <= m.components[k].maxIterations)
  }

  lemma {:induction false} TotalBump(nodes: seq<NodeId>, counts: map<NodeId, nat>, id: NodeId)
    requires NoDuplicates(nodes)
    ensures Total(nodes, counts[id := Count(counts, id) + 1]) == Total(nodes, counts) + if id in nodes then 1 else 0
  {
    if nodes != [] {
      assert nodes == [nodes[0]] + nodes[1..];
      assert nodes[0] !in nodes[1..];
      TotalBump(nodes[1..], counts, id);
    }
  }

  lemma {:induction false} TotalBound(nodes: seq<NodeId>, counts: map<NodeId, nat>, cap: nat)
    requires forall id :: id in nodes ==> Count(counts, id) <= cap
    ensures Total(nodes, counts) <= |nodes| * cap
  {
    hide Count;
    if nodes != [] {
      assert forall id :: id in nodes[1..] ==> id in nodes;
      assert nodes[0] in nodes;
      TotalBound(nodes[1..], counts, cap);
      OneMoreTimes(|nodes[1..]|, cap);
    }
  }

  lemma OneMoreTimes(n: nat, cap: nat)
    ensures (n + 1) * cap == n * cap + cap
  {
  }

  lemma {:induction false} EnqueuedDisciplined(plan: Plan, m: Model, k: nat, counts: map<NodeId, nat>,
                                               queue: seq<NodeId>,
                                               outgoing: seq<nat>, activated: seq<bool>)
    requires Usable(plan, m, k) && ValidEdges(plan, outgoing)
    requires NoDuplicates(queue)
    requires forall id :: id in queue ==>
               id in m.components[k].nodes && Count(counts, id) < m.components[k].maxIterations
    ensures var q := Enqueued(plan, m, k, counts, queue, outgoing, activated);
            && NoDuplicates(q) && queue <= q
            && (forall id :: id in q ==>
                  id in m.components[k].nodes && Count(counts, id) < m.components[k].maxIterations)
    decreases |outgoing|
  {
    if outgoing != [] {
      var here := if activated != [] && activated[0] then Push(m, k, counts, queue, plan.edges[outgoing[0]].to)
          else queue;
      EnqueuedDisciplined(plan, m, k, counts, here, outgoing[1..], if activated == [] then [] else activated[1..]);
    }
  }

  lemma StepDisciplined(plan: Plan, m: Model, k: nat, world: World, w: Work)
    requires Usable(plan, m, k) && Disciplined(m, k, w) && w.queue != []
    ensures Count(w.counts, w.queue[0]) < m.components[k].maxIterations
    ensures Disciplined(m, k, Step(plan, m, k, world, w))
    ensures Budget(m, k, Step(plan, m, k, world, w).counts) == Budget(m, k, w.counts) - 1
    ensures Budget(m, k, w.counts) >= 1
  {
    hide Step, Disciplined, Budget;
    StepQueue(plan, m, k, world, w);
    StepCounts(plan, m, k, world, w);
    BumpBudget(plan, m, k, w);
  }

  /** A turn of the queue's head. */
  lemma StepCounts(plan: Plan, m: Model, k: nat, world: World, w: Work)
    requires Usable(plan, m, k) && Disciplined(m, k, w) && w.queue != []
    ensures w.queue[0] in m.components[k].nodes && Count(w.counts, w.queue[0]) < m.components[k].maxIterations
    ensures Step(plan, m, k, world, w).counts == w.counts[w.queue[0] := Count(w.counts, w.queue[0]) + 1]
  {
    hide Enqueued, NoDuplicates, Recorded;
    assert w.queue[0] in w.queue;
  }

  lemma BumpBudget(plan: Plan, m: Model, k: nat, w: Work)
    requires Usable(plan, m, k) && Disciplined(m, k, w) && w.queue != []
    ensures var counts := w.counts[w.queue[0] := Count(w.counts, w.queue[0]) + 1];
            0 <= Budget(m, k, counts) == Budget(m, k, w.counts) - 1
  {
    hide Total, NoDuplicates;
    var nodes, cap := m.components[k].nodes, m.components[k].maxIterations;
    var counts := w.counts[w.queue[0] := Count(w.counts, w.queue[0]) + 1];
    assert w.queue[0] in w.queue;
    TotalBump(nodes, w.counts, w.queue[0]);
    TotalBound(nodes, counts, cap);
  }

  lemma StepQueue(plan: Plan, m: Model, k: nat, world: World, w: Work)
    requires Usable(plan, m, k) && Disciplined(m, k, w) && w.queue != []
    ensures Disciplined(m, k, Step(plan, m, k, world, w))
  {
    hide Enqueued, NoDuplicates, Recorded;
    var id, rest := w.queue[0], w.queue[1..];
    HeadDistinct(w.queue);
    var counts := w.counts[id := Count(w.counts, id) + 1];
    var done := world.exec(id, Count(w.counts, id), w.local);
    if done.Success? {
      EnqueuedDisciplined(plan, m, k, counts, rest, Outgoing(m.outgoing, id), done.activated);
    }
  }

  lemma HeadDistinct<T>(s: seq<T>)
    requires s != [] && NoDuplicates(s)
    ensures s[0] !in s[1..] && NoDuplicates(s[1..])
    ensures forall x :: x in s <==> x == s[0] || x in s[1..]
  {
    assert s == [s[0]] + s[1..];
  }

  /** The worklist loop. */
  ghost function Drain(plan: Plan, m: Model, k: nat, world: World, w: Work): Work
    requires Usable(plan, m, k) && Disciplined(m, k, w)
    decreases Budget(m, k, w.counts)
  {
    if w.queue == [] || w.stopped then w else
      StepDisciplined(plan, m, k, world, w);
      Drain(plan, m, k, world, Step(plan, m, k, world, w))
  }

  // ---------------------------------------------------------------- where a component starts, and its skips

  /** Targets of the incoming edges that are switched on, first occurrence first. */
  function Entries(plan: Plan, incoming: seq<nat>, on: set<nat>): seq<NodeId>
    requires ValidEdges(plan, incoming)
    decreases |incoming|
  {
    if incoming == [] then [] else
      var last := incoming[|incoming| - 1];
      var before := Entries(plan, incoming[..|incoming| - 1], on);
      if last in on && plan.edges[last].to !in before then before + [plan.edges[last].to] else before
  }

  function StartQueue(plan: Plan, c: Component, on: set<nat>): seq<NodeId>
    requires c.nodes != [] && ValidEdges(plan, c.incoming)
  {
    if c.incoming == [] then [c.nodes[0]] else Entries(plan, c.incoming, on)
  }

  /** A component runs when nothing enters it or some entering edge is switched on. */
  predicate ComponentActive(c: Component, on: set<nat>) {
    c.incoming == [] || exists e :: e in c.incoming && e in on
  }

  /** Records a skip for every member that never executed, stopping at the first error. */
  function SkipRest(world: World, nodes: seq<NodeId>, counts: map<NodeId, nat>,
                    result: ComponentResult): ComponentResult {
    if nodes == [] then result
    else if Count(counts, nodes[0]) != 0 then SkipRest(world, nodes[1..], counts, result)
    else if world.skipError(nodes[0]) != "" then result.(error := world.skipError(nodes[0]))
    else SkipRest(world, nodes[1..], counts, result.(trace := result.trace + [Skipped(nodes[0])]))
  }

  ghost function RunComponent(plan: Plan, m: Model, k: nat, world: World, on: set<nat>,
                              visible: map<NodeId, Json>): ComponentResult
    requires Usable(plan, m, k) && EntersInside(plan, m, k)
  {
    var c := m.components[k];
    if !ComponentActive(c, on) then SkipRest(world, c.nodes, map[], NOTHING)
    else if !c.cyclic then
      match world.exec(c.nodes[0], 0, visible)
      case Failure(error) => NOTHING.(error := error, trace := [Executed(c.nodes[0], 0)])
      case Success(output, activated, rejected) =>
        Recorded(NOTHING, c.nodes[0], 0, Outgoing(m.outgoing, c.nodes[0]),
            Success(output, activated, rejected)).(rejected := rejected)
    else
      var w := Drained(plan, m, k, world, on, visible);
      if w.stopped then w.result else SkipRest(world, c.nodes, w.counts, w.result)
  }

  /** The work state when the loop ends. */
  ghost function Drained(plan: Plan, m: Model, k: nat, world: World, on: set<nat>, visible: map<NodeId, Json>): Work
    requires Usable(plan, m, k) && EntersInside(plan, m, k)
  {
    StartDisciplined(plan, m, k, on, visible);
    Drain(plan, m, k, world, Starting(plan, m.components[k], on, visible))
  }

  /** Incoming edges end inside the component. */
  ghost predicate EntersInside(plan: Plan, m: Model, k: nat) {
    && k < |m.components|
    && forall e :: e in m.components[k].incoming ==> e < |plan.edges| && plan.edges[e].to in m.components[k].nodes
  }

  function Starting(plan: Plan, c: Component, on: set<nat>, visible: map<NodeId, Json>): Work
    requires c.nodes != [] && ValidEdges(plan, c.incoming)
  {
    Work(StartQueue(plan, c, on), map[], visible, NOTHING, false)
  }

  lemma {:induction false} EntriesFacts(plan: Plan, incoming: seq<nat>, on: set<nat>)
    requires ValidEdges(plan, incoming)
    ensures NoDuplicates(Entries(plan, incoming, on))
    ensures forall id :: id in Entries(plan, incoming, on) <==> EnteredBy(plan, incoming, on, id)
    decreases |incoming|
  {
    if incoming != [] {
      var last := incoming[|incoming| - 1];
      var init := incoming[..|incoming| - 1];
      EntriesFacts(plan, init, on);
      assert forall e :: e in incoming <==> e in init || e == last;
      hide NoDuplicates;
      if plan.edges[last].to !in Entries(plan, init, on) {
        AppendDistinct(Entries(plan, init, on), plan.edges[last].to);
      }
      forall id ensures EnteredBy(plan, incoming, on, id) <==>
                        EnteredBy(plan, init, on, id) || (last in on && plan.edges[last].to == id)
      {
        if EnteredBy(plan, incoming, on, id) {
          var e :| e in incoming && e in on && e < |plan.edges| && plan.edges[e].to == id;
          assert e in init || e == last;
        }
      }
    }
  }

  lemma AppendDistinct(s: seq<NodeId>, x: NodeId)
    requires NoDuplicates(s) && x !in s
    ensures NoDuplicates(s + [x])
  {
  }

  ghost predicate EnteredBy(plan: Plan, incoming: seq<nat>, on: set<nat>, id: NodeId) {
    exists e :: e in incoming && e in on && e < |plan.edges| && plan.edges[e].to == id
  }

  lemma StartDisciplined(plan: Plan, m: Model, k: nat, on: set<nat>, visible: map<NodeId, Json>)
    requires Usable(plan, m, k) && EntersInside(plan, m, k)
    ensures Disciplined(m, k, Starting(plan, m.components[k], on, visible))
  {
    EntriesFacts(plan, m.components[k].incoming, on);
  }
}
