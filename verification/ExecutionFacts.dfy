/** What one component's run guarantees: which members execute, how often, and along which edges. */
module ExecutionFacts {
  import opened Graphs
  import opened Ordering
  import opened Tarjan
  import opened Compiler
  import opened ComponentModel
  import opened Execution

  // ---------------------------------------------------------------- reading a trace

  ghost function Runs(trace: seq<Activity>, id: NodeId): nat {
    if trace == [] then 0 else
      var last := trace[|trace| - 1];
      Runs(trace[..|trace| - 1], id) + if last.Executed? && last.id == id then 1 else 0
  }

  ghost function Skips(trace: seq<Activity>, id: NodeId): nat {
    if trace == [] then 0 else
      var last := trace[|trace| - 1];
      Skips(trace[..|trace| - 1], id) + if last.Skipped? && last.id == id then 1 else 0
  }

  /** Each execution carries as its iteration the number of earlier executions of the same node. */
  ghost predicate InOrder(trace: seq<Activity>) {
    forall i :: 0 <= i < |trace| && trace[i].Executed? ==> trace[i].iteration == Runs(trace[..i], trace[i].id)
  }

  lemma TraceAppend(trace: seq<Activity>, a: Activity)
    ensures forall id :: Runs(trace + [a], id) == Runs(trace, id) + if a.Executed? && a.id == id then 1 else 0
    ensures forall id :: Skips(trace + [a], id) == Skips(trace, id) + if a.Skipped? && a.id == id then 1 else 0
    ensures InOrder(trace) && (a.Executed? ==> a.iteration == Runs(trace, a.id)) ==> InOrder(trace + [a])
  {
    var longer := trace + [a];
    assert longer[..|trace|] == trace;
    assert forall i :: 0 <= i < |trace| ==> longer[..i] == trace[..i];
  }

  // ---------------------------------------------------------------- the log agrees with the counters

  ghost predicate Logged(m: Model, k: nat, w: Work)
    requires k < |m.components|
  {
    && InOrder(w.result.trace)
    && (forall id :: Runs(w.result.trace, id) == Count(w.counts, id) && Skips(w.result.trace, id) == 0)
    && |w.result.trace| == Total(m.components[k].nodes, w.counts)
  }

  lemma StepLogged(plan: Plan, m: Model, k: nat, world: World, w: Work)
    requires Usable(plan, m, k) && Disciplined(m, k, w) && w.queue != [] && Logged(m, k, w)
    ensures Logged(m, k, Step(plan, m, k, world, w))
  {
    hide Runs, Skips, InOrder, Enqueued, Total, Disciplined, NoDuplicates;
    StepDisciplined(plan, m, k, world, w);
    var id := w.queue[0];
    var iteration := Count(w.counts, id);
    var next := Step(plan, m, k, world, w);
    assert next.counts == w.counts[id := iteration + 1];
    assert next.result.trace == w.result.trace + [Executed(id, iteration)];
    QueuedMember(m, k, w);
    TotalBump(m.components[k].nodes, w.counts, id);
    hide Step, Usable;
    TraceAppend(w.result.trace, Executed(id, iteration));
  }

  lemma QueuedMember(m: Model, k: nat, w: Work)
    requires k < |m.components| && Disciplined(m, k, w) && w.queue != []
    ensures w.queue[0] in m.components[k].nodes
  {
    assert w.queue[0] in w.queue;
  }

  lemma {:induction false} DrainLogged(plan: Plan, m: Model, k: nat, world: World, w: Work)
    requires Usable(plan, m, k) && Disciplined(m, k, w) && Logged(m, k, w)
    ensures var final := Drain(plan, m, k, world, w);
            Disciplined(m, k, final) && Logged(m, k, final) && (final.queue == [] || final.stopped)
    decreases Budget(m, k, w.counts)
  {
    hide Usable, Disciplined, Logged, Step;
    if w.queue != [] && !w.stopped {
      StepDisciplined(plan, m, k, world, w);
      StepLogged(plan, m, k, world, w);
      DrainLogged(plan, m, k, world, Step(plan, m, k, world, w));
    }
  }

  // ---------------------------------------------------------------- the skips at the end

  lemma {:induction false} SkipRestFacts(world: World, nodes: seq<NodeId>, counts: map<NodeId, nat>,
                                         result: ComponentResult)
    requires NoDuplicates(nodes) && InOrder(result.trace)
    requires forall id :: id in nodes ==> Skips(result.trace, id) == 0
    ensures var r := SkipRest(world, nodes, counts, result);
            && r.edges == result.edges && r.outputs == result.outputs && r.rejected == result.rejected
                && InOrder(r.trace)
            && (forall id :: Runs(r.trace, id) == Runs(result.trace, id))
            && (forall id :: id !in nodes ==> Skips(r.trace, id) == Skips(result.trace, id))
            && (r.error == "" ==>
                  forall id :: id in nodes ==> Skips(r.trace, id) == if Count(counts, id) == 0 then 1 else 0)
            && (result.error != "" ==> r.error != "")
  {
    hide InOrder, Runs, Skips;
    if nodes != [] {
      HeadDistinct(nodes);
      var id := nodes[0];
      if Count(counts, id) != 0 {
        SkipRestFacts(world, nodes[1..], counts, result);
      } else if world.skipError(id) == "" {
        TraceAppend(result.trace, Skipped(id));
        SkipRestFacts(world, nodes[1..], counts, result.(trace := result.trace + [Skipped(id)]));
      }
    }
  }

  // ---------------------------------------------------------------- which members execute

  /** The pairs of nodes joined by an edge that is switched on. */
  ghost function ActivePairs(plan: Plan, on: set<nat>): set<(NodeId, NodeId)> {
    set e | e in on && e < |plan.edges| :: (plan.edges[e].from, plan.edges[e].to)
  }

  /** id is led to by switched-on edges from one of the entry nodes. */
  ghost predicate FromEntry(plan: Plan, on: set<nat>, entries: seq<NodeId>, id: NodeId) {
    exists s :: s in entries && Reach(ActivePairs(plan, on), s, id)
  }

  ghost predicate Scheduled(w: Work, id: NodeId) {
    id in w.counts || id in w.queue
  }

  /** The worklist has executed or queued exactly what the switched-on edges lead to from the entries. */
  ghost predicate Explained(plan: Plan, m: Model, k: nat, entries: seq<NodeId>, w: Work) {
    && (forall e :: e in w.result.edges ==> e < |plan.edges| && plan.edges[e].from in w.counts)
    && (forall e :: e in w.result.edges && InComponent(m, k, plan.edges[e].to) ==> Scheduled(w, plan.edges[e].to))
    && (forall s :: s in entries ==> Scheduled(w, s))
    && (forall id :: Scheduled(w, id) ==> FromEntry(plan, w.result.edges, entries, id))
    && w.result.outputs.Keys == w.counts.Keys
    && !w.result.rejected && w.result.error == ""
  }

  ghost predicate TargetOf(plan: Plan, outgoing: seq<nat>, activated: seq<bool>, target: NodeId) {
    exists p :: 0 <= p < |outgoing| && p < |activated| && activated[p] && outgoing[p] < |plan.edges|
        && plan.edges[outgoing[p]].to == target
  }

  /** Enqueueing adds exactly activated targets, and leaves one out only when its cap is spent. */
  lemma {:induction false} EnqueuedMembers(plan: Plan, m: Model, k: nat, counts: map<NodeId, nat>, queue: seq<NodeId>,
                                           outgoing: seq<nat>, activated: seq<bool>, id: NodeId)
    requires k < |m.components| && ValidEdges(plan, outgoing)
    ensures var q := Enqueued(plan, m, k, counts, queue, outgoing, activated);
            && (id in queue ==> id in q)
            && (id in q ==> id in queue || TargetOf(plan, outgoing, activated, id))
            && (TargetOf(plan, outgoing, activated, id) && InComponent(m, k, id) ==>
                  id in q || Count(counts, id) >= m.components[k].maxIterations)
    decreases |outgoing|
  {
    if outgoing != [] {
      var rest, flags := outgoing[1..], if activated == [] then [] else activated[1..];
      var first := activated != [] && activated[0] && plan.edges[outgoing[0]].to == id;
      var here := if activated != [] && activated[0] then Push(m, k, counts, queue, plan.edges[outgoing[0]].to)
          else queue;
      EnqueuedMembers(plan, m, k, counts, here, rest, flags, id);
      assert TargetOf(plan, rest, flags, id) ==> TargetOf(plan, outgoing, activated, id) by {
        if TargetOf(plan, rest, flags, id) {
          var p :| 0 <= p < |rest| && p < |flags| && flags[p] && rest[p] < |plan.edges| && plan.edges[rest[p]].to == id;
          assert outgoing[p + 1] == rest[p] && activated[p + 1];
        }
      }
      assert TargetOf(plan, outgoing, activated, id) ==> first || TargetOf(plan, rest, flags, id) by {
        if TargetOf(plan, outgoing, activated, id) && !first {
          var p :| 0 <= p < |outgoing| && p < |activated| && activated[p] && outgoing[p] < |plan.edges|
              && plan.edges[outgoing[p]].to == id;
          assert rest[p - 1] == outgoing[p] && flags[p - 1];
        }
      }
      assert first ==> TargetOf(plan, outgoing, activated, id);
    }
  }

  lemma FromEntryGrows(plan: Plan, on: set<nat>, more: set<nat>, entries: seq<NodeId>, id: NodeId)
    requires on <= more && FromEntry(plan, on, entries, id)
    ensures FromEntry(plan, more, entries, id)
  {
    hide Reach;
    var s :| s in entries && Reach(ActivePairs(plan, on), s, id);
    ReachMonotone(ActivePairs(plan, on), ActivePairs(plan, more), s, id);
  }

  lemma FromEntryStep(plan: Plan, on: set<nat>, entries: seq<NodeId>, e: nat)
    requires e in on && e < |plan.edges| && FromEntry(plan, on, entries, plan.edges[e].from)
    ensures FromEntry(plan, on, entries, plan.edges[e].to)
  {
    hide Reach;
    var from, to := plan.edges[e].from, plan.edges[e].to;
    var s :| s in entries && Reach(ActivePairs(plan, on), s, from);
    assert (from, to) in ActivePairs(plan, on);
    ReachEdge(ActivePairs(plan, on), from, to);
    ReachTrans(ActivePairs(plan, on), s, from, to);
  }

  /** What a turn that does not stop does to the work state. */
  lemma StepShape(plan: Plan, m: Model, k: nat, world: World, w: Work)
    requires Usable(plan, m, k) && Disciplined(m, k, w) && w.queue != []
    requires !Step(plan, m, k, world, w).stopped
    ensures var id, rest := w.queue[0], w.queue[1..];
            var outgoing := Outgoing(m.outgoing, id);
            var done := world.exec(id, Count(w.counts, id), w.local);
            var next := Step(plan, m, k, world, w);
            && done.Success? && ValidEdges(plan, outgoing)
            && next.counts == w.counts[id := Count(w.counts, id) + 1]
            && next.queue == Enqueued(plan, m, k, next.counts, rest, outgoing, done.activated)
            && next.result.edges == w.result.edges + Activated(outgoing, done.activated)
            && next.result.outputs == w.result.outputs[id := done.output]
            && next.result.rejected == w.result.rejected && next.result.error == w.result.error
            && (forall e :: e in Activated(outgoing, done.activated) ==>
                  e < |plan.edges| && plan.edges[e].from == id
                      && TargetOf(plan, outgoing, done.activated, plan.edges[e].to))
    ensures forall x :: x in w.queue <==> x == w.queue[0] || x in w.queue[1..]
  {
    hide Enqueued, Total, Push;
    StepDisciplined(plan, m, k, world, w);
    HeadDistinct(w.queue);
    var id := w.queue[0];
    var outgoing := Outgoing(m.outgoing, id);
    var done := world.exec(id, Count(w.counts, id), w.local);
    forall e | e in Activated(outgoing, done.activated)
      ensures e < |plan.edges| && plan.edges[e].from == id && TargetOf(plan, outgoing, done.activated, plan.edges[e].to)
    {
      var p :| 0 <= p < |outgoing| && p < |done.activated| && done.activated[p] && outgoing[p] == e;
      assert e in Outgoing(m.outgoing, id);
    }
  }

  lemma StepExplained(plan: Plan, m: Model, k: nat, world: World, entries: seq<NodeId>, w: Work)
    requires Usable(plan, m, k) && Disciplined(m, k, w) && w.queue != []
    requires Explained(plan, m, k, entries, w)
    requires !Step(plan, m, k, world, w).stopped
    ensures Explained(plan, m, k, entries, Step(plan, m, k, world, w))
  {
    hide Usable, Disciplined, FromEntry, Enqueued, NoDuplicates, Step, Activated, TargetOf, Scheduled;
    StepShape(plan, m, k, world, w);
    var next := Step(plan, m, k, world, w);
    forall x | Scheduled(w, x) ensures Scheduled(next, x) {
      StaysScheduled(plan, m, k, world, w, x);
    }
    forall e | e in next.result.edges && InComponent(m, k, plan.edges[e].to)
      ensures Scheduled(next, plan.edges[e].to) {
      if e !in w.result.edges {
        TargetScheduled(plan, m, k, world, w, e);
      }
    }
    forall x | Scheduled(next, x) ensures FromEntry(plan, next.result.edges, entries, x) {
      ScheduledFromEntry(plan, m, k, world, entries, w, x);
    }
  }

  lemma StaysScheduled(plan: Plan, m: Model, k: nat, world: World, w: Work, x: NodeId)
    requires Usable(plan, m, k) && Disciplined(m, k, w) && w.queue != []
    requires !Step(plan, m, k, world, w).stopped && Scheduled(w, x)
    ensures Scheduled(Step(plan, m, k, world, w), x)
  {
    hide Usable, Disciplined, Enqueued, NoDuplicates, Step, Activated, TargetOf;
    StepShape(plan, m, k, world, w);
    UsableIndex(plan, m, k);
    var id := w.queue[0];
    var outgoing, done := Outgoing(m.outgoing, id), world.exec(id, Count(w.counts, id), w.local);
    EnqueuedMembers(plan, m, k, Step(plan, m, k, world, w).counts, w.queue[1..], outgoing, done.activated, x);
  }

  /** An edge that a turn switches on has its target executed or queued, if that is a member. */
  lemma TargetScheduled(plan: Plan, m: Model, k: nat, world: World, w: Work, e: nat)
    requires Usable(plan, m, k) && Disciplined(m, k, w) && w.queue != []
    requires !Step(plan, m, k, world, w).stopped
    requires e in Step(plan, m, k, world, w).result.edges && e !in w.result.edges && e < |plan.edges|
    requires InComponent(m, k, plan.edges[e].to)
    ensures Scheduled(Step(plan, m, k, world, w), plan.edges[e].to)
  {
    hide Usable, Disciplined, Enqueued, NoDuplicates, Step, Activated, TargetOf;
    StepShape(plan, m, k, world, w);
    UsableIndex(plan, m, k);
    var id := w.queue[0];
    var outgoing, done := Outgoing(m.outgoing, id), world.exec(id, Count(w.counts, id), w.local);
    EnqueuedMembers(plan, m, k, Step(plan, m, k, world, w).counts, w.queue[1..], outgoing, done.activated,
                    plan.edges[e].to);
  }

  lemma UsableIndex(plan: Plan, m: Model, k: nat)
    requires Usable(plan, m, k)
    ensures k < |m.components| && m.components[k].maxIterations >= 1
  {
  }

  lemma ScheduledFromEntry(plan: Plan, m: Model, k: nat, world: World, entries: seq<NodeId>, w: Work, x: NodeId)
    requires Usable(plan, m, k) && Disciplined(m, k, w) && w.queue != []
    requires Explained(plan, m, k, entries, w)
    requires !Step(plan, m, k, world, w).stopped && Scheduled(Step(plan, m, k, world, w), x)
    ensures FromEntry(plan, Step(plan, m, k, world, w).result.edges, entries, x)
  {
    hide Usable, Disciplined, FromEntry, Enqueued, NoDuplicates, Step;
    StepShape(plan, m, k, world, w);
    UsableIndex(plan, m, k);
    var id, rest := w.queue[0], w.queue[1..];
    var outgoing := Outgoing(m.outgoing, id);
    var done := world.exec(id, Count(w.counts, id), w.local);
    var next := Step(plan, m, k, world, w);
    EnqueuedMembers(plan, m, k, next.counts, rest, outgoing, done.activated, x);
    if Scheduled(w, x) {
      FromEntryGrows(plan, w.result.edges, next.result.edges, entries, x);
    } else {
      assert Scheduled(w, id);
      FromEntryGrows(plan, w.result.edges, next.result.edges, entries, id);
      var p :| 0 <= p < |outgoing| && p < |done.activated| && done.activated[p] && outgoing[p] < |plan.edges|
          && plan.edges[outgoing[p]].to == x;
      assert outgoing[p] in Activated(outgoing, done.activated);
      FromEntryStep(plan, next.result.edges, entries, outgoing[p]);
    }
  }

  /** An engine error always carries a message; the engine takes an empty message for success. */
  ghost predicate ErrorsHaveText(world: World) {
    forall id, iteration, visible :: world.exec(id, iteration, visible).Failure? ==>
             world.exec(id, iteration, visible).error != ""
  }

  /** A stopped worklist shows it in its result. */
  ghost predicate StopShows(w: Work) {
    w.stopped ==> w.result.rejected || w.result.error != ""
  }

  lemma {:induction false} DrainExplained(plan: Plan, m: Model, k: nat, world: World, entries: seq<NodeId>, w: Work)
    requires Usable(plan, m, k) && Disciplined(m, k, w) && ErrorsHaveText(world)
    requires StopShows(w) && (!w.stopped ==> Explained(plan, m, k, entries, w))
    ensures var final := Drain(plan, m, k, world, w);
            StopShows(final) && (!final.stopped ==> Explained(plan, m, k, entries, final))
    decreases Budget(m, k, w.counts)
  {
    hide Usable, Disciplined, Explained;
    if w.queue != [] && !w.stopped {
      StepDisciplined(plan, m, k, world, w);
      var next := Step(plan, m, k, world, w);
      if !next.stopped {
        StepExplained(plan, m, k, world, entries, w);
      }
      DrainExplained(plan, m, k, world, entries, next);
    }
  }

  // ---------------------------------------------------------------- the whole component

  ghost predicate Ok(r: ComponentResult) {
    r.error == "" && !r.rejected
  }

  /** Members either execute, at iterations 0, 1, ... below the cap, or are skipped exactly once. */
  ghost predicate Accounted(m: Model, k: nat, r: ComponentResult)
    requires k < |m.components|
  {
    && InOrder(r.trace)
    && (forall id :: id in m.components[k].nodes ==>
          Runs(r.trace, id) <= m.components[k].maxIterations && Skips(r.trace, id) == if Runs(r.trace, id) == 0 then 1
              else 0)
    && (forall id :: id !in m.components[k].nodes ==> Runs(r.trace, id) == 0 && Skips(r.trace, id) == 0)
    && (forall id :: id in r.outputs <==> Runs(r.trace, id) > 0)
  }

  /** The members that execute are those the switched-on edges lead to from the component's entries. */
  ghost predicate Reached(plan: Plan, m: Model, k: nat, on: set<nat>, r: ComponentResult)
    requires EntersInside(plan, m, k) && m.components[k].nodes != [] && ValidEdges(plan, m.components[k].incoming)
  {
    var entries := StartQueue(plan, m.components[k], on);
    var active := ComponentActive(m.components[k], on);
    && (forall e :: e in r.edges ==> e < |plan.edges| && Runs(r.trace, plan.edges[e].from) > 0)
    && (forall e :: e in r.edges && InComponent(m, k, plan.edges[e].to) ==> Runs(r.trace, plan.edges[e].to) > 0)
    && (active ==> forall s :: s in entries ==> Runs(r.trace, s) > 0)
    && (forall id :: Runs(r.trace, id) > 0 ==> active && FromEntry(plan, r.edges, entries, id))
  }

  /** A non-cyclic component is a single node, as in every compiled plan. */
  ghost predicate SccShaped(m: Model, k: nat)
    requires k < |m.components|
  {
    !m.components[k].cyclic ==> |m.components[k].nodes| == 1
  }

  lemma WorklistExact(plan: Plan, m: Model, k: nat, world: World, on: set<nat>, visible: map<NodeId, Json>)
    requires Usable(plan, m, k) && EntersInside(plan, m, k) && ErrorsHaveText(world)
    requires ComponentActive(m.components[k], on) && m.components[k].cyclic
    requires Ok(RunComponent(plan, m, k, world, on, visible))
    ensures Accounted(m, k, RunComponent(plan, m, k, world, on, visible))
    ensures Reached(plan, m, k, on, RunComponent(plan, m, k, world, on, visible))
  {
    var c := m.components[k];
    var start := Starting(plan, c, on, visible);
    var entries := StartQueue(plan, c, on);
    StartDisciplined(plan, m, k, on, visible);
    StartLogged(plan, m, k, on, visible);
    StartExplained(plan, m, k, on, visible);
    DrainLogged(plan, m, k, world, start);
    DrainExplained(plan, m, k, world, entries, start);
    var w := Drained(plan, m, k, world, on, visible);
    hide Drain, Disciplined, Logged, Explained, StartQueue, ComponentActive, EntersInside;
    FinishExact(plan, m, k, world, on, w);
  }

  /** Adding the skips to a worklist that ran dry accounts for every member. */
  lemma FinishExact(plan: Plan, m: Model, k: nat, world: World, on: set<nat>, w: Work)
    requires Usable(plan, m, k) && EntersInside(plan, m, k) && ComponentActive(m.components[k], on)
    requires Disciplined(m, k, w) && Logged(m, k, w) && w.queue == []
    requires Explained(plan, m, k, StartQueue(plan, m.components[k], on), w)
    requires Ok(SkipRest(world, m.components[k].nodes, w.counts, w.result))
    ensures Accounted(m, k, SkipRest(world, m.components[k].nodes, w.counts, w.result))
    ensures Reached(plan, m, k, on, SkipRest(world, m.components[k].nodes, w.counts, w.result))
  {
    hide StartQueue, FromEntry, InOrder, Runs, Skips, Total, ComponentActive, SkipRest;
    var c := m.components[k];
    var r := SkipRest(world, c.nodes, w.counts, w.result);
    SkipRestFacts(world, c.nodes, w.counts, w.result);
    forall id ensures Runs(r.trace, id) == Count(w.counts, id) && (Scheduled(w, id) <==> Runs(r.trace, id) > 0) {
      assert Runs(w.result.trace, id) == Count(w.counts, id);
    }
    hide Usable;
  }

  lemma StartLogged(plan: Plan, m: Model, k: nat, on: set<nat>, visible: map<NodeId, Json>)
    requires Usable(plan, m, k)
    ensures Logged(m, k, Starting(plan, m.components[k], on, visible))
  {
    TotalEmpty(m.components[k].nodes);
  }

  lemma {:induction false} TotalEmpty(nodes: seq<NodeId>)
    ensures Total(nodes, map[]) == 0
  {
    if nodes != [] {
      TotalEmpty(nodes[1..]);
    }
  }

  lemma StartExplained(plan: Plan, m: Model, k: nat, on: set<nat>, visible: map<NodeId, Json>)
    requires Usable(plan, m, k)
    ensures Explained(plan, m, k, StartQueue(plan, m.components[k], on), Starting(plan, m.components[k], on, visible))
  {
    var entries := StartQueue(plan, m.components[k], on);
    forall id | id in entries ensures FromEntry(plan, {}, entries, id) {
      ReachSelf(ActivePairs(plan, {}), id);
    }
  }

  lemma SingleExact(plan: Plan, m: Model, k: nat, world: World, on: set<nat>, visible: map<NodeId, Json>)
    requires Usable(plan, m, k) && EntersInside(plan, m, k) && ErrorsHaveText(world) && SccShaped(m, k)
    requires ComponentActive(m.components[k], on) && !m.components[k].cyclic
    requires Ok(RunComponent(plan, m, k, world, on, visible))
    ensures Accounted(m, k, RunComponent(plan, m, k, world, on, visible))
    ensures Reached(plan, m, k, on, RunComponent(plan, m, k, world, on, visible))
  {
    hide RunComponent, StartQueue, Runs, Skips, InOrder, Reach, ActivePairs, EntersInside, ComponentActive,
         ErrorsHaveText, Ok;
    var id := m.components[k].nodes[0];
    var r := RunComponent(plan, m, k, world, on, visible);
    SingleShape(plan, m, k, world, on, visible);
    SingleEntry(plan, m, k, on);
    ReachSelf(ActivePairs(plan, r.edges), id);
    OneExecution(id);
    SoleMember(m.components[k].nodes);
    SoleEntry(plan, r.edges, StartQueue(plan, m.components[k], on), id);
    hide FromEntry;
  }

  lemma SoleMember(nodes: seq<NodeId>)
    requires |nodes| == 1
    ensures forall x :: x in nodes <==> x == nodes[0]
  {
  }

  lemma SoleEntry(plan: Plan, on: set<nat>, entries: seq<NodeId>, id: NodeId)
    requires id in entries && Reach(ActivePairs(plan, on), id, id)
    ensures FromEntry(plan, on, entries, id)
  {
    hide Reach;
  }

  lemma OneExecution(id: NodeId)
    ensures InOrder([Executed(id, 0)])
    ensures forall x :: Runs([Executed(id, 0)], x) == (if x == id then 1 else 0) && Skips([Executed(id, 0)], x) == 0
  {
    hide Runs, Skips, InOrder;
    NothingTraced();
    TraceAppend([], Executed(id, 0));
    assert [] + [Executed(id, 0)] == [Executed(id, 0)];
  }

  lemma NothingTraced()
    ensures InOrder([]) && forall x :: Runs([], x) == 0 && Skips([], x) == 0
  {
  }

  lemma SingleShape(plan: Plan, m: Model, k: nat, world: World, on: set<nat>, visible: map<NodeId, Json>)
    requires Usable(plan, m, k) && EntersInside(plan, m, k) && ErrorsHaveText(world)
    requires ComponentActive(m.components[k], on) && !m.components[k].cyclic
    requires Ok(RunComponent(plan, m, k, world, on, visible))
    ensures var r := RunComponent(plan, m, k, world, on, visible);
            var id := m.components[k].nodes[0];
            && r.trace == [Executed(id, 0)] && r.outputs.Keys == {id}
            && forall e :: e in r.edges ==>
                e < |plan.edges| && plan.edges[e].from == id && !InComponent(m, k, plan.edges[e].to)
  {
    var id := m.components[k].nodes[0];
    var outgoing := Outgoing(m.outgoing, id);
    var done := world.exec(id, 0, visible);
    forall e | e in Activated(outgoing, done.activated)
      ensures e < |plan.edges| && plan.edges[e].from == id && !InComponent(m, k, plan.edges[e].to)
    {
      var p :| 0 <= p < |outgoing| && p < |done.activated| && done.activated[p] && outgoing[p] == e;
      assert e in Outgoing(m.outgoing, id);
      assert id in m.components[k].nodes;
    }
  }

  lemma SingleEntry(plan: Plan, m: Model, k: nat, on: set<nat>)
    requires Usable(plan, m, k) && EntersInside(plan, m, k) && |m.components[k].nodes| == 1
    requires ComponentActive(m.components[k], on)
    ensures forall s :: s in StartQueue(plan, m.components[k], on) <==> s == m.components[k].nodes[0]
  {
    var c := m.components[k];
    EntriesFacts(plan, c.incoming, on);
    if c.incoming != [] {
      var e :| e in c.incoming && e in on;
      assert EnteredBy(plan, c.incoming, on, plan.edges[e].to);
    }
  }

  /** A component run without error or rejection executes exactly what its entries lead to, and skips the rest once. */
  lemma ComponentExact(plan: Plan, m: Model, k: nat, world: World, on: set<nat>, visible: map<NodeId, Json>)
    requires Usable(plan, m, k) && EntersInside(plan, m, k) && ErrorsHaveText(world) && SccShaped(m, k)
    requires Ok(RunComponent(plan, m, k, world, on, visible))
    ensures Accounted(m, k, RunComponent(plan, m, k, world, on, visible))
    ensures Reached(plan, m, k, on, RunComponent(plan, m, k, world, on, visible))
  {
    var c := m.components[k];
    if !ComponentActive(c, on) {
      SkipRestFacts(world, c.nodes, map[], NOTHING);
    } else if c.cyclic {
      WorklistExact(plan, m, k, world, on, visible);
    } else {
      SingleExact(plan, m, k, world, on, visible);
    }
  }

  /** However a cyclic component ends, it executes at most nodes times cap times, each node within its cap. */
  lemma WorklistBounded(plan: Plan, m: Model, k: nat, world: World, on: set<nat>, visible: map<NodeId, Json>)
    requires Usable(plan, m, k) && EntersInside(plan, m, k)
    ensures var w := Drained(plan, m, k, world, on, visible);
            && InOrder(w.result.trace)
            && |w.result.trace| <= |m.components[k].nodes| * m.components[k].maxIterations
            && forall i :: 0 <= i < |w.result.trace| ==>
                 w.result.trace[i].Executed? && w.result.trace[i].iteration < m.components[k].maxIterations
  {
    var start := Starting(plan, m.components[k], on, visible);
    StartDisciplined(plan, m, k, on, visible);
    StartLogged(plan, m, k, on, visible);
    DrainLogged(plan, m, k, world, start);
    var w := Drained(plan, m, k, world, on, visible);
    TotalBound(m.components[k].nodes, w.counts, m.components[k].maxIterations);
    forall i | 0 <= i < |w.result.trace|
      ensures w.result.trace[i].Executed? && w.result.trace[i].iteration < m.components[k].maxIterations
    {
      TraceEntry(w.result.trace, i);
    }
  }

  lemma {:induction false} TraceEntry(trace: seq<Activity>, i: nat)
    requires i < |trace|
    ensures trace[i].Executed? ==> Runs(trace[..i], trace[i].id) < Runs(trace, trace[i].id)
    ensures trace[i].Skipped? ==> Skips(trace, trace[i].id) > 0
    decreases |trace|
  {
    if i < |trace| - 1 {
      TraceEntry(trace[..|trace| - 1], i);
      assert trace[..|trace| - 1][..i] == trace[..i];
    }
  }
}
