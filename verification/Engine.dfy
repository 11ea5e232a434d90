/** From a Flow to its finished Run: compile, build the model, schedule. */
module Engine {
  import opened Ordering
  import opened Compiler
  import opened ComponentModel
  import opened Execution
  import opened ExecutionFacts
  import opened Locality
  import opened Sequential
  import opened History
  import opened Independence
  import opened Serial
  import opened Interpreter
  import opened Reachability

  /** Every node executed exactly if the switched-on edges lead to it from a root, and was otherwise skipped once. */
  ghost predicate Faithful(plan: Plan, m: Model, final: RunState) {
    forall id :: id in m.componentByNode ==> NodeFaithful(plan, m, final, id)
  }

  ghost predicate NodeFaithful(plan: Plan, m: Model, final: RunState, id: NodeId) {
    var trace := TraceOf(m, final.results, id);
    && (Runs(trace, id) > 0 <==> FromRoot(plan, m, final.edges, id))
    && Skips(trace, id) == (if Runs(trace, id) > 0 then 0 else 1)
    && InOrder(trace) && Runs(trace, id) <= 1000
  }

  lemma SettledFaithful(plan: Plan, m: Model, world: World, final: RunState)
    requires Compiled(plan) && SettledRun(plan, m, world, final)
    requires IsModelOf(plan, m)
    ensures Faithful(plan, m, final)
  {
    hide IsModelOf, Compiled, SettledRun, FromRoot, Runs, Skips, InOrder;
    forall id | id in m.componentByNode ensures NodeFaithful(plan, m, final, id) {
      ExecutedExactlyReachable(plan, m, world, final, id);
    }
  }

  /**
   * Runs a Flow. It is refused exactly when it is not acceptable. An accepted one always has a component model, and
   * its run is a history; unless the workflow is cancelled while it waits, the history ends and its completions decide
   * the outcome. When it succeeds, the executed nodes are exactly the reachable ones. If nodes read only their
   * ancestors, whether it succeeds, and with what edges, outputs and traces, does not depend on the schedule; with a
   * limit of one the whole outcome is fixed.
   */
  method RunFlow(flow: Flow, binder: Binder, world: World, cancelledAfter: Option<nat>)
    returns (plan: Plan, model: Option<Model>, outcome: Option<Outcome>, state: RunState, ghost log: seq<Event>)
    ensures model.Some? <==> Acceptable(flow, binder)
    ensures outcome.Some? <==> model.Some?
    ensures model.Some? ==>
              && IsPlanOf(flow, binder, plan) && IsModelOf(plan, model.value)
              && Ended(plan, model.value, world, log, outcome.value, state, cancelledAfter)
    ensures model.Some? && ErrorsHaveText(world) && outcome.value.Succeeded? ==>
              SettledRun(plan, model.value, world, state) && Faithful(plan, model.value, state)
    ensures model.Some? && ReadsAncestors(plan, world) && !outcome.value.Interrupted? ==>
              var sequential := SequentialRun(plan, model.value, world);
              Decides(sequential.results, outcome.value) && (outcome.value.Succeeded? ==> state == sequential)
    ensures model.Some? && plan.maxParallel <= 1 && !outcome.value.Interrupted? ==>
              outcome.value == FirstWrong(SequentialRun(plan, model.value, world).results, model.value.order)
  {
    hide IsModelOf, Compiled, ReadsAncestors, ErrorsHaveText, SequentialRun, Acceptable, IsPlanOf, Faithful,
         SettledRun, IsHistory, Playback, IsOver, Judge, Decides, FirstWrong;
    model, plan := CompileAndBuild(flow, binder);
    outcome, state, log := None, RunState({}, map[], map[]), [];
    if model.Some? {
      var ended;
      ended, state, log := RunPlan(plan, model.value, world, cancelledAfter);
      outcome := Some(ended);
      if ErrorsHaveText(world) && ended.Succeeded? {
        SettledFaithful(plan, model.value, world, state);
      }
    }
  }
}
