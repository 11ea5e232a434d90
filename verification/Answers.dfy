/**
 * What one component makes of the answers its nodes give: stated about the calls themselves, without the worklist. For
 * given answers there is exactly one such run.
 */
module Answers {
  import opened Ordering
  import opened Compiler
  import opened ComponentModel
  import opened Execution

  /** One execution of a node: what it was given and what it answered. */
  datatype Call = Call(id: NodeId, iteration: nat, input: map<NodeId, Json>, answer: NodeResult)

  /** Why a member of a cyclic component executes: an entering edge, or an edge switched on by an earlier call. */
  datatype Cause = ByEntry(position: nat) | ByCall(index: nat, position: nat)

  // ---------------------------------------------------------------- the calls

  ghost function Times(calls: seq<Call>, id: NodeId): nat {
    if calls == [] then 0 else
      Times(calls[..|calls| - 1], id) + if calls[|calls| - 1].id == id then 1 else 0
  }

  predicate GoesOn(call: Call) {
    call.answer.Success? && !call.answer.rejected
  }

  /**
   * The i-th call: the node is asked at the number of its earlier calls, with what the component saw when it started
   * and the output of every call before put in.
   */
  ghost predicate Asked(world: World, visible: map<NodeId, Json>, calls: seq<Call>, i: nat)
    requires i < |calls|
  {
    && calls[i].answer == world.exec(calls[i].id, calls[i].iteration, calls[i].input)
    && calls[i].iteration == Times(calls[..i], calls[i].id)
    && if i == 0 then calls[i].input == visible
       else GoesOn(calls[i - 1])
            && calls[i].input == calls[i - 1].input[calls[i - 1].id := calls[i - 1].answer.output]
  }

  ghost predicate Chain(world: World, visible: map<NodeId, Json>, calls: seq<Call>) {
    forall i :: 0 <= i < |calls| ==> Asked(world, visible, calls, i)
  }

  /** The answer has a flag that is on at the edge's place among the outgoing edges. */
  ghost predicate FlagOn(m: Model, call: Call, p: nat) {
    && p < |Outgoing(m.outgoing, call.id)|
    && call.answer.Success? && p < |call.answer.activated| && call.answer.activated[p]
  }

  ghost predicate Switches(m: Model, call: Call, e: nat) {
    exists p: nat :: FlagOn(m, call, p) && Outgoing(m.outgoing, call.id)[p] == e
  }

  ghost predicate SomeSwitches(m: Model, calls: seq<Call>, e: nat) {
    exists i :: 0 <= i < |calls| && Switches(m, calls[i], e)
  }

  /** The i-th call is the last one of this node that succeeded. */
  ghost predicate LastSuccess(calls: seq<Call>, id: NodeId, i: nat) {
    && i < |calls| && calls[i].id == id && calls[i].answer.Success?
    && forall j :: i < j < |calls| && calls[j].id == id ==> !calls[j].answer.Success?
  }

  /** An edge is on iff some call switched it on, and a node's output is that of its last call that succeeded. */
  ghost predicate Kept(m: Model, calls: seq<Call>, edges: set<nat>, outputs: map<NodeId, Json>) {
    && (forall e: nat :: e in edges <==> SomeSwitches(m, calls, e))
    && (forall id :: id in outputs ==>
          exists i: nat :: LastSuccess(calls, id, i) && outputs[id] == calls[i].answer.output)
    && (forall id, i: nat :: LastSuccess(calls, id, i) ==> id in outputs)
  }

  /** The trace begins with the calls. */
  ghost predicate Traced(calls: seq<Call>, trace: seq<Activity>) {
    && |calls| <= |trace|
    && forall i :: 0 <= i < |calls| ==> trace[i] == Executed(calls[i].id, calls[i].iteration)
  }

  // ---------------------------------------------------------------- the order of a worklist

  predicate Before(a: Cause, b: Cause) {
    match a
    case ByEntry(i) => b.ByCall? || i < b.position
    case ByCall(i, p) => b.ByCall? && (i < b.index || (i == b.index && p < b.position))
  }

  /** The cause exists and leads to this member. */
  ghost predicate Leads(plan: Plan, m: Model, k: nat, on: set<nat>, calls: seq<Call>, cause: Cause, id: NodeId)
    requires k < |m.components|
  {
    var incoming := m.components[k].incoming;
    match cause
    case ByEntry(j) =>
      if incoming == [] then j == 0 && m.components[k].nodes != [] && id == m.components[k].nodes[0]
      else j < |incoming| && incoming[j] in on && incoming[j] < |plan.edges| && plan.edges[incoming[j]].to == id
    case ByCall(i, p) =>
      && i < |calls| && GoesOn(calls[i]) && FlagOn(m, calls[i], p) && InComponent(m, k, id)
      && var e := Outgoing(m.outgoing, calls[i].id)[p]; e < |plan.edges| && plan.edges[e].to == id
  }

  /** At the time of the cause the member was waiting for its turn, in one of the places before `end`. */
  ghost predicate Waits(ids: seq<NodeId>, end: nat, cause: Cause, id: NodeId) {
    exists s :: 0 <= s < end && s < |ids| && ids[s] == id && (cause.ByCall? ==> s > cause.index)
  }

  /** At the time of the cause the member had used up its iterations. */
  ghost predicate Spent(m: Model, k: nat, calls: seq<Call>, cause: Cause, id: NodeId)
    requires k < |m.components|
  {
    cause.ByCall? && cause.index < |calls|
    && Times(calls[..cause.index + 1], id) >= m.components[k].maxIterations
  }

  /**
   * First come, first served: `ids` are the members called, and then those still waiting, each with its cause, in the
   * order of the causes. A cause puts its member in the line iff that is not waiting and has iterations left.
   */
  ghost predicate InTurn(plan: Plan, m: Model, k: nat, on: set<nat>, calls: seq<Call>, ids: seq<NodeId>,
                         causes: seq<Cause>)
    requires k < |m.components|
  {
    && |calls| <= |ids| == |causes|
    && (forall t :: 0 <= t < |calls| ==> ids[t] == calls[t].id)
    && (forall s, t :: 0 <= s < t < |causes| ==> Before(causes[s], causes[t]))
    && (forall t :: 0 <= t < |causes| ==> Served(plan, m, k, on, calls, ids, causes, t))
    && (forall cause, id :: Leads(plan, m, k, on, calls, cause, id) ==>
          Handled(m, k, calls, ids, causes, cause, id))
  }

  ghost predicate Served(plan: Plan, m: Model, k: nat, on: set<nat>, calls: seq<Call>, ids: seq<NodeId>,
                         causes: seq<Cause>, t: nat)
    requires k < |m.components| && t < |ids| == |causes|
  {
    && Leads(plan, m, k, on, calls, causes[t], ids[t]) && (causes[t].ByCall? ==> causes[t].index < t)
    && !Waits(ids, t, causes[t], ids[t]) && !Spent(m, k, calls, causes[t], ids[t])
  }

  ghost predicate Handled(m: Model, k: nat, calls: seq<Call>, ids: seq<NodeId>, causes: seq<Cause>, cause: Cause,
                          id: NodeId)
    requires k < |m.components| && |ids| == |causes|
  {
    || cause in causes || Spent(m, k, calls, cause, id)
    || exists s :: 0 <= s < |ids| && ids[s] == id && Before(causes[s], cause) && (cause.ByCall? ==> s > cause.index)
  }

  // ---------------------------------------------------------------- the end

  ghost function Unasked(nodes: seq<NodeId>, calls: seq<Call>): seq<Activity> {
    if nodes == [] then [] else
      (if Times(calls, nodes[0]) == 0 then [Skipped(nodes[0])] else []) + Unasked(nodes[1..], calls)
  }

  /** Members that were never called are skipped in their order, up to the first whose skip cannot be recorded. */
  ghost predicate SkipsUpTo(world: World, nodes: seq<NodeId>, calls: seq<Call>, skips: seq<Activity>, error: string,
                            j: nat)
  {
    && j <= |nodes| && skips == Unasked(nodes[..j], calls)
    && (forall i :: 0 <= i < j && Times(calls, nodes[i]) == 0 ==> world.skipError(nodes[i]) == "")
    && if j == |nodes| then error == ""
       else Times(calls, nodes[j]) == 0 && error == world.skipError(nodes[j]) != ""
  }

  /** A failed or rejected last call ends the component; `rest` says how it ends otherwise. */
  ghost predicate EndsWith(calls: seq<Call>, r: ComponentResult, rest: bool)
    requires |calls| <= |r.trace|
  {
    if calls != [] && !GoesOn(calls[|calls| - 1]) then
      var last := calls[|calls| - 1].answer;
      && |r.trace| == |calls| && r.rejected == last.Success?
      && r.error == if last.Failure? then last.error else ""
    else !r.rejected && rest
  }

  ghost predicate Skipping(world: World, nodes: seq<NodeId>, calls: seq<Call>, r: ComponentResult)
    requires |calls| <= |r.trace|
  {
    exists j: nat :: SkipsUpTo(world, nodes, calls, r.trace[|calls|..], r.error, j)
  }

  ghost predicate Entered(c: Component, on: set<nat>) {
    c.incoming == [] || exists e :: e in c.incoming && e in on
  }

  /** Nobody waits unless the last call ended the component. */
  ghost predicate Queued(plan: Plan, m: Model, k: nat, on: set<nat>, calls: seq<Call>)
    requires k < |m.components|
  {
    exists ids, causes ::
      && InTurn(plan, m, k, on, calls, ids, causes)
      && ((calls == [] || GoesOn(calls[|calls| - 1])) ==> |ids| == |calls|)
  }

  /**
   * How component k, with these edges on and these outputs visible, comes to a result by these calls. A component that
   * nothing enters is skipped; a single node is called once; a cyclic one is served first come, first served.
   */
  ghost predicate Witnessed(plan: Plan, m: Model, k: nat, world: World, on: set<nat>, visible: map<NodeId, Json>,
                            r: ComponentResult, calls: seq<Call>)
  {
    && k < |m.components| && m.components[k].nodes != []
    && Chain(world, visible, calls) && Kept(m, calls, r.edges, r.outputs) && Traced(calls, r.trace)
    && var c := m.components[k];
       if !Entered(c, on) then calls == [] && EndsWith(calls, r, Skipping(world, c.nodes, calls, r))
       else if !c.cyclic then
         && |calls| == 1 && calls[0].id == c.nodes[0]
         && EndsWith(calls, r, r.error == "" && |r.trace| == 1)
       else Queued(plan, m, k, on, calls) && EndsWith(calls, r, Skipping(world, c.nodes, calls, r))
  }

  ghost predicate Answered(plan: Plan, m: Model, k: nat, world: World, on: set<nat>, visible: map<NodeId, Json>,
                           r: ComponentResult)
  {
    exists calls :: Witnessed(plan, m, k, world, on, visible, r, calls)
  }

  // ---------------------------------------------------------------- there is only one such run

  /** Up to the n-th call, two runs of the same component are alike. */
  ghost predicate AlikeTo(one: seq<Call>, two: seq<Call>, n: nat) {
    n <= |one| && n <= |two| && forall i :: 0 <= i < n ==> one[i] == two[i]
  }

  lemma SameLeads(plan: Plan, m: Model, k: nat, on: set<nat>, one: seq<Call>, two: seq<Call>, n: nat, cause: Cause,
                  id: NodeId)
    requires k < |m.components| && AlikeTo(one, two, n) && (cause.ByCall? ==> cause.index < n)
    ensures Leads(plan, m, k, on, one, cause, id) <==> Leads(plan, m, k, on, two, cause, id)
    ensures Spent(m, k, one, cause, id) <==> Spent(m, k, two, cause, id)
  {
    hide FlagOn, GoesOn, Times, InComponent;
    assert cause.ByCall? ==> one[..cause.index + 1] == two[..cause.index + 1];
  }

  lemma OneTarget(plan: Plan, m: Model, k: nat, on: set<nat>, calls: seq<Call>, cause: Cause, id: NodeId, other: NodeId)
    requires k < |m.components|
    requires Leads(plan, m, k, on, calls, cause, id) && Leads(plan, m, k, on, calls, cause, other)
    ensures id == other
  {
  }

  lemma OneOrder(a: Cause, b: Cause)
    ensures a == b || Before(a, b) || Before(b, a)
    ensures !(Before(a, b) && Before(b, a)) && !Before(a, a)
  {
  }

  ghost predicate SameLine(ids: seq<NodeId>, causes: seq<Cause>, ids': seq<NodeId>, causes': seq<Cause>, t: nat) {
    && |ids| == |causes| && |ids'| == |causes'| && t <= |causes| && t <= |causes'|
    && forall s :: 0 <= s < t ==> causes[s] == causes'[s] && ids[s] == ids'[s]
  }

  /** A cause that puts its member in one line is not passed over in the other. */
  lemma NotPassedOver(plan: Plan, m: Model, k: nat, on: set<nat>, one: seq<Call>, ids: seq<NodeId>, causes: seq<Cause>,
                      two: seq<Call>, ids': seq<NodeId>, causes': seq<Cause>, n: nat, t: nat)
    requires k < |m.components| && AlikeTo(one, two, n) && t <= n
    requires InTurn(plan, m, k, on, one, ids, causes) && InTurn(plan, m, k, on, two, ids', causes')
    requires SameLine(ids, causes, ids', causes', t)
    ensures t < |causes| ==> t < |causes'| && !Before(causes[t], causes'[t])
  {
    hide Leads, Spent, Before;
    if t < |causes| && (t < |causes'| ==> Before(causes[t], causes'[t])) {
      var x, id := causes[t], ids[t];
      assert Served(plan, m, k, on, one, ids, causes, t);
      SameLeads(plan, m, k, on, one, two, n, x, id);
      assert Handled(m, k, two, ids', causes', x, id);
      if x in causes' {
        var s :| 0 <= s < |causes'| && causes'[s] == x;
        OneOrder(x, x);
        OrderedBefore(causes', x, s, t);
        assert false;
      } else {
        var s :| 0 <= s < |ids'| && ids'[s] == id && Before(causes'[s], x) && (x.ByCall? ==> s > x.index);
        OrderedBefore(causes', x, s, t);
        assert false;
      }
    }
  }

  lemma OrderedBefore(causes: seq<Cause>, x: Cause, s: nat, t: nat)
    requires forall a, b :: 0 <= a < b < |causes| ==> Before(causes[a], causes[b])
    requires s < |causes| && (causes[s] == x || Before(causes[s], x)) && (t < |causes| ==> Before(x, causes[t]))
    ensures s < t
  {
    if s >= t {
      OneOrder(x, causes[t]);
      assert s > t ==> Before(causes[t], causes[s]);
      BeforeTrans(x, causes[t], causes[s]);
      OneOrder(x, causes[s]);
    }
  }

  lemma BeforeTrans(a: Cause, b: Cause, c: Cause)
    ensures Before(a, b) && Before(b, c) ==> Before(a, c)
  {
  }

  /** As far as the calls are alike, the lines are. */
  lemma {:induction false} SameCauses(plan: Plan, m: Model, k: nat, on: set<nat>, one: seq<Call>, ids: seq<NodeId>,
                                      causes: seq<Cause>, two: seq<Call>, ids': seq<NodeId>, causes': seq<Cause>,
                                      n: nat, t: nat)
    requires k < |m.components| && AlikeTo(one, two, n) && t <= n + 1
    requires InTurn(plan, m, k, on, one, ids, causes) && InTurn(plan, m, k, on, two, ids', causes')
    requires t <= |causes| && t <= |causes'|
    ensures SameLine(ids, causes, ids', causes', t)
    decreases t
  {
    hide Leads, Before, Handled;
    if t > 0 {
      var s := t - 1;
      SameCauses(plan, m, k, on, one, ids, causes, two, ids', causes', n, s);
      assert AlikeTo(two, one, n) && SameLine(ids', causes', ids, causes, s);
      OneOrder(causes[s], causes'[s]);
      NotPassedOver(plan, m, k, on, one, ids, causes, two, ids', causes', n, s);
      NotPassedOver(plan, m, k, on, two, ids', causes', one, ids, causes, n, s);
      assert Served(plan, m, k, on, one, ids, causes, s) && Served(plan, m, k, on, two, ids', causes', s);
      SameLeads(plan, m, k, on, one, two, n, causes[s], ids'[s]);
      OneTarget(plan, m, k, on, one, causes[s], ids[s], ids'[s]);
    }
  }

  lemma SameAnswer(world: World, visible: map<NodeId, Json>, one: seq<Call>, two: seq<Call>, n: nat)
    requires Chain(world, visible, one) && Chain(world, visible, two) && AlikeTo(one, two, n)
    requires n < |one| && n < |two| && one[n].id == two[n].id
    ensures one[n] == two[n]
  {
    hide Times;
    assert Asked(world, visible, one, n) && Asked(world, visible, two, n);
    assert one[..n] == two[..n];
  }

  lemma {:induction false} SameCalls(plan: Plan, m: Model, k: nat, world: World, on: set<nat>,
                                     visible: map<NodeId, Json>, one: seq<Call>, ids: seq<NodeId>, causes: seq<Cause>,
                                     two: seq<Call>, ids': seq<NodeId>, causes': seq<Cause>, n: nat)
    requires k < |m.components| && n <= |one| && n <= |two|
    requires Chain(world, visible, one) && Chain(world, visible, two)
    requires InTurn(plan, m, k, on, one, ids, causes) && InTurn(plan, m, k, on, two, ids', causes')
    ensures AlikeTo(one, two, n)
    decreases n
  {
    hide Chain, Leads, Before, Handled, Served;
    if n > 0 {
      SameCalls(plan, m, k, world, on, visible, one, ids, causes, two, ids', causes', n - 1);
      SameCauses(plan, m, k, on, one, ids, causes, two, ids', causes', n - 1, n);
      SameAnswer(world, visible, one, two, n - 1);
    }
  }

  /** A run does not end while someone is in line. */
  lemma NotShorter(plan: Plan, m: Model, k: nat, world: World, on: set<nat>, visible: map<NodeId, Json>, one: seq<Call>,
                   two: seq<Call>)
    requires k < |m.components| && Chain(world, visible, one) && Chain(world, visible, two)
    requires Queued(plan, m, k, on, one) && Queued(plan, m, k, on, two)
    ensures |one| >= |two|
  {
    hide Chain, InTurn, GoesOn;
    var ids, causes :| InTurn(plan, m, k, on, one, ids, causes)
                       && ((one == [] || GoesOn(one[|one| - 1])) ==> |ids| == |one|);
    var ids', causes' :| InTurn(plan, m, k, on, two, ids', causes')
                         && ((two == [] || GoesOn(two[|two| - 1])) ==> |ids'| == |two|);
    if |one| < |two| {
      var n := |one|;
      SameCalls(plan, m, k, world, on, visible, one, ids, causes, two, ids', causes', n);
      WentOn(world, visible, two, n);
      LineLength(plan, m, k, on, one, ids, causes);
      LineLength(plan, m, k, on, two, ids', causes');
      SameCauses(plan, m, k, on, one, ids, causes, two, ids', causes', n, n);
      assert AlikeTo(two, one, n) && SameLine(ids', causes', ids, causes, n);
      NotPassedOver(plan, m, k, on, two, ids', causes', one, ids, causes, n, n);
    }
  }

  lemma WentOn(world: World, visible: map<NodeId, Json>, calls: seq<Call>, n: nat)
    requires Chain(world, visible, calls) && n < |calls|
    ensures n > 0 ==> GoesOn(calls[n - 1])
  {
    assert Asked(world, visible, calls, n);
  }

  lemma LineLength(plan: Plan, m: Model, k: nat, on: set<nat>, calls: seq<Call>, ids: seq<NodeId>, causes: seq<Cause>)
    requires k < |m.components| && InTurn(plan, m, k, on, calls, ids, causes)
    ensures |calls| <= |ids| == |causes|
  {
    hide Leads, Before, Handled, Served;
  }

  lemma OnlyCalls(plan: Plan, m: Model, k: nat, world: World, on: set<nat>, visible: map<NodeId, Json>, one: seq<Call>,
                  two: seq<Call>)
    requires k < |m.components| && Chain(world, visible, one) && Chain(world, visible, two)
    requires Queued(plan, m, k, on, one) && Queued(plan, m, k, on, two)
    ensures one == two
  {
    hide Chain, InTurn, GoesOn;
    NotShorter(plan, m, k, world, on, visible, one, two);
    NotShorter(plan, m, k, world, on, visible, two, one);
    var ids, causes :| InTurn(plan, m, k, on, one, ids, causes)
                       && ((one == [] || GoesOn(one[|one| - 1])) ==> |ids| == |one|);
    var ids', causes' :| InTurn(plan, m, k, on, two, ids', causes')
                         && ((two == [] || GoesOn(two[|two| - 1])) ==> |ids'| == |two|);
    SameCalls(plan, m, k, world, on, visible, one, ids, causes, two, ids', causes', |one|);
  }

  lemma OnlySkips(world: World, nodes: seq<NodeId>, calls: seq<Call>, one: ComponentResult, two: ComponentResult)
    requires Traced(calls, one.trace) && Traced(calls, two.trace)
    requires Skipping(world, nodes, calls, one) && Skipping(world, nodes, calls, two)
    ensures one.trace == two.trace && one.error == two.error
  {
    hide Unasked, Times;
    var i: nat :| SkipsUpTo(world, nodes, calls, one.trace[|calls|..], one.error, i);
    var j: nat :| SkipsUpTo(world, nodes, calls, two.trace[|calls|..], two.error, j);
    assert i == j;
    TraceParts(calls, one.trace, two.trace);
  }

  lemma TraceParts(calls: seq<Call>, one: seq<Activity>, two: seq<Activity>)
    requires Traced(calls, one) && Traced(calls, two) && one[|calls|..] == two[|calls|..]
    ensures one == two
  {
    assert one[..|calls|] == two[..|calls|];
    assert one == one[..|calls|] + one[|calls|..] && two == two[..|calls|] + two[|calls|..];
  }

  lemma OnlyKept(m: Model, calls: seq<Call>, one: ComponentResult, two: ComponentResult)
    requires Kept(m, calls, one.edges, one.outputs) && Kept(m, calls, two.edges, two.outputs)
    ensures one.edges == two.edges && one.outputs == two.outputs
  {
    hide SomeSwitches;
    forall id | id in one.outputs || id in two.outputs
      ensures id in one.outputs && id in two.outputs && one.outputs[id] == two.outputs[id] {
      if id in one.outputs {
        var i: nat :| LastSuccess(calls, id, i) && one.outputs[id] == calls[i].answer.output;
        assert id in two.outputs;
      }
      if id in two.outputs {
        var i: nat :| LastSuccess(calls, id, i) && two.outputs[id] == calls[i].answer.output;
        assert id in one.outputs;
      }
      OneLast(m, calls, one, two, id);
    }
    assert forall e: nat :: e in one.edges <==> e in two.edges;
  }

  lemma OneLast(m: Model, calls: seq<Call>, one: ComponentResult, two: ComponentResult, id: NodeId)
    requires Kept(m, calls, one.edges, one.outputs) && Kept(m, calls, two.edges, two.outputs)
    requires id in one.outputs && id in two.outputs
    ensures one.outputs[id] == two.outputs[id]
  {
    hide SomeSwitches;
    var i: nat :| LastSuccess(calls, id, i) && one.outputs[id] == calls[i].answer.output;
    var j: nat :| LastSuccess(calls, id, j) && two.outputs[id] == calls[j].answer.output;
    assert i == j;
  }

  /** What a component does and delivers is fixed by the answers of its nodes. */
  lemma WitnessUnique(plan: Plan, m: Model, k: nat, world: World, on: set<nat>, visible: map<NodeId, Json>,
                      one: ComponentResult, calls: seq<Call>, two: ComponentResult, calls': seq<Call>)
    requires Witnessed(plan, m, k, world, on, visible, one, calls)
    requires Witnessed(plan, m, k, world, on, visible, two, calls')
    ensures calls == calls' && one == two
  {
    hide Chain, Kept, Traced, Queued, Skipping, GoesOn, Entered;
    var c := m.components[k];
    if Entered(c, on) && c.cyclic {
      OnlyCalls(plan, m, k, world, on, visible, calls, calls');
    } else if Entered(c, on) {
      SameAnswer(world, visible, calls, calls', 0);
      assert calls == [calls[0]] && calls' == [calls'[0]];
    }
    OnlyKept(m, calls, one, two);
    OnlyEnd(plan, m, k, world, on, visible, one, two, calls);
  }

  lemma OnlyEnd(plan: Plan, m: Model, k: nat, world: World, on: set<nat>, visible: map<NodeId, Json>,
                one: ComponentResult, two: ComponentResult, calls: seq<Call>)
    requires Witnessed(plan, m, k, world, on, visible, one, calls)
    requires Witnessed(plan, m, k, world, on, visible, two, calls)
    ensures one.trace == two.trace && one.error == two.error && one.rejected == two.rejected
  {
    hide Chain, Kept, Traced, Queued, Skipping, GoesOn, Entered;
    var c := m.components[k];
    if (calls != [] && !GoesOn(calls[|calls| - 1])) || (Entered(c, on) && !c.cyclic) {
      assert one.trace[|calls|..] == [] == two.trace[|calls|..];
      TraceParts(calls, one.trace, two.trace);
    } else {
      OnlySkips(world, c.nodes, calls, one, two);
    }
  }

  // ---------------------------------------------------------------- what it depends on

  /** Of the edges that are on, only those that enter the component matter. */
  lemma AnsweredLocal(plan: Plan, m: Model, k: nat, world: World, on: set<nat>, on': set<nat>,
                      visible: map<NodeId, Json>, r: ComponentResult)
    requires Answered(plan, m, k, world, on, visible, r)
    requires k < |m.components| && forall e :: e in m.components[k].incoming ==> (e in on <==> e in on')
    ensures Answered(plan, m, k, world, on', visible, r)
  {
    hide Chain, Kept, Traced, Queued, Skipping, EndsWith;
    var calls :| Witnessed(plan, m, k, world, on, visible, r, calls);
    if Queued(plan, m, k, on, calls) {
      QueuedLocal(plan, m, k, on, on', calls);
    }
    assert Entered(m.components[k], on) == Entered(m.components[k], on');
    assert Witnessed(plan, m, k, world, on', visible, r, calls);
  }

  lemma QueuedLocal(plan: Plan, m: Model, k: nat, on: set<nat>, on': set<nat>, calls: seq<Call>)
    requires k < |m.components| && forall e :: e in m.components[k].incoming ==> (e in on <==> e in on')
    requires Queued(plan, m, k, on, calls)
    ensures Queued(plan, m, k, on', calls)
  {
    hide Leads, Handled, Before, GoesOn, Waits, Spent;
    var ids, causes :| InTurn(plan, m, k, on, calls, ids, causes)
                       && ((calls == [] || GoesOn(calls[|calls| - 1])) ==> |ids| == |calls|);
    forall cause, id ensures Leads(plan, m, k, on, calls, cause, id) <==> Leads(plan, m, k, on', calls, cause, id) {
      LeadsLocal(plan, m, k, on, on', calls, cause, id);
    }
    forall t | 0 <= t < |causes| ensures Served(plan, m, k, on', calls, ids, causes, t) {
      assert Served(plan, m, k, on, calls, ids, causes, t);
    }
    assert InTurn(plan, m, k, on', calls, ids, causes);
  }

  lemma LeadsLocal(plan: Plan, m: Model, k: nat, on: set<nat>, on': set<nat>, calls: seq<Call>, cause: Cause,
                   id: NodeId)
    requires k < |m.components| && forall e :: e in m.components[k].incoming ==> (e in on <==> e in on')
    ensures Leads(plan, m, k, on, calls, cause, id) <==> Leads(plan, m, k, on', calls, cause, id)
  {
  }
}
