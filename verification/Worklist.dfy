/** The engine's run of a component, worklist and all, is the one that the answers of its nodes allow. */
module Worklist {
  import opened Ordering
  import opened Compiler
  import opened ComponentModel
  import opened Execution
  import opened Answers

  // ---------------------------------------------------------------- one call more

  lemma TimesMore(calls: seq<Call>, c: Call)
    ensures forall id :: Times(calls + [c], id) == Times(calls, id) + if c.id == id then 1 else 0
  {
    assert (calls + [c])[..|calls|] == calls;
  }

  function Given(visible: map<NodeId, Json>, calls: seq<Call>): map<NodeId, Json> {
    if calls == [] then visible else
      var last := calls[|calls| - 1];
      if last.answer.Success? then last.input[last.id := last.answer.output] else last.input
  }

  lemma ChainMore(world: World, visible: map<NodeId, Json>, calls: seq<Call>, c: Call)
    requires Chain(world, visible, calls) && (calls == [] || GoesOn(calls[|calls| - 1]))
    requires c == Call(c.id, Times(calls, c.id), Given(visible, calls), world.exec(c.id, c.iteration, c.input))
    ensures Chain(world, visible, calls + [c])
  {
    hide Asked;
    var longer := calls + [c];
    forall i | 0 <= i < |longer| ensures Asked(world, visible, longer, i) {
      if i < |calls| {
        AskedSame(world, visible, calls, c, i);
      } else {
        AskedNext(world, visible, calls, c);
      }
    }
  }

  lemma AskedSame(world: World, visible: map<NodeId, Json>, calls: seq<Call>, c: Call, i: nat)
    requires i < |calls| && Asked(world, visible, calls, i)
    ensures Asked(world, visible, calls + [c], i)
  {
    assert (calls + [c])[..i] == calls[..i];
  }

  lemma AskedNext(world: World, visible: map<NodeId, Json>, calls: seq<Call>, c: Call)
    requires calls == [] || GoesOn(calls[|calls| - 1])
    requires c == Call(c.id, Times(calls, c.id), Given(visible, calls), world.exec(c.id, c.iteration, c.input))
    ensures Asked(world, visible, calls + [c], |calls|)
  {
    hide Times;
    var longer := calls + [c];
    assert longer[..|calls|] == calls && longer[|calls|] == c;
    assert calls != [] ==> longer[|calls| - 1] == calls[|calls| - 1];
  }

  lemma KeptMore(m: Model, calls: seq<Call>, edges: set<nat>, outputs: map<NodeId, Json>, c: Call)
    requires Kept(m, calls, edges, outputs)
    ensures c.answer.Failure? ==> Kept(m, calls + [c], edges, outputs)
    ensures c.answer.Success? ==>
              Kept(m, calls + [c], edges + Activated(Outgoing(m.outgoing, c.id), c.answer.activated),
                   outputs[c.id := c.answer.output])
  {
    hide Activated, Outgoing, SomeSwitches, LastSuccess;
    EdgesMore(m, calls, edges, c);
    OutputsMore(calls, outputs, c);
  }

  lemma SwitchedOn(m: Model, c: Call, e: nat)
    ensures Switches(m, c, e) <==>
              c.answer.Success? && e in Activated(Outgoing(m.outgoing, c.id), c.answer.activated)
  {
    var outgoing := Outgoing(m.outgoing, c.id);
    if c.answer.Success? && e in Activated(outgoing, c.answer.activated) {
      var p: nat :| p < |outgoing| && p < |c.answer.activated| && c.answer.activated[p] && outgoing[p] == e;
      assert FlagOn(m, c, p);
    }
    if Switches(m, c, e) {
      var p: nat :| FlagOn(m, c, p) && outgoing[p] == e;
      assert outgoing[p] in Activated(outgoing, c.answer.activated);
    }
  }

  lemma EdgesMore(m: Model, calls: seq<Call>, edges: set<nat>, c: Call)
    requires forall e: nat :: e in edges <==> SomeSwitches(m, calls, e)
    ensures var more := if c.answer.Success? then edges + Activated(Outgoing(m.outgoing, c.id), c.answer.activated)
                        else edges;
            forall e: nat :: e in more <==> SomeSwitches(m, calls + [c], e)
  {
    hide Switches, SomeSwitches, Activated, Outgoing;
    var more := if c.answer.Success? then edges + Activated(Outgoing(m.outgoing, c.id), c.answer.activated) else edges;
    forall e: nat ensures e in more <==> SomeSwitches(m, calls + [c], e) {
      SwitchedOn(m, c, e);
      OneMoreSwitch(m, calls, c, e);
    }
  }

  lemma OneMoreSwitch(m: Model, calls: seq<Call>, c: Call, e: nat)
    ensures SomeSwitches(m, calls + [c], e) <==> SomeSwitches(m, calls, e) || Switches(m, c, e)
  {
    hide Switches;
    var longer := calls + [c];
    assert longer[|calls|] == c && forall i :: 0 <= i < |calls| ==> longer[i] == calls[i];
    if i :| 0 <= i < |calls| && Switches(m, calls[i], e) {
      assert Switches(m, longer[i], e);
    }
    if Switches(m, c, e) {
      assert Switches(m, longer[|calls|], e);
    }
  }

  lemma LastMore(calls: seq<Call>, c: Call, id: NodeId, i: nat)
    ensures LastSuccess(calls + [c], id, i) <==>
              if c.answer.Success? && c.id == id then i == |calls| else LastSuccess(calls, id, i)
  {
    var longer := calls + [c];
    assert longer[|calls|] == c && forall i :: 0 <= i < |calls| ==> longer[i] == calls[i];
  }

  lemma OutputsMore(calls: seq<Call>, outputs: map<NodeId, Json>, c: Call)
    requires forall id :: id in outputs ==>
               exists i: nat :: LastSuccess(calls, id, i) && outputs[id] == calls[i].answer.output
    requires forall id, i: nat :: LastSuccess(calls, id, i) ==> id in outputs
    ensures var longer, more := calls + [c], if c.answer.Success? then outputs[c.id := c.answer.output] else outputs;
            && (forall id :: id in more ==>
                  exists i: nat :: LastSuccess(longer, id, i) && more[id] == longer[i].answer.output)
            && (forall id, i: nat :: LastSuccess(longer, id, i) ==> id in more)
  {
    var longer, more := calls + [c], if c.answer.Success? then outputs[c.id := c.answer.output] else outputs;
    forall id | id in more ensures exists i: nat :: LastSuccess(longer, id, i) && more[id] == longer[i].answer.output {
      if c.answer.Success? && c.id == id {
        LastMore(calls, c, id, |calls|);
        assert longer[|calls|] == c;
      } else {
        var i: nat :| LastSuccess(calls, id, i) && outputs[id] == calls[i].answer.output;
        LastMore(calls, c, id, i);
        LastIndex(calls, id, i);
        assert longer[i] == calls[i];
      }
    }
    forall id, i: nat | LastSuccess(longer, id, i) ensures id in more {
      LastMore(calls, c, id, i);
    }
  }

  lemma LastIndex(calls: seq<Call>, id: NodeId, i: nat)
    requires LastSuccess(calls, id, i)
    ensures i < |calls|
  {
  }

  // ---------------------------------------------------------------- joining the line

  function Target(plan: Plan, outgoing: seq<nat>, p: nat): NodeId
    requires p < |outgoing| && ValidEdges(plan, outgoing)
  {
    plan.edges[outgoing[p]].to
  }

  /** The flag at p is on and the edge leads to a member with iterations left. */
  ghost predicate Eligible(plan: Plan, m: Model, k: nat, counts: map<NodeId, nat>, outgoing: seq<nat>,
                           activated: seq<bool>, p: nat)
    requires k < |m.components| && ValidEdges(plan, outgoing)
  {
    && p < |outgoing| && p < |activated| && activated[p] && InComponent(m, k, Target(plan, outgoing, p))
    && Count(counts, Target(plan, outgoing, p)) < m.components[k].maxIterations
  }

  ghost predicate Joined(plan: Plan, m: Model, k: nat, counts: map<NodeId, nat>, queue: seq<NodeId>,
                         outgoing: seq<nat>, activated: seq<bool>, n: nat, added: seq<nat>)
    requires k < |m.components| && ValidEdges(plan, outgoing)
  {
    && (forall i :: 0 <= i < |added| ==>
          n <= added[i] && Eligible(plan, m, k, counts, outgoing, activated, added[i])
          && Target(plan, outgoing, added[i]) !in queue)
    && (forall i, j :: 0 <= i < j < |added| ==>
          added[i] < added[j] && Target(plan, outgoing, added[i]) != Target(plan, outgoing, added[j]))
    && (forall p: nat :: p >= n && Eligible(plan, m, k, counts, outgoing, activated, p) ==>
          p in added || Target(plan, outgoing, p) in queue || SameEarlier(plan, outgoing, added, p))
  }

  ghost predicate SameEarlier(plan: Plan, outgoing: seq<nat>, added: seq<nat>, p: nat)
    requires ValidEdges(plan, outgoing) && p < |outgoing|
  {
    exists i :: 0 <= i < |added| && added[i] < p && added[i] < |outgoing|
                && Target(plan, outgoing, added[i]) == Target(plan, outgoing, p)
  }

  function Targets(plan: Plan, outgoing: seq<nat>, added: seq<nat>): (targets: seq<NodeId>)
    requires ValidEdges(plan, outgoing) && forall i :: 0 <= i < |added| ==> added[i] < |outgoing|
    ensures |targets| == |added|
    ensures forall i :: 0 <= i < |added| ==> targets[i] == Target(plan, outgoing, added[i])
  {
    seq(|added|, i requires 0 <= i < |added| => Target(plan, outgoing, added[i]))
  }

  function From<T>(s: seq<T>, n: nat): seq<T> {
    if n <= |s| then s[n..] else []
  }

  /** Enqueueing puts in line the targets of some positions, in order, and passes over a target only for a reason. */
  lemma {:induction false} EnqueuedJoins(plan: Plan, m: Model, k: nat, counts: map<NodeId, nat>, queue: seq<NodeId>,
                                         outgoing: seq<nat>, activated: seq<bool>, n: nat)
    returns (added: seq<nat>)
    requires k < |m.components| && ValidEdges(plan, outgoing) && n <= |outgoing|
    ensures Joined(plan, m, k, counts, queue, outgoing, activated, n, added)
    ensures forall i :: 0 <= i < |added| ==> added[i] < |outgoing|
    ensures Enqueued(plan, m, k, counts, queue, outgoing[n..], From(activated, n)) ==
              queue + Targets(plan, outgoing, added)
    decreases |outgoing| - n
  {
    hide Joined, Enqueued, Eligible, Target, Targets;
    if n == |outgoing| {
      added := [];
      NobodyJoins(plan, m, k, counts, queue, outgoing, activated);
    } else {
      var here := if Eligible(plan, m, k, counts, outgoing, activated, n) && Target(plan, outgoing, n) !in queue
          then queue + [Target(plan, outgoing, n)] else queue;
      var later := EnqueuedJoins(plan, m, k, counts, here, outgoing, activated, n + 1);
      added := if here == queue then later else [n] + later;
      JoinedHere(plan, m, k, counts, queue, here, outgoing, activated, n, later);
      EnqueuedHere(plan, m, k, counts, queue, outgoing, activated, n);
      TargetsHere(plan, outgoing, queue, n, later);
    }
  }

  lemma NobodyJoins(plan: Plan, m: Model, k: nat, counts: map<NodeId, nat>, queue: seq<NodeId>, outgoing: seq<nat>,
                    activated: seq<bool>)
    requires k < |m.components| && ValidEdges(plan, outgoing)
    ensures Joined(plan, m, k, counts, queue, outgoing, activated, |outgoing|, [])
    ensures Enqueued(plan, m, k, counts, queue, outgoing[|outgoing|..], From(activated, |outgoing|)) ==
              queue + Targets(plan, outgoing, [])
  {
  }

  lemma TargetsHere(plan: Plan, outgoing: seq<nat>, queue: seq<NodeId>, n: nat, later: seq<nat>)
    requires ValidEdges(plan, outgoing) && n < |outgoing| && forall i :: 0 <= i < |later| ==> later[i] < |outgoing|
    ensures forall i :: 0 <= i < |[n] + later| ==> ([n] + later)[i] < |outgoing|
    ensures queue + Targets(plan, outgoing, [n] + later) ==
              queue + [Target(plan, outgoing, n)] + Targets(plan, outgoing, later)
  {
    assert Targets(plan, outgoing, [n] + later) == [Target(plan, outgoing, n)] + Targets(plan, outgoing, later);
  }

  lemma EnqueuedHere(plan: Plan, m: Model, k: nat, counts: map<NodeId, nat>, queue: seq<NodeId>, outgoing: seq<nat>,
                     activated: seq<bool>, n: nat)
    requires k < |m.components| && ValidEdges(plan, outgoing) && n < |outgoing|
    ensures var here := if Eligible(plan, m, k, counts, outgoing, activated, n) && Target(plan, outgoing, n) !in queue
                        then queue + [Target(plan, outgoing, n)] else queue;
            Enqueued(plan, m, k, counts, queue, outgoing[n..], From(activated, n)) ==
              Enqueued(plan, m, k, counts, here, outgoing[n + 1..], From(activated, n + 1))
  {
    assert outgoing[n..][1..] == outgoing[n + 1..] && outgoing[n..][0] == outgoing[n];
    if n < |activated| {
      assert activated[n..][1..] == activated[n + 1..];
    }
  }

  lemma JoinedHere(plan: Plan, m: Model, k: nat, counts: map<NodeId, nat>, queue: seq<NodeId>, here: seq<NodeId>,
                   outgoing: seq<nat>, activated: seq<bool>, n: nat, later: seq<nat>)
    requires k < |m.components| && ValidEdges(plan, outgoing) && n < |outgoing|
    requires here == if Eligible(plan, m, k, counts, outgoing, activated, n) && Target(plan, outgoing, n) !in queue
                     then queue + [Target(plan, outgoing, n)] else queue
    requires Joined(plan, m, k, counts, here, outgoing, activated, n + 1, later)
    ensures Joined(plan, m, k, counts, queue, outgoing, activated, n, if here == queue then later else [n] + later)
  {
    hide Eligible, Target, SameEarlier;
    var added := if here == queue then later else [n] + later;
    EligibleIndex(plan, m, k, counts, outgoing, activated);
    forall p: nat | p >= n && Eligible(plan, m, k, counts, outgoing, activated, p)
      ensures p in added || Target(plan, outgoing, p) in queue || SameEarlier(plan, outgoing, added, p)
    {
      AllJoined(plan, m, k, counts, queue, here, outgoing, activated, n, later, p);
    }
    if here != queue {
      FitHere(plan, m, k, counts, queue, outgoing, activated, n, later);
      ApartHere(plan, outgoing, queue, n, later);
    }
  }

  lemma FitHere(plan: Plan, m: Model, k: nat, counts: map<NodeId, nat>, queue: seq<NodeId>, outgoing: seq<nat>,
                activated: seq<bool>, n: nat, later: seq<nat>)
    requires k < |m.components| && ValidEdges(plan, outgoing) && n < |outgoing|
    requires Eligible(plan, m, k, counts, outgoing, activated, n) && Target(plan, outgoing, n) !in queue
    requires Joined(plan, m, k, counts, queue + [Target(plan, outgoing, n)], outgoing, activated, n + 1, later)
    ensures forall i :: 0 <= i < |[n] + later| ==>
              var p := ([n] + later)[i];
              n <= p && Eligible(plan, m, k, counts, outgoing, activated, p) && Target(plan, outgoing, p) !in queue
  {
    hide Eligible, Target, SameEarlier;
    var here := queue + [Target(plan, outgoing, n)];
    EligibleIndex(plan, m, k, counts, outgoing, activated);
    forall i | 0 <= i < |[n] + later|
      ensures var p := ([n] + later)[i];
              n <= p && Eligible(plan, m, k, counts, outgoing, activated, p) && Target(plan, outgoing, p) !in queue
    {
      if i > 0 {
        assert ([n] + later)[i] == later[i - 1];
        assert forall id :: id in queue ==> id in here;
      }
    }
  }

  lemma ApartHere(plan: Plan, outgoing: seq<nat>, queue: seq<NodeId>, n: nat, later: seq<nat>)
    requires ValidEdges(plan, outgoing) && n < |outgoing|
    requires forall i :: 0 <= i < |later| ==>
               n < later[i] < |outgoing|
               && Target(plan, outgoing, later[i]) !in queue + [Target(plan, outgoing, n)]
    requires forall i, j :: 0 <= i < j < |later| ==>
               later[i] < later[j] && Target(plan, outgoing, later[i]) != Target(plan, outgoing, later[j])
    ensures var added := [n] + later;
            forall i, j :: 0 <= i < j < |added| ==>
              added[i] < added[j] && Target(plan, outgoing, added[i]) != Target(plan, outgoing, added[j])
  {
    hide Target;
    var here, added := queue + [Target(plan, outgoing, n)], [n] + later;
    assert here[|queue|] == Target(plan, outgoing, n);
    forall i, j | 0 <= i < j < |added|
      ensures added[i] < added[j] && Target(plan, outgoing, added[i]) != Target(plan, outgoing, added[j])
    {
      assert added[j] == later[j - 1];
    }
  }

  lemma AllJoined(plan: Plan, m: Model, k: nat, counts: map<NodeId, nat>, queue: seq<NodeId>, here: seq<NodeId>,
                  outgoing: seq<nat>, activated: seq<bool>, n: nat, later: seq<nat>, p: nat)
    requires k < |m.components| && ValidEdges(plan, outgoing) && n < |outgoing|
    requires here == if Eligible(plan, m, k, counts, outgoing, activated, n) && Target(plan, outgoing, n) !in queue
                     then queue + [Target(plan, outgoing, n)] else queue
    requires Joined(plan, m, k, counts, here, outgoing, activated, n + 1, later)
    requires p >= n && Eligible(plan, m, k, counts, outgoing, activated, p)
    ensures p < |outgoing|
    ensures var added := if here == queue then later else [n] + later;
            p in added || Target(plan, outgoing, p) in queue || SameEarlier(plan, outgoing, added, p)
  {
    hide Eligible, Target, SameEarlier;
    EligibleIndex(plan, m, k, counts, outgoing, activated);
    if p == n {
      assert here != queue ==> ([n] + later)[0] == n;
    } else if p in later {
      assert here != queue ==> p in [n] + later;
    } else if SameEarlier(plan, outgoing, later, p) {
      SameLater(plan, outgoing, n, later, p);
    } else if Target(plan, outgoing, p) !in queue {
      SameFirst(plan, outgoing, n, later, p);
    }
  }

  lemma SameFirst(plan: Plan, outgoing: seq<nat>, n: nat, later: seq<nat>, p: nat)
    requires ValidEdges(plan, outgoing) && n < p < |outgoing|
    requires Target(plan, outgoing, n) == Target(plan, outgoing, p)
    ensures SameEarlier(plan, outgoing, [n] + later, p)
  {
    assert ([n] + later)[0] == n;
  }

  lemma EligibleIndex(plan: Plan, m: Model, k: nat, counts: map<NodeId, nat>, outgoing: seq<nat>, activated: seq<bool>)
    requires k < |m.components| && ValidEdges(plan, outgoing)
    ensures forall p: nat :: Eligible(plan, m, k, counts, outgoing, activated, p) ==> p < |outgoing|
  {
  }

  lemma SameLater(plan: Plan, outgoing: seq<nat>, n: nat, later: seq<nat>, p: nat)
    requires ValidEdges(plan, outgoing) && p < |outgoing| && SameEarlier(plan, outgoing, later, p)
    ensures SameEarlier(plan, outgoing, [n] + later, p)
  {
    hide Target;
    var i :| 0 <= i < |later| && later[i] < p && later[i] < |outgoing|
             && Target(plan, outgoing, later[i]) == Target(plan, outgoing, p);
    assert ([n] + later)[i + 1] == later[i];
  }

  // ---------------------------------------------------------------- the line after one call more

  /** What the call puts in line. */
  ghost predicate LeadsNow(plan: Plan, m: Model, k: nat, c: Call, p: nat, id: NodeId) {
    && GoesOn(c) && FlagOn(m, c, p) && InComponent(m, k, id)
    && var e := Outgoing(m.outgoing, c.id)[p]; e < |plan.edges| && plan.edges[e].to == id
  }

  lemma LeadsMore(plan: Plan, m: Model, k: nat, on: set<nat>, calls: seq<Call>, c: Call, cause: Cause, id: NodeId)
    requires k < |m.components|
    ensures Leads(plan, m, k, on, calls + [c], cause, id) <==>
              || Leads(plan, m, k, on, calls, cause, id)
              || (cause.ByCall? && cause.index == |calls| && LeadsNow(plan, m, k, c, cause.position, id))
    ensures Leads(plan, m, k, on, calls, cause, id) && cause.ByCall? ==> cause.index < |calls|
  {
    hide FlagOn, GoesOn, Outgoing, InComponent;
    var longer := calls + [c];
    assert longer[|calls|] == c;
    assert cause.ByCall? && cause.index < |calls| ==> longer[cause.index] == calls[cause.index];
  }

  lemma SpentMore(m: Model, k: nat, calls: seq<Call>, c: Call, cause: Cause, id: NodeId)
    requires k < |m.components| && (cause.ByCall? ==> cause.index < |calls|)
    ensures Spent(m, k, calls + [c], cause, id) <==> Spent(m, k, calls, cause, id)
  {
    hide Times;
    assert cause.ByCall? ==> (calls + [c])[..cause.index + 1] == calls[..cause.index + 1];
  }

  lemma WaitsMore(ids: seq<NodeId>, more: seq<NodeId>, end: nat, cause: Cause, id: NodeId)
    requires end <= |ids|
    ensures Waits(ids + more, end, cause, id) <==> Waits(ids, end, cause, id)
  {
    assert forall s :: 0 <= s < |ids| ==> (ids + more)[s] == ids[s];
  }

  lemma ServedMore(plan: Plan, m: Model, k: nat, on: set<nat>, calls: seq<Call>, c: Call, ids: seq<NodeId>,
                   more: seq<NodeId>, causes: seq<Cause>, new_: seq<Cause>, t: nat)
    requires k < |m.components| && t < |ids| == |causes| && |more| == |new_|
    requires Served(plan, m, k, on, calls, ids, causes, t)
    ensures Served(plan, m, k, on, calls + [c], ids + more, causes + new_, t)
  {
    hide Leads, Waits, Spent;
    assert (ids + more)[t] == ids[t] && (causes + new_)[t] == causes[t];
    LeadsMore(plan, m, k, on, calls, c, causes[t], ids[t]);
    SpentMore(m, k, calls, c, causes[t], ids[t]);
    WaitsMore(ids, more, t, causes[t], ids[t]);
  }

  lemma HandledMore(plan: Plan, m: Model, k: nat, on: set<nat>, calls: seq<Call>, c: Call, ids: seq<NodeId>,
                    more: seq<NodeId>, causes: seq<Cause>, new_: seq<Cause>, cause: Cause, id: NodeId)
    requires k < |m.components| && |ids| == |causes| && |more| == |new_|
    requires Leads(plan, m, k, on, calls, cause, id) && Handled(m, k, calls, ids, causes, cause, id)
    ensures Handled(m, k, calls + [c], ids + more, causes + new_, cause, id)
  {
    hide Leads, Spent, Before;
    LeadsMore(plan, m, k, on, calls, c, cause, id);
    SpentMore(m, k, calls, c, cause, id);
    if s :| 0 <= s < |ids| && ids[s] == id && Before(causes[s], cause) && (cause.ByCall? ==> s > cause.index) {
      assert (ids + more)[s] == ids[s] && (causes + new_)[s] == causes[s];
    }
  }

  function Causes(index: nat, added: seq<nat>): (causes: seq<Cause>)
    ensures |causes| == |added| && forall i :: 0 <= i < |added| ==> causes[i] == ByCall(index, added[i])
  {
    seq(|added|, i requires 0 <= i < |added| => ByCall(index, added[i]))
  }

  /** The call's own causes, in the terms of its outgoing edges. */
  lemma LeadsHere(plan: Plan, m: Model, k: nat, counts: map<NodeId, nat>, c: Call, p: nat, id: NodeId)
    requires k < |m.components| && ValidEdges(plan, Outgoing(m.outgoing, c.id)) && GoesOn(c)
    ensures Eligible(plan, m, k, counts, Outgoing(m.outgoing, c.id), c.answer.activated, p) ==>
              LeadsNow(plan, m, k, c, p, Target(plan, Outgoing(m.outgoing, c.id), p))
    ensures LeadsNow(plan, m, k, c, p, id) ==>
              && p < |Outgoing(m.outgoing, c.id)| && id == Target(plan, Outgoing(m.outgoing, c.id), p)
              && (Count(counts, id) < m.components[k].maxIterations ==>
                    Eligible(plan, m, k, counts, Outgoing(m.outgoing, c.id), c.answer.activated, p))
  {
    var outgoing := Outgoing(m.outgoing, c.id);
    assert p < |outgoing| ==> outgoing[p] in outgoing;
  }

  /** The line is still in turn when the call puts nobody in it. */
  lemma TurnEnds(plan: Plan, m: Model, k: nat, on: set<nat>, calls: seq<Call>, ids: seq<NodeId>, causes: seq<Cause>,
                 c: Call)
    requires k < |m.components| && InTurn(plan, m, k, on, calls, ids, causes)
    requires |calls| < |ids| && c.id == ids[|calls|] && !GoesOn(c)
    ensures InTurn(plan, m, k, on, calls + [c], ids, causes)
  {
    hide Leads, Served, Handled, Before, GoesOn;
    assert ids + [] == ids && causes + [] == causes;
    forall t | 0 <= t < |causes| ensures Served(plan, m, k, on, calls + [c], ids, causes, t) {
      ServedMore(plan, m, k, on, calls, c, ids, [], causes, [], t);
    }
    forall cause, id | Leads(plan, m, k, on, calls + [c], cause, id)
      ensures Handled(m, k, calls + [c], ids, causes, cause, id) {
      LeadsMore(plan, m, k, on, calls, c, cause, id);
      HandledMore(plan, m, k, on, calls, c, ids, [], causes, [], cause, id);
    }
  }

  /** The line is in turn with those whom the call puts at its end. */
  lemma TurnGoesOn(plan: Plan, m: Model, k: nat, on: set<nat>, calls: seq<Call>, ids: seq<NodeId>, causes: seq<Cause>,
                   c: Call, counts: map<NodeId, nat>, added: seq<nat>)
    requires k < |m.components| && InTurn(plan, m, k, on, calls, ids, causes)
    requires |calls| < |ids| && c.id == ids[|calls|] && GoesOn(c) && ValidEdges(plan, Outgoing(m.outgoing, c.id))
    requires forall id :: Count(counts, id) == Times(calls + [c], id)
    requires forall i :: 0 <= i < |added| ==> added[i] < |Outgoing(m.outgoing, c.id)|
    requires Joined(plan, m, k, counts, ids[|calls| + 1..], Outgoing(m.outgoing, c.id), c.answer.activated, 0, added)
    ensures InTurn(plan, m, k, on, calls + [c], ids + Targets(plan, Outgoing(m.outgoing, c.id), added),
                   causes + Causes(|calls|, added))
  {
    hide Served, Handled, Leads, Joined, Before, Targets, Causes, Outgoing, InTurn, Times, Count;
    var more, new_ := Targets(plan, Outgoing(m.outgoing, c.id), added), Causes(|calls|, added);
    TurnFacts(plan, m, k, on, calls, ids, causes, c);
    JoinedRises(plan, m, k, counts, ids[|calls| + 1..], Outgoing(m.outgoing, c.id), c.answer.activated, added);
    CausesInOrder(causes, |calls|, added);
    CallsInLine(calls, ids, more, c);
    forall t | 0 <= t < |causes| + |added|
      ensures Served(plan, m, k, on, calls + [c], ids + more, causes + new_, t) {
      AllServed(plan, m, k, on, calls, ids, causes, c, counts, added, t);
    }
    forall cause, id | Leads(plan, m, k, on, calls + [c], cause, id)
      ensures Handled(m, k, calls + [c], ids + more, causes + new_, cause, id) {
      AllHandled(plan, m, k, on, calls, ids, causes, c, counts, added, cause, id);
    }
    TurnIs(plan, m, k, on, calls + [c], ids + more, causes + new_);
  }

  lemma AllServed(plan: Plan, m: Model, k: nat, on: set<nat>, calls: seq<Call>, ids: seq<NodeId>, causes: seq<Cause>,
                  c: Call, counts: map<NodeId, nat>, added: seq<nat>, t: nat)
    requires k < |m.components| && |calls| < |ids| == |causes| && GoesOn(c)
    requires ValidEdges(plan, Outgoing(m.outgoing, c.id))
    requires forall id :: Count(counts, id) == Times(calls + [c], id)
    requires forall i :: 0 <= i < |added| ==> added[i] < |Outgoing(m.outgoing, c.id)|
    requires Joined(plan, m, k, counts, ids[|calls| + 1..], Outgoing(m.outgoing, c.id), c.answer.activated, 0, added)
    requires forall s :: 0 <= s < |causes| ==> Served(plan, m, k, on, calls, ids, causes, s)
    requires t < |causes| + |added|
    ensures Served(plan, m, k, on, calls + [c], ids + Targets(plan, Outgoing(m.outgoing, c.id), added),
                   causes + Causes(|calls|, added), t)
  {
    hide Served, Joined, Targets, Causes, Outgoing, Times, Count;
    if t < |causes| {
      ServedMore(plan, m, k, on, calls, c, ids, Targets(plan, Outgoing(m.outgoing, c.id), added), causes,
                 Causes(|calls|, added), t);
    } else {
      ServedNew(plan, m, k, on, calls, ids, causes, c, counts, added, t - |causes|);
    }
  }

  lemma AllHandled(plan: Plan, m: Model, k: nat, on: set<nat>, calls: seq<Call>, ids: seq<NodeId>, causes: seq<Cause>,
                   c: Call, counts: map<NodeId, nat>, added: seq<nat>, cause: Cause, id: NodeId)
    requires k < |m.components| && |calls| < |ids| == |causes| && GoesOn(c)
    requires ValidEdges(plan, Outgoing(m.outgoing, c.id))
    requires forall id :: Count(counts, id) == Times(calls + [c], id)
    requires forall i :: 0 <= i < |added| ==> added[i] < |Outgoing(m.outgoing, c.id)|
    requires Joined(plan, m, k, counts, ids[|calls| + 1..], Outgoing(m.outgoing, c.id), c.answer.activated, 0, added)
    requires forall s :: 0 <= s < |causes| && causes[s].ByCall? ==> causes[s].index < |calls|
    requires forall cause, id :: Leads(plan, m, k, on, calls, cause, id) ==>
               Handled(m, k, calls, ids, causes, cause, id)
    requires Leads(plan, m, k, on, calls + [c], cause, id)
    ensures Handled(m, k, calls + [c], ids + Targets(plan, Outgoing(m.outgoing, c.id), added),
                    causes + Causes(|calls|, added), cause, id)
  {
    hide Leads, Handled, LeadsNow, Joined, Targets, Causes, Outgoing, Times, Count;
    LeadsMore(plan, m, k, on, calls, c, cause, id);
    if Leads(plan, m, k, on, calls, cause, id) {
      HandledMore(plan, m, k, on, calls, c, ids, Targets(plan, Outgoing(m.outgoing, c.id), added), causes,
                  Causes(|calls|, added), cause, id);
    } else {
      HandledNew(plan, m, k, calls, ids, causes, c, counts, added, cause.position, id);
    }
  }

  lemma TurnIs(plan: Plan, m: Model, k: nat, on: set<nat>, calls: seq<Call>, ids: seq<NodeId>, causes: seq<Cause>)
    requires k < |m.components| && |calls| <= |ids| == |causes|
    requires forall t :: 0 <= t < |calls| ==> ids[t] == calls[t].id
    requires forall s, t :: 0 <= s < t < |causes| ==> Before(causes[s], causes[t])
    requires forall t :: 0 <= t < |causes| ==> Served(plan, m, k, on, calls, ids, causes, t)
    requires forall cause, id :: Leads(plan, m, k, on, calls, cause, id) ==>
               Handled(m, k, calls, ids, causes, cause, id)
    ensures InTurn(plan, m, k, on, calls, ids, causes)
  {
    hide Served, Handled, Leads, Before;
  }

  lemma TurnFacts(plan: Plan, m: Model, k: nat, on: set<nat>, calls: seq<Call>, ids: seq<NodeId>, causes: seq<Cause>,
                  c: Call)
    requires k < |m.components| && InTurn(plan, m, k, on, calls, ids, causes)
    ensures |calls| <= |ids| == |causes| && forall t :: 0 <= t < |calls| ==> ids[t] == calls[t].id
    ensures forall s, t :: 0 <= s < t < |causes| ==> Before(causes[s], causes[t])
    ensures forall t :: 0 <= t < |causes| ==> Served(plan, m, k, on, calls, ids, causes, t)
    ensures forall cause, id :: Leads(plan, m, k, on, calls, cause, id) ==>
              Handled(m, k, calls, ids, causes, cause, id)
    ensures forall s :: 0 <= s < |causes| && causes[s].ByCall? ==> causes[s].index < |calls|
  {
    hide Leads, Handled, Waits, Spent, Before;
    forall s | 0 <= s < |causes| && causes[s].ByCall? ensures causes[s].index < |calls| {
      assert Served(plan, m, k, on, calls, ids, causes, s);
      LeadsMore(plan, m, k, on, calls, c, causes[s], ids[s]);
    }
  }

  lemma JoinedRises(plan: Plan, m: Model, k: nat, counts: map<NodeId, nat>, queue: seq<NodeId>, outgoing: seq<nat>,
                    activated: seq<bool>, added: seq<nat>)
    requires k < |m.components| && ValidEdges(plan, outgoing)
    requires Joined(plan, m, k, counts, queue, outgoing, activated, 0, added)
    ensures forall i, j :: 0 <= i < j < |added| ==> added[i] < added[j]
  {
    hide Eligible, SameEarlier;
  }

  lemma CallsInLine(calls: seq<Call>, ids: seq<NodeId>, more: seq<NodeId>, c: Call)
    requires |calls| < |ids| && c.id == ids[|calls|] && forall t :: 0 <= t < |calls| ==> ids[t] == calls[t].id
    ensures forall t :: 0 <= t < |calls + [c]| ==> (ids + more)[t] == (calls + [c])[t].id
  {
  }

  lemma CausesInOrder(causes: seq<Cause>, n: nat, added: seq<nat>)
    requires forall s, t :: 0 <= s < t < |causes| ==> Before(causes[s], causes[t])
    requires forall s :: 0 <= s < |causes| && causes[s].ByCall? ==> causes[s].index < n
    requires forall i, j :: 0 <= i < j < |added| ==> added[i] < added[j]
    ensures forall s, t :: 0 <= s < t < |causes + Causes(n, added)| ==>
              Before((causes + Causes(n, added))[s], (causes + Causes(n, added))[t])
  {
  }

  lemma ServedNew(plan: Plan, m: Model, k: nat, on: set<nat>, calls: seq<Call>, ids: seq<NodeId>, causes: seq<Cause>,
                  c: Call, counts: map<NodeId, nat>, added: seq<nat>, i: nat)
    requires k < |m.components| && |calls| < |ids| == |causes| && GoesOn(c)
    requires ValidEdges(plan, Outgoing(m.outgoing, c.id))
    requires forall id :: Count(counts, id) == Times(calls + [c], id)
    requires forall i :: 0 <= i < |added| ==> added[i] < |Outgoing(m.outgoing, c.id)|
    requires Joined(plan, m, k, counts, ids[|calls| + 1..], Outgoing(m.outgoing, c.id), c.answer.activated, 0, added)
    requires i < |added|
    ensures Served(plan, m, k, on, calls + [c], ids + Targets(plan, Outgoing(m.outgoing, c.id), added),
                   causes + Causes(|calls|, added), |ids| + i)
  {
    hide Leads, SameEarlier, Outgoing, Times, Count, LeadsNow, InComponent;
    var outgoing := Outgoing(m.outgoing, c.id);
    var more, new_ := Targets(plan, outgoing, added), Causes(|calls|, added);
    var id, cause := Target(plan, outgoing, added[i]), ByCall(|calls|, added[i]);
    assert (ids + more)[|ids| + i] == id && (causes + new_)[|ids| + i] == cause;
    LeadsHere(plan, m, k, counts, c, added[i], id);
    LeadsMore(plan, m, k, on, calls, c, cause, id);
    assert (calls + [c])[..|calls| + 1] == calls + [c];
    assert Eligible(plan, m, k, counts, outgoing, c.answer.activated, added[i]);
    forall s | |calls| < s < |ids| + i ensures (ids + more)[s] != id {
      if s < |ids| {
        assert ids[|calls| + 1..][s - |calls| - 1] == ids[s];
      } else {
        assert (ids + more)[s] == Target(plan, outgoing, added[s - |ids|]);
      }
    }
  }

  lemma HandledNew(plan: Plan, m: Model, k: nat, calls: seq<Call>, ids: seq<NodeId>, causes: seq<Cause>, c: Call,
                   counts: map<NodeId, nat>, added: seq<nat>, p: nat, id: NodeId)
    requires k < |m.components| && |ids| == |causes|
    requires forall s :: 0 <= s < |causes| && causes[s].ByCall? ==> causes[s].index < |calls|
    requires |calls| < |ids| && GoesOn(c) && ValidEdges(plan, Outgoing(m.outgoing, c.id))
    requires forall id :: Count(counts, id) == Times(calls + [c], id)
    requires forall i :: 0 <= i < |added| ==> added[i] < |Outgoing(m.outgoing, c.id)|
    requires Joined(plan, m, k, counts, ids[|calls| + 1..], Outgoing(m.outgoing, c.id), c.answer.activated, 0, added)
    requires LeadsNow(plan, m, k, c, p, id)
    ensures Handled(m, k, calls + [c], ids + Targets(plan, Outgoing(m.outgoing, c.id), added),
                    causes + Causes(|calls|, added), ByCall(|calls|, p), id)
  {
    hide Outgoing, Times, Count, LeadsNow, Target, Eligible, Handled, Before, Targets, Causes;
    var outgoing := Outgoing(m.outgoing, c.id);
    var more, new_, cause := Targets(plan, outgoing, added), Causes(|calls|, added), ByCall(|calls|, p);
    LeadsHere(plan, m, k, counts, c, p, id);
    if Count(counts, id) >= m.components[k].maxIterations {
      SpentHandled(m, k, calls, ids + more, causes + new_, c, counts, cause, id);
    } else if p in added {
      var i :| 0 <= i < |added| && added[i] == p;
      JoinLast(causes, new_, i);
      CausedHandled(m, k, calls + [c], ids + more, causes + new_, cause, id);
    } else if id in ids[|calls| + 1..] {
      var s :| 0 <= s < |ids[|calls| + 1..]| && ids[|calls| + 1..][s] == id;
      var t := |calls| + 1 + s;
      JoinFirst(ids, more, t);
      JoinFirst(causes, new_, t);
      BeforeNew(causes[t], |calls|, p);
      WaitedHandled(m, k, calls + [c], ids + more, causes + new_, cause, id, t);
    } else {
      var i :| 0 <= i < |added| && added[i] < p && added[i] < |outgoing|
               && Target(plan, outgoing, added[i]) == Target(plan, outgoing, p);
      JoinLast(ids, more, i);
      JoinLast(causes, new_, i);
      BeforeNew(ByCall(|calls|, added[i]), |calls|, p);
      WaitedHandled(m, k, calls + [c], ids + more, causes + new_, cause, id, |ids| + i);
    }
  }

  lemma JoinFirst<T>(s: seq<T>, t: seq<T>, i: nat)
    requires i < |s|
    ensures (s + t)[i] == s[i]
  {
  }

  lemma JoinLast<T>(s: seq<T>, t: seq<T>, i: nat)
    requires i < |t|
    ensures (s + t)[|s| + i] == t[i]
  {
  }

  lemma BeforeNew(a: Cause, n: nat, p: nat)
    requires a.ByCall? ==> a.index < n || (a.index == n && a.position < p)
    ensures Before(a, ByCall(n, p))
  {
  }

  lemma CausedHandled(m: Model, k: nat, calls: seq<Call>, ids: seq<NodeId>, causes: seq<Cause>, cause: Cause,
                      id: NodeId)
    requires k < |m.components| && |ids| == |causes| && cause in causes
    ensures Handled(m, k, calls, ids, causes, cause, id)
  {
  }

  lemma WaitedHandled(m: Model, k: nat, calls: seq<Call>, ids: seq<NodeId>, causes: seq<Cause>, cause: Cause,
                      id: NodeId, s: nat)
    requires k < |m.components| && |ids| == |causes|
    requires s < |ids| && ids[s] == id && Before(causes[s], cause) && (cause.ByCall? ==> s > cause.index)
    ensures Handled(m, k, calls, ids, causes, cause, id)
  {
  }

  lemma SpentHandled(m: Model, k: nat, calls: seq<Call>, ids: seq<NodeId>, causes: seq<Cause>, c: Call,
                     counts: map<NodeId, nat>, cause: Cause, id: NodeId)
    requires k < |m.components| && |ids| == |causes| && cause.ByCall? && cause.index == |calls|
    requires Count(counts, id) == Times(calls + [c], id) && Count(counts, id) >= m.components[k].maxIterations
    ensures Handled(m, k, calls + [c], ids, causes, cause, id)
  {
    assert (calls + [c])[..|calls| + 1] == calls + [c];
  }

  // ---------------------------------------------------------------- the line at the start

  /** Which entering edges put someone in line: the first that is on for each member they lead to. */
  ghost predicate Firsts(plan: Plan, incoming: seq<nat>, on: set<nat>, js: seq<nat>, ids: seq<NodeId>)
    requires ValidEdges(plan, incoming)
  {
    && |js| == |ids|
    && (forall i :: 0 <= i < |js| ==>
          js[i] < |incoming| && incoming[js[i]] in on && plan.edges[incoming[js[i]]].to == ids[i])
    && (forall i, j :: 0 <= i < j < |js| ==> js[i] < js[j] && ids[i] != ids[j])
    && (forall j: nat :: j < |incoming| && incoming[j] in on ==> FirstFor(plan, incoming, js, ids, j))
  }

  ghost predicate FirstFor(plan: Plan, incoming: seq<nat>, js: seq<nat>, ids: seq<NodeId>, j: nat)
    requires ValidEdges(plan, incoming) && j < |incoming| && |js| == |ids|
  {
    exists i :: 0 <= i < |js| && js[i] <= j && ids[i] == plan.edges[incoming[j]].to
  }

  lemma {:induction false} EntriesFirsts(plan: Plan, incoming: seq<nat>, on: set<nat>) returns (js: seq<nat>)
    requires ValidEdges(plan, incoming)
    ensures Firsts(plan, incoming, on, js, Entries(plan, incoming, on))
    decreases |incoming|
  {
    js := [];
    if incoming != [] {
      var init, last := incoming[..|incoming| - 1], |incoming| - 1;
      var before := Entries(plan, init, on);
      js := EntriesFirsts(plan, init, on);
      var target := plan.edges[incoming[last]].to;
      if incoming[last] in on && target !in before {
        FirstsMore(plan, incoming, on, js, before, [last], [target]);
        js := js + [last];
      } else {
        FirstsMore(plan, incoming, on, js, before, [], []);
        assert js + [] == js && before + [] == before;
      }
    }
  }

  lemma FirstsMore(plan: Plan, incoming: seq<nat>, on: set<nat>, js: seq<nat>, ids: seq<NodeId>, more: seq<nat>,
                   targets: seq<NodeId>)
    requires incoming != [] && ValidEdges(plan, incoming)
    requires Firsts(plan, incoming[..|incoming| - 1], on, js, ids)
    requires var last := incoming[|incoming| - 1];
             var target := plan.edges[last].to;
             && more == (if last in on && target !in ids then [|incoming| - 1] else [])
             && targets == if last in on && target !in ids then [target] else []
    ensures Firsts(plan, incoming, on, js + more, ids + targets)
  {
    hide FirstFor;
    var init, target := incoming[..|incoming| - 1], plan.edges[incoming[|incoming| - 1]].to;
    FirstsHold(plan, incoming, on, js, ids, more, targets);
    forall j: nat | j < |incoming| && incoming[j] in on
      ensures FirstFor(plan, incoming, js + more, ids + targets, j)
    {
      if j < |init| {
        assert FirstFor(plan, init, js, ids, j);
        FirstStill(plan, incoming, js, ids, more, targets, j);
      } else if target in ids {
        var i :| 0 <= i < |ids| && ids[i] == target;
        FirstAt(plan, incoming, js + more, ids + targets, i, j);
      } else {
        FirstAt(plan, incoming, js + more, ids + targets, |js|, j);
      }
    }
  }

  lemma FirstAt(plan: Plan, incoming: seq<nat>, js: seq<nat>, ids: seq<NodeId>, i: nat, j: nat)
    requires ValidEdges(plan, incoming) && j < |incoming| && |js| == |ids|
    requires i < |js| && js[i] <= j && ids[i] == plan.edges[incoming[j]].to
    ensures FirstFor(plan, incoming, js, ids, j)
  {
  }

  lemma FirstStill(plan: Plan, incoming: seq<nat>, js: seq<nat>, ids: seq<NodeId>, more: seq<nat>,
                   targets: seq<NodeId>, j: nat)
    requires incoming != [] && ValidEdges(plan, incoming) && |js| == |ids| && |more| == |targets|
    requires j < |incoming| - 1 && FirstFor(plan, incoming[..|incoming| - 1], js, ids, j)
    ensures FirstFor(plan, incoming, js + more, ids + targets, j)
  {
    var i :| 0 <= i < |js| && js[i] <= j && ids[i] == plan.edges[incoming[..|incoming| - 1][j]].to;
    assert (js + more)[i] == js[i] && (ids + targets)[i] == ids[i];
  }

  /** The one more is behind all the others. */
  lemma FirstsHold(plan: Plan, incoming: seq<nat>, on: set<nat>, js: seq<nat>, ids: seq<NodeId>, more: seq<nat>,
                   targets: seq<NodeId>)
    requires incoming != [] && ValidEdges(plan, incoming)
    requires Firsts(plan, incoming[..|incoming| - 1], on, js, ids)
    requires var last := incoming[|incoming| - 1];
             var target := plan.edges[last].to;
             && more == (if last in on && target !in ids then [|incoming| - 1] else [])
             && targets == if last in on && target !in ids then [target] else []
    ensures forall i :: 0 <= i < |js + more| ==>
              var j := (js + more)[i];
              j < |incoming| && incoming[j] in on && plan.edges[incoming[j]].to == (ids + targets)[i]
    ensures forall i, j :: 0 <= i < j < |js + more| ==>
              (js + more)[i] < (js + more)[j] && (ids + targets)[i] != (ids + targets)[j]
  {
    hide FirstFor;
    if more == [] {
      assert js + more == js && ids + targets == ids;
    }
  }

  function EntryCauses(js: seq<nat>): (causes: seq<Cause>)
    ensures |causes| == |js| && forall i :: 0 <= i < |js| ==> causes[i] == ByEntry(js[i])
  {
    seq(|js|, i requires 0 <= i < |js| => ByEntry(js[i]))
  }

  lemma StartInTurn(plan: Plan, m: Model, k: nat, on: set<nat>) returns (causes: seq<Cause>)
    requires Usable(plan, m, k)
    ensures InTurn(plan, m, k, on, [], StartQueue(plan, m.components[k], on), causes)
  {
    var c := m.components[k];
    var ids := StartQueue(plan, c, on);
    if c.incoming == [] {
      causes := [ByEntry(0)];
      FirstAlone(plan, m, k, on);
    } else {
      var js := EntriesFirsts(plan, c.incoming, on);
      causes := EntryCauses(js);
      FirstsInTurn(plan, m, k, on, js, ids);
    }
  }

  lemma FirstAlone(plan: Plan, m: Model, k: nat, on: set<nat>)
    requires k < |m.components| && m.components[k].incoming == [] && m.components[k].nodes != []
    ensures InTurn(plan, m, k, on, [], [m.components[k].nodes[0]], [ByEntry(0)])
  {
    forall cause, id | Leads(plan, m, k, on, [], cause, id)
      ensures Handled(m, k, [], [m.components[k].nodes[0]], [ByEntry(0)], cause, id) {
      assert cause == ByEntry(0);
    }
  }

  lemma FirstsInTurn(plan: Plan, m: Model, k: nat, on: set<nat>, js: seq<nat>, ids: seq<NodeId>)
    requires k < |m.components| && m.components[k].incoming != [] && ValidEdges(plan, m.components[k].incoming)
    requires Firsts(plan, m.components[k].incoming, on, js, ids)
    ensures InTurn(plan, m, k, on, [], ids, EntryCauses(js))
  {
    hide EntryCauses, FirstFor;
    var incoming, causes := m.components[k].incoming, EntryCauses(js);
    forall t | 0 <= t < |causes| ensures Served(plan, m, k, on, [], ids, causes, t) {
    }
    forall cause, id | Leads(plan, m, k, on, [], cause, id) ensures Handled(m, k, [], ids, causes, cause, id) {
      FirstHandles(plan, m, k, js, ids, cause.position);
    }
  }

  lemma FirstHandles(plan: Plan, m: Model, k: nat, js: seq<nat>, ids: seq<NodeId>, j: nat)
    requires k < |m.components| && ValidEdges(plan, m.components[k].incoming) && j < |m.components[k].incoming|
    requires |js| == |ids| && FirstFor(plan, m.components[k].incoming, js, ids, j)
    ensures Handled(m, k, [], ids, EntryCauses(js), ByEntry(j), plan.edges[m.components[k].incoming[j]].to)
  {
    var incoming, causes := m.components[k].incoming, EntryCauses(js);
    var i :| 0 <= i < |js| && js[i] <= j && ids[i] == plan.edges[incoming[j]].to;
    assert causes[i] == ByEntry(js[i]);
  }

  // ---------------------------------------------------------------- the worklist makes such calls

  /** What has been called so far, next to the state of the worklist. */
  ghost predicate Told(plan: Plan, m: Model, k: nat, world: World, on: set<nat>, visible: map<NodeId, Json>, w: Work,
                       calls: seq<Call>, ids: seq<NodeId>, causes: seq<Cause>)
    requires k < |m.components|
  {
    && Chain(world, visible, calls) && Kept(m, calls, w.result.edges, w.result.outputs)
    && Traced(calls, w.result.trace) && |w.result.trace| == |calls|
    && (forall id :: Count(w.counts, id) == Times(calls, id))
    && InTurn(plan, m, k, on, calls, ids, causes)
    && if w.stopped then calls != [] && !GoesOn(calls[|calls| - 1]) && EndsWith(calls, w.result, false)
       else
         && !w.result.rejected && w.result.error == "" && (calls == [] || GoesOn(calls[|calls| - 1]))
         && w.local == Given(visible, calls) && ids[|calls|..] == w.queue
  }

  ghost function NextCall(world: World, visible: map<NodeId, Json>, calls: seq<Call>, id: NodeId): Call {
    var iteration, input := Times(calls, id), Given(visible, calls);
    Call(id, iteration, input, world.exec(id, iteration, input))
  }

  /** What a turn does to the work state, in the terms of the call it makes. */
  lemma StepCalls(plan: Plan, m: Model, k: nat, world: World, w: Work, c: Call)
    requires Usable(plan, m, k) && Disciplined(m, k, w) && w.queue != []
    requires c == Call(w.queue[0], Count(w.counts, w.queue[0]), w.local, world.exec(c.id, c.iteration, c.input))
    ensures var next := Step(plan, m, k, world, w);
            && next.counts == w.counts[c.id := c.iteration + 1]
            && next.result.trace == w.result.trace + [Executed(c.id, c.iteration)]
            && next.stopped == !GoesOn(c)
            && (c.answer.Failure? ==> next.result == w.result.(error := c.answer.error, trace := next.result.trace))
            && (c.answer.Success? ==>
                  && next.result.edges == w.result.edges + Activated(Outgoing(m.outgoing, c.id), c.answer.activated)
                  && next.result.outputs == w.result.outputs[c.id := c.answer.output]
                  && next.result.rejected == (w.result.rejected || c.answer.rejected)
                  && next.result.error == w.result.error)
            && (GoesOn(c) ==>
                  && next.local == w.local[c.id := c.answer.output]
                  && next.queue == Enqueued(plan, m, k, next.counts, w.queue[1..], Outgoing(m.outgoing, c.id),
                                            c.answer.activated))
  {
    hide Enqueued, NoDuplicates, Activated;
    assert w.queue[0] in w.queue;
  }

  lemma {:induction false} DrainTold(plan: Plan, m: Model, k: nat, world: World, on: set<nat>,
                                     visible: map<NodeId, Json>, w: Work, calls: seq<Call>, ids: seq<NodeId>,
                                     causes: seq<Cause>)
    returns (calls': seq<Call>, ids': seq<NodeId>, causes': seq<Cause>)
    requires Usable(plan, m, k) && Disciplined(m, k, w) && Told(plan, m, k, world, on, visible, w, calls, ids, causes)
    ensures Told(plan, m, k, world, on, visible, Drain(plan, m, k, world, w), calls', ids', causes')
    decreases Budget(m, k, w.counts)
  {
    hide Usable, Disciplined, Told, Step;
    if w.queue == [] || w.stopped {
      calls', ids', causes' := calls, ids, causes;
    } else {
      StepDisciplined(plan, m, k, world, w);
      calls', ids', causes' := StepTold(plan, m, k, world, on, visible, w, calls, ids, causes);
      calls', ids', causes' :=
        DrainTold(plan, m, k, world, on, visible, Step(plan, m, k, world, w), calls', ids', causes');
    }
  }

  lemma StepTold(plan: Plan, m: Model, k: nat, world: World, on: set<nat>, visible: map<NodeId, Json>, w: Work,
                 calls: seq<Call>, ids: seq<NodeId>, causes: seq<Cause>)
    returns (calls': seq<Call>, ids': seq<NodeId>, causes': seq<Cause>)
    requires Usable(plan, m, k) && Disciplined(m, k, w) && w.queue != [] && !w.stopped
    requires Told(plan, m, k, world, on, visible, w, calls, ids, causes)
    ensures Told(plan, m, k, world, on, visible, Step(plan, m, k, world, w), calls', ids', causes')
  {
    hide Disciplined, Step, Chain, Kept, InTurn, Traced, Times, Count, Given, Outgoing, Enqueued, Activated;
    var c := NextCall(world, visible, calls, w.queue[0]);
    calls' := calls + [c];
    StepCalls(plan, m, k, world, w, c);
    ChainMore(world, visible, calls, c);
    KeptMore(m, calls, w.result.edges, w.result.outputs, c);
    ids', causes' := StepInTurn(plan, m, k, world, on, visible, w, calls, ids, causes, c);
    StepTraced(calls, w.result.trace, c);
    StepCounts(w.counts, calls, c);
    assert calls'[|calls|] == c;
    if GoesOn(c) {
      StepLocal(visible, calls, c);
    }
  }

  lemma StepTraced(calls: seq<Call>, trace: seq<Activity>, c: Call)
    requires Traced(calls, trace) && |trace| == |calls|
    ensures Traced(calls + [c], trace + [Executed(c.id, c.iteration)])
  {
  }

  lemma StepCounts(counts: map<NodeId, nat>, calls: seq<Call>, c: Call)
    requires (forall id :: Count(counts, id) == Times(calls, id)) && c.iteration == Times(calls, c.id)
    ensures forall id :: Count(counts[c.id := c.iteration + 1], id) == Times(calls + [c], id)
  {
    TimesMore(calls, c);
    hide Times;
  }

  lemma StepLocal(visible: map<NodeId, Json>, calls: seq<Call>, c: Call)
    requires GoesOn(c) && c.input == Given(visible, calls)
    ensures Given(visible, calls + [c]) == Given(visible, calls)[c.id := c.answer.output]
  {
    assert (calls + [c])[|calls|] == c;
  }

  lemma StepInTurn(plan: Plan, m: Model, k: nat, world: World, on: set<nat>, visible: map<NodeId, Json>, w: Work,
                   calls: seq<Call>, ids: seq<NodeId>, causes: seq<Cause>, c: Call)
    returns (ids': seq<NodeId>, causes': seq<Cause>)
    requires Usable(plan, m, k) && Disciplined(m, k, w) && w.queue != [] && InTurn(plan, m, k, on, calls, ids, causes)
    requires ids[|calls|..] == w.queue && forall id :: Count(w.counts, id) == Times(calls, id)
    requires c == Call(w.queue[0], Count(w.counts, w.queue[0]), w.local, world.exec(c.id, c.iteration, c.input))
    ensures InTurn(plan, m, k, on, calls + [c], ids', causes')
    ensures GoesOn(c) ==> ids'[|calls| + 1..] == Step(plan, m, k, world, w).queue
  {
    hide Disciplined, Step, InTurn, Times, Count, GoesOn, Outgoing, Enqueued, Targets, Causes;
    TurnFacts(plan, m, k, on, calls, ids, causes, c);
    assert ids[|calls|..][0] == ids[|calls|] && ids[|calls|..][1..] == ids[|calls| + 1..];
    if GoesOn(c) {
      var outgoing := Outgoing(m.outgoing, c.id);
      StepCalls(plan, m, k, world, w, c);
      StepCounts(w.counts, calls, c);
      var counts := w.counts[c.id := c.iteration + 1];
      Succeeds(c);
      var added := EnqueuedJoins(plan, m, k, counts, w.queue[1..], outgoing, c.answer.activated, 0);
      assert outgoing[0..] == outgoing && c.answer.activated[0..] == c.answer.activated;
      TurnGoesOn(plan, m, k, on, calls, ids, causes, c, counts, added);
      ids', causes' := ids + Targets(plan, outgoing, added), causes + Causes(|calls|, added);
      assert ids'[|calls| + 1..] == ids[|calls| + 1..] + Targets(plan, outgoing, added);
    } else {
      ids', causes' := ids, causes;
      TurnEnds(plan, m, k, on, calls, ids, causes, c);
    }
  }

  lemma Succeeds(c: Call)
    requires GoesOn(c)
    ensures c.answer.Success?
  {
  }

  // ---------------------------------------------------------------- the skips, and the whole component

  lemma {:induction false} SkipRestSkips(world: World, nodes: seq<NodeId>, counts: map<NodeId, nat>, calls: seq<Call>,
                                         r: ComponentResult)
    returns (j: nat)
    requires (forall id :: Count(counts, id) == Times(calls, id)) && r.error == ""
    ensures j <= |nodes|
    ensures var s := SkipRest(world, nodes, counts, r);
            && s.edges == r.edges && s.outputs == r.outputs && s.rejected == r.rejected
            && s.trace == r.trace + Unasked(nodes[..j], calls)
            && SkipsUpTo(world, nodes, calls, Unasked(nodes[..j], calls), s.error, j)
  {
    hide Times, Count;
    if nodes == [] {
      j := 0;
    } else if Times(calls, nodes[0]) == 0 && world.skipError(nodes[0]) != "" {
      j := 0;
    } else {
      var next := if Times(calls, nodes[0]) == 0 then r.(trace := r.trace + [Skipped(nodes[0])]) else r;
      var i := SkipRestSkips(world, nodes[1..], counts, calls, next);
      j := i + 1;
      assert nodes[..j][1..] == nodes[1..][..i] && nodes[..j][0] == nodes[0];
      assert forall a :: 0 < a < j ==> nodes[a] == nodes[1..][a - 1];
    }
  }

  lemma SkipsShow(world: World, nodes: seq<NodeId>, calls: seq<Call>, trace: seq<Activity>, r: ComponentResult, j: nat)
    requires Traced(calls, trace) && |trace| == |calls| && j <= |nodes|
    requires r.trace == trace + Unasked(nodes[..j], calls)
    requires SkipsUpTo(world, nodes, calls, Unasked(nodes[..j], calls), r.error, j)
    ensures Traced(calls, r.trace) && Skipping(world, nodes, calls, r)
  {
    hide SkipsUpTo, Unasked;
    assert r.trace[|calls|..] == Unasked(nodes[..j], calls);
  }

  lemma NothingKept(m: Model)
    ensures Kept(m, [], {}, map[])
  {
  }

  /** The result of a component is witnessed by calls of its nodes. */
  lemma RunWitnessed(plan: Plan, m: Model, k: nat, world: World, on: set<nat>, visible: map<NodeId, Json>)
    returns (calls: seq<Call>)
    requires Usable(plan, m, k) && EntersInside(plan, m, k)
    ensures Witnessed(plan, m, k, world, on, visible, RunComponent(plan, m, k, world, on, visible), calls)
  {
    hide Usable, EntersInside, SkipRest, Drain, Kept, Skipping;
    NothingKept(m);
    ComponentNodes(plan, m, k);
    var c := m.components[k];
    if !Entered(c, on) {
      calls := [];
      var j := SkipRestSkips(world, c.nodes, map[], [], NOTHING);
      SkipsShow(world, c.nodes, [], [], RunComponent(plan, m, k, world, on, visible), j);
    } else if !c.cyclic {
      calls := SingleWitnessed(plan, m, k, world, on, visible);
    } else {
      calls := CyclicWitnessed(plan, m, k, world, on, visible);
    }
  }

  lemma ComponentNodes(plan: Plan, m: Model, k: nat)
    requires Usable(plan, m, k)
    ensures k < |m.components| && m.components[k].nodes != [] && ValidEdges(plan, m.components[k].incoming)
  {
  }

  lemma SingleWitnessed(plan: Plan, m: Model, k: nat, world: World, on: set<nat>, visible: map<NodeId, Json>)
    returns (calls: seq<Call>)
    requires Usable(plan, m, k) && EntersInside(plan, m, k)
    requires Entered(m.components[k], on) && !m.components[k].cyclic
    ensures Witnessed(plan, m, k, world, on, visible, RunComponent(plan, m, k, world, on, visible), calls)
  {
    hide Usable, EntersInside, Kept, Activated, Outgoing;
    ComponentNodes(plan, m, k);
    var c := NextCall(world, visible, [], m.components[k].nodes[0]);
    calls := [] + [c];
    NothingKept(m);
    ChainMore(world, visible, [], c);
    KeptMore(m, [], {}, map[], c);
  }

  lemma CyclicWitnessed(plan: Plan, m: Model, k: nat, world: World, on: set<nat>, visible: map<NodeId, Json>)
    returns (calls: seq<Call>)
    requires Usable(plan, m, k) && EntersInside(plan, m, k)
    requires Entered(m.components[k], on) && m.components[k].cyclic
    ensures Witnessed(plan, m, k, world, on, visible, RunComponent(plan, m, k, world, on, visible), calls)
  {
    hide Usable, EntersInside, Drain, Kept, InTurn, Chain, SkipRest, Disciplined, Times, Count, GoesOn, Skipping;
    ComponentNodes(plan, m, k);
    var c := m.components[k];
    var start := Starting(plan, c, on, visible);
    StartDisciplined(plan, m, k, on, visible);
    var causes := StartInTurn(plan, m, k, on);
    StartTold(plan, m, k, world, on, visible, causes);
    var ids;
    calls, ids, causes := DrainTold(plan, m, k, world, on, visible, start, [], start.queue, causes);
    var w := Drained(plan, m, k, world, on, visible);
    DrainEnds(plan, m, k, world, start);
    TurnFacts(plan, m, k, on, calls, ids, causes, NextCall(world, visible, [], ""));
    if !w.stopped {
      var j := SkipRestSkips(world, c.nodes, w.counts, calls, w.result);
      SkipsShow(world, c.nodes, calls, w.result.trace, RunComponent(plan, m, k, world, on, visible), j);
    }
  }

  lemma StartTold(plan: Plan, m: Model, k: nat, world: World, on: set<nat>, visible: map<NodeId, Json>,
                  causes: seq<Cause>)
    requires Usable(plan, m, k) && InTurn(plan, m, k, on, [], StartQueue(plan, m.components[k], on), causes)
    ensures Told(plan, m, k, world, on, visible, Starting(plan, m.components[k], on, visible), [],
                 StartQueue(plan, m.components[k], on), causes)
  {
    hide InTurn, Usable;
    NothingKept(m);
  }

  lemma {:induction false} DrainEnds(plan: Plan, m: Model, k: nat, world: World, w: Work)
    requires Usable(plan, m, k) && Disciplined(m, k, w)
    ensures Drain(plan, m, k, world, w).queue == [] || Drain(plan, m, k, world, w).stopped
    decreases Budget(m, k, w.counts)
  {
    hide Usable, Disciplined, Step;
    if w.queue != [] && !w.stopped {
      StepDisciplined(plan, m, k, world, w);
      DrainEnds(plan, m, k, world, Step(plan, m, k, world, w));
    }
  }

  /** Of all results, the run of the component is the one that its nodes' answers allow. */
  lemma RunAnswered(plan: Plan, m: Model, k: nat, world: World, on: set<nat>, visible: map<NodeId, Json>,
                    r: ComponentResult)
    requires Usable(plan, m, k) && EntersInside(plan, m, k)
    ensures Answered(plan, m, k, world, on, visible, r) <==> r == RunComponent(plan, m, k, world, on, visible)
  {
    hide Usable, EntersInside, RunComponent, Witnessed;
    var run := RunComponent(plan, m, k, world, on, visible);
    var calls := RunWitnessed(plan, m, k, world, on, visible);
    assert Answered(plan, m, k, world, on, visible, run);
    if Answered(plan, m, k, world, on, visible, r) {
      var calls' :| Witnessed(plan, m, k, world, on, visible, r, calls');
      WitnessUnique(plan, m, k, world, on, visible, r, calls', run, calls);
    }
  }

  // ---------------------------------------------------------------- the engine's loops compute that function

  method SkipMethod(world: World, nodes: seq<NodeId>, counts: map<NodeId, nat>, result0: ComponentResult)
    returns (result: ComponentResult)
    ensures result == SkipRest(world, nodes, counts, result0)
  {
    result := result0;
    for i := 0 to |nodes|
      invariant SkipRest(world, nodes[i..], counts, result) == SkipRest(world, nodes, counts, result0)
    {
      assert nodes[i..][1..] == nodes[i + 1..];
      if Count(counts, nodes[i]) == 0 {
        var error := world.skipError(nodes[i]);
        if error != "" {
          return result.(error := error);
        }
        result := result.(trace := result.trace + [Skipped(nodes[i])]);
      }
    }
  }

  method InitialQueue(plan: Plan, c: Component, on: set<nat>) returns (queue: seq<NodeId>)
    requires c.nodes != [] && ValidEdges(plan, c.incoming)
    ensures queue == StartQueue(plan, c, on)
  {
    queue := [];
    var queued: set<NodeId> := {};
    for i := 0 to |c.incoming|
      invariant queue == Entries(plan, c.incoming[..i], on)
      invariant forall id :: id in queued <==> id in queue
    {
      assert c.incoming[..i + 1][..i] == c.incoming[..i];
      var edge := c.incoming[i];
      if edge in on {
        var target := plan.edges[edge].to;
        if target !in queued {
          queue, queued := queue + [target], queued + {target};
        }
      }
    }
    assert c.incoming[..|c.incoming|] == c.incoming;
    if queue == [] && c.incoming == [] {
      queue := [c.nodes[0]];
    }
  }

  method PushTargets(plan: Plan, m: Model, k: nat, counts: map<NodeId, nat>, queue0: seq<NodeId>, queued0: set<NodeId>,
                     outgoing: seq<nat>, activated: seq<bool>)
    returns (queue: seq<NodeId>, queued: set<NodeId>)
    requires Usable(plan, m, k) && ValidEdges(plan, outgoing)
    requires forall id :: id in queued0 <==> id in queue0
    ensures queue == Enqueued(plan, m, k, counts, queue0, outgoing, activated)
    ensures forall id :: id in queued <==> id in queue
  {
    queue, queued := queue0, queued0;
    for position := 0 to |outgoing|
      invariant Enqueued(plan, m, k, counts, queue, outgoing[position..],
                  if position <= |activated| then activated[position..] else [])
                == Enqueued(plan, m, k, counts, queue0, outgoing, activated)
      invariant forall id :: id in queued <==> id in queue
    {
      assert outgoing[position] in outgoing;
      assert outgoing[position..][1..] == outgoing[position + 1..];
      if position < |activated| {
        assert activated[position..][1..] == activated[position + 1..];
      }
      if position < |activated| && activated[position] {
        var target := plan.edges[outgoing[position]].to;
        if InComponent(m, k, target) && Count(counts, target) < m.components[k].maxIterations && target !in queued {
          queue, queued := queue + [target], queued + {target};
        }
      }
    }
  }

  /** One turn of the loop, updating the queue and its membership set side by side. */
  method WorkTurn(plan: Plan, m: Model, k: nat, world: World, queue0: seq<NodeId>, queued0: set<NodeId>,
                  counts0: map<NodeId, nat>,
                  local0: map<NodeId, Json>, result0: ComponentResult)
    returns (queue: seq<NodeId>, queued: set<NodeId>, counts: map<NodeId, nat>, local: map<NodeId, Json>,
             result: ComponentResult, stopped: bool)
    requires Usable(plan, m, k) && queue0 != [] && NoDuplicates(queue0)
    requires forall id :: id in queued0 <==> id in queue0
    ensures Work(queue, counts, local, result, stopped) ==
              Step(plan, m, k, world, Work(queue0, counts0, local0, result0, false))
    ensures !stopped ==> forall id :: id in queued <==> id in queue
  {
    counts, local, result, stopped := counts0, local0, result0, false;
    var id := queue0[0];
    queue := queue0[1..];
    assert queue0 == [id] + queue;
    queued := queued0 - {id};
    if Count(counts, id) >= m.components[k].maxIterations {
      return;
    }
    var iteration := Count(counts, id);
    counts := counts[id := iteration + 1];
    var done := world.exec(id, iteration, local);
    if done.Failure? {
      result := result.(error := done.error, trace := result.trace + [Executed(id, iteration)]);
      stopped := true;
      return;
    }
    var outgoing := Outgoing(m.outgoing, id);
    result := Recorded(result, id, iteration, outgoing, done);
    local := local[id := done.output];
    if done.rejected {
      result := result.(rejected := true);
      stopped := true;
      return;
    }
    queue, queued := PushTargets(plan, m, k, counts, queue, queued, outgoing, done.activated);
  }

  method RunWorklist(plan: Plan, m: Model, k: nat, world: World, on: set<nat>, visible: map<NodeId, Json>)
    returns (result: ComponentResult)
    requires Usable(plan, m, k) && EntersInside(plan, m, k)
    requires m.components[k].cyclic && ComponentActive(m.components[k], on)
    ensures result == RunComponent(plan, m, k, world, on, visible)
  {
    StartDisciplined(plan, m, k, on, visible);
    var c := m.components[k];
    var queue := InitialQueue(plan, c, on);
    var queued := set id | id in queue;
    var counts, local, stopped := map[], visible, false;
    result := NOTHING;
    ghost var final := Drain(plan, m, k, world, Starting(plan, c, on, visible));
    while queue != []
      invariant !stopped && Disciplined(m, k, Work(queue, counts, local, result, stopped))
      invariant Drain(plan, m, k, world, Work(queue, counts, local, result, stopped)) == final
      invariant forall id :: id in queued <==> id in queue
      decreases Budget(m, k, counts)
    {
      StepDisciplined(plan, m, k, world, Work(queue, counts, local, result, false));
      queue, queued, counts, local, result, stopped :=
          WorkTurn(plan, m, k, world, queue, queued, counts, local, result);
      if stopped {
        return;
      }
    }
    result := SkipMethod(world, c.nodes, counts, result);
  }

  method ExecutePlanComponent(plan: Plan, m: Model, k: nat, world: World, active: bool, on: set<nat>,
                              visible: map<NodeId, Json>)
    returns (result: ComponentResult)
    requires Usable(plan, m, k) && EntersInside(plan, m, k) && active == ComponentActive(m.components[k], on)
    ensures result == RunComponent(plan, m, k, world, on, visible)
    ensures Answered(plan, m, k, world, on, visible, result)
  {
    RunAnswered(plan, m, k, world, on, visible, RunComponent(plan, m, k, world, on, visible));
    hide Answered, SkipRest, Activated;
    var c := m.components[k];
    if !active {
      result := SkipMethod(world, c.nodes, map[], NOTHING);
    } else if !c.cyclic {
      var node := c.nodes[0];
      var done := world.exec(node, 0, visible);
      if done.Failure? {
        return NOTHING.(error := done.error, trace := [Executed(node, 0)]);
      }
      result := Recorded(NOTHING, node, 0, Outgoing(m.outgoing, node), done);
      result := result.(rejected := done.rejected);
    } else {
      result := RunWorklist(plan, m, k, world, on, visible);
    }
  }
}
