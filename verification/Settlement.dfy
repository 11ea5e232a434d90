/** What the components of a history really ran on. */
module Settlement {
  import opened Graphs
  import opened Ordering
  import opened Compiler
  import opened Kahn
  import opened ComponentModel
  import opened Execution
  import opened ExecutionFacts
  import opened Locality
  import opened Sequential
  import opened Reachability
  import opened History
  import opened Answers
  import opened Worklist

  /** c was started on a state whose flags on its entering edges are those of now, and r is what it made of it. */
  ghost predicate Launched(plan: Plan, m: Model, world: World, play: Play, c: nat, r: ComponentResult) {
    && c in play.starts && Usable(plan, m, c) && EntersInside(plan, m, c)
    && r == RunComponent(plan, m, c, world, play.starts[c].edges, play.starts[c].outputs)
    && SameEntering(m, c, play.starts[c].edges, play.state.edges)
  }

  ghost predicate SameEntering(m: Model, c: nat, one: set<nat>, two: set<nat>) {
    c < |m.components| && forall e :: e in m.components[c].incoming ==> (e in one <==> e in two)
  }

  /**
   * Everything running or done is what its component made of the state it started on, and the state holds just that.
   */
  ghost predicate Genuine(plan: Plan, m: Model, world: World, play: Play) {
    && (forall c :: c in play.flight ==> Launched(plan, m, world, play, c, play.flight[c]))
    && (forall c :: c in play.state.results ==> Launched(plan, m, world, play, c, play.state.results[c]))
    && Collected(play.state.results, play.state.results.Keys, play.state.edges, play.state.outputs)
  }

  lemma StartGenuine(plan: Plan, m: Model, world: World, play: Play, c: nat)
    requires Genuine(plan, m, world, play) && c < |m.components| && c !in play.starts
    requires IsModelOf(plan, m)
    ensures Genuine(plan, m, world, Played(plan, m, world, play, Started(c)))
  {
    hide IsModelOf, RunComponent, Usable, EntersInside, Collected;
    ModelUsable(plan, m, c);
    var next := Played(plan, m, world, play, Started(c));
    forall k | k in next.flight ensures Launched(plan, m, world, next, k, next.flight[k]) {
      if k != c {
        assert Launched(plan, m, world, play, k, play.flight[k]);
      }
    }
  }

  /** What a component switches on leaves it, so it enters no component that has already started. */
  lemma LeavesOthersAlone(plan: Plan, m: Model, world: World, play: Play, c: nat, k: nat, e: nat)
    requires Booked(plan, m, play) && Genuine(plan, m, world, play) && c in play.flight && k in play.starts
    requires k < |m.components| && e in m.components[k].incoming
    requires IsModelOf(plan, m)
    ensures e !in play.flight[c].edges
  {
    hide IsModelOf, RunComponent, EntersInside, Collected, AllOk;
    EdgeSource(plan, m, k, e);
    PredecessorsAre(plan, m, k);
    assert Launched(plan, m, world, play, c, play.flight[c]);
    RunOwn(plan, m, c, world, play.starts[c].edges, play.starts[c].outputs);
    SourceIsDone(plan, m, play, k, m.componentByNode[plan.edges[e].from]);
  }

  lemma SourceIsDone(plan: Plan, m: Model, play: Play, k: nat, p: nat)
    requires Booked(plan, m, play) && k in play.starts && k < |m.components|
    requires p in Elements(m.components[k].predecessors)
    ensures p in play.state.results && p !in play.flight
  {
    hide AllOk, Elements;
  }

  lemma StillEntering(plan: Plan, m: Model, world: World, play: Play, c: nat, k: nat)
    requires Booked(plan, m, play) && Genuine(plan, m, world, play) && c in play.flight && k in play.starts
    requires SameEntering(m, k, play.starts[k].edges, play.state.edges)
    requires IsModelOf(plan, m)
    ensures SameEntering(m, k, play.starts[k].edges, play.state.edges + play.flight[c].edges)
  {
    hide IsModelOf, Booked, Genuine;
    forall e | e in m.components[k].incoming ensures e !in play.flight[c].edges {
      LeavesOthersAlone(plan, m, world, play, c, k, e);
    }
  }

  lemma LaunchedKept(plan: Plan, m: Model, world: World, play: Play, next: Play, c: nat, k: nat, r: ComponentResult)
    requires Booked(plan, m, play) && Genuine(plan, m, world, play) && c in play.flight
             && Launched(plan, m, world, play, k, r)
    requires next.starts == play.starts && next.state.edges == play.state.edges + play.flight[c].edges
    requires IsModelOf(plan, m)
    ensures Launched(plan, m, world, next, k, r)
  {
    hide IsModelOf, Booked, Genuine, RunComponent, Usable, EntersInside, SameEntering;
    StillEntering(plan, m, world, play, c, k);
  }

  lemma LaunchedOwn(plan: Plan, m: Model, world: World, play: Play, k: nat, r: ComponentResult)
    requires Launched(plan, m, world, play, k, r)
    ensures k < |m.components| && Own(plan, m.components[k].nodes, r)
  {
    hide RunComponent, SameEntering, EntersInside;
    RunOwn(plan, m, k, world, play.starts[k].edges, play.starts[k].outputs);
  }

  /** What is merged when c finishes as it was due to. */
  lemma FinishCollected(plan: Plan, m: Model, world: World, play: Play, c: nat)
    requires Genuine(plan, m, world, play) && c in play.flight && c !in play.state.results
    requires IsModelOf(plan, m)
    ensures var next := Merged(play.state, c, play.flight[c]);
            Collected(next.results, play.state.results.Keys + {c}, next.edges, next.outputs)
  {
    hide IsModelOf, Launched, Collected, Own;
    var results := play.state.results[c := play.flight[c]];
    forall k | k in results ensures k < |m.components| && Own(plan, m.components[k].nodes, results[k]) {
      LaunchedOwn(plan, m, world, play, k, results[k]);
    }
    CollectedExtends(play.state.results, results, play.state.results.Keys, play.state.edges, play.state.outputs);
    CollectOne(plan, m, results, play.state.results.Keys, play.state, c);
  }

  /** The entering flags of every component that has started stay as they are through any further completion. */
  lemma FinishGenuine(plan: Plan, m: Model, world: World, play: Play, c: nat)
    requires Booked(plan, m, play) && Genuine(plan, m, world, play) && c in play.flight && Ok(play.flight[c])
    requires IsModelOf(plan, m)
    ensures Genuine(plan, m, world, Played(plan, m, world, play, Finished(c, play.flight[c])))
  {
    hide IsModelOf, Launched, Collected, Parted, Preceded, AllOk;
    BookedApart(plan, m, play, c);
    FinishCollected(plan, m, world, play, c);
    var r := play.flight[c];
    PlayedFinish(plan, m, world, play, c, r);
    var next := Played(plan, m, world, play, Finished(c, r));
    assert next.state == Merged(play.state, c, r) && next.state.edges == play.state.edges + r.edges;
    forall k | k in next.flight ensures Launched(plan, m, world, next, k, next.flight[k]) {
      LaunchedKept(plan, m, world, play, next, c, k, play.flight[k]);
    }
    forall k | k in next.state.results ensures Launched(plan, m, world, next, k, next.state.results[k]) {
      LaunchedKept(plan, m, world, play, next, c, k, next.state.results[k]);
    }
  }

  lemma {:induction false} HistoryGenuine(plan: Plan, m: Model, world: World, log: seq<Event>)
    requires IsHistory(plan, m, world, log) && !Playback(plan, m, world, log).stopped
    requires IsModelOf(plan, m)
    ensures Genuine(plan, m, world, Playback(plan, m, world, log))
  {
    hide IsModelOf, Genuine, Booked, Played, FirstReady, Elements, Ok;
    if log == [] {
      NothingGenuine(plan, m, world);
    } else {
      var before, last := log[..|log| - 1], log[|log| - 1];
      var play := Playback(plan, m, world, before);
      HistoryBooked(plan, m, world, before);
      StoppedStays(plan, m, world, play, last);
      HistoryGenuine(plan, m, world, before);
      match last
      case Started(c) =>
        StartPermitted(plan, m, play, c);
        StartGenuine(plan, m, world, play, c);
      case Sent(c, r) =>
        PlayedSend(plan, m, world, play, c, r);
        SameGenuine(plan, m, world, play, Played(plan, m, world, play, last));
      case Finished(c, r) =>
        FinishGenuine(plan, m, world, play, c);
    }
  }

  lemma SameGenuine(plan: Plan, m: Model, world: World, play: Play, next: Play)
    requires Genuine(plan, m, world, play)
    requires next.flight == play.flight && next.state == play.state && next.starts == play.starts
    ensures Genuine(plan, m, world, next)
  {
    hide Collected, RunComponent, Usable, EntersInside, SameEntering;
    forall c | c in next.flight ensures Launched(plan, m, world, next, c, next.flight[c]) {
      assert Launched(plan, m, world, play, c, play.flight[c]);
    }
    forall c | c in next.state.results ensures Launched(plan, m, world, next, c, next.state.results[c]) {
      assert Launched(plan, m, world, play, c, play.state.results[c]);
    }
  }

  lemma NothingGenuine(plan: Plan, m: Model, world: World)
    ensures Genuine(plan, m, world, OPENING)
  {
  }

  /** The state a component was started on is the state at that point of the history. */
  lemma {:induction false} StartedOn(plan: Plan, m: Model, world: World, log: seq<Event>, i: nat)
    requires IsHistory(plan, m, world, log) && i < |log| && log[i].Started?
    ensures var play := Playback(plan, m, world, log);
            log[i].index in play.starts && play.starts[log[i].index] == Playback(plan, m, world, log[..i]).state
    decreases |log|
  {
    hide Due, Merged, Elements;
    var before, last := log[..|log| - 1], log[|log| - 1];
    if i < |log| - 1 {
      StartedOn(plan, m, world, before, i);
      assert before[..i] == log[..i];
    }
  }

  /** As long as nothing has gone wrong, the flags on a component's entering edges are still those it started with. */
  lemma EnteringEdgesFinal(plan: Plan, m: Model, world: World, log: seq<Event>, i: nat)
    requires IsHistory(plan, m, world, log) && !Playback(plan, m, world, log).stopped && i < |log| && log[i].Started?
    requires IsModelOf(plan, m)
    ensures log[i].index < |m.components|
    ensures forall e :: e in m.components[log[i].index].incoming ==>
              (e in Playback(plan, m, world, log[..i]).state.edges <==> e in Playback(plan, m, world, log).state.edges)
  {
    hide IsModelOf, IsHistory, Playback, RunComponent, Usable, EntersInside, Collected, Preceded, AllOk;
    var play, c := Playback(plan, m, world, log), log[i].index;
    HistoryGenuine(plan, m, world, log);
    HistoryBooked(plan, m, world, log);
    StartedOn(plan, m, world, log, i);
    assert c in play.starts.Keys;
    assert c in play.flight || c in play.state.results;
  }

  /** A component that ran to its end without error or rejection did what its specification says on the final flags. */
  lemma LaunchedExact(plan: Plan, m: Model, world: World, play: Play, k: nat)
    requires k in play.state.results && Launched(plan, m, world, play, k, play.state.results[k])
             && Ok(play.state.results[k])
    requires Compiled(plan) && ErrorsHaveText(world)
    requires IsModelOf(plan, m)
    ensures Exact(plan, m, play.state.results, k, play.state.edges)
  {
    hide IsModelOf, Compiled, ErrorsHaveText, RunComponent, Usable, EntersInside, Accounted, Reached, SccShaped, Ok;
    var start := play.starts[k];
    SccsShaped(plan, m, k);
    ComponentExact(plan, m, k, world, start.edges, start.outputs);
    ReachedLocal(plan, m, k, start.edges, play.state.edges, play.state.results[k]);
  }

  /**
   * When every component has finished and nothing went wrong, each ran on the flags that are on at the end, whatever
   * outputs its nodes read and whatever the schedule was.
   */
  lemma SucceededSettles(plan: Plan, m: Model, world: World, log: seq<Event>)
    requires IsHistory(plan, m, world, log) && !Playback(plan, m, world, log).stopped
             && IsOver(m, Playback(plan, m, world, log))
    requires Compiled(plan) && ErrorsHaveText(world)
    requires IsModelOf(plan, m)
    ensures SettledRun(plan, m, world, Playback(plan, m, world, log).state)
  {
    hide IsModelOf, Compiled, ErrorsHaveText, Exact, Genuine, Booked, Playback, IsHistory, Ok;
    var play := Playback(plan, m, world, log);
    HistoryGenuine(plan, m, world, log);
    HistoryBooked(plan, m, world, log);
    BookedDone(plan, m, play);
    forall k | 0 <= k < |m.components| ensures Exact(plan, m, play.state.results, k, play.state.edges) {
      GenuineResult(plan, m, world, play, k);
      LaunchedExact(plan, m, world, play, k);
    }
    FlagsCollected(plan, m, world, play);
    OutputsCollected(plan, m, world, play);
    forall k | 0 <= k < |m.components| ensures AnsweredAt(plan, m, world, play.state, k) {
      GenuineResult(plan, m, world, play, k);
      LaunchedAnswered(plan, m, world, log, k);
    }
  }

  // ---------------------------------------------------------------- what the components were answered

  lemma OutputsCollected(plan: Plan, m: Model, world: World, play: Play)
    requires Genuine(plan, m, world, play) && Booked(plan, m, play) && !play.stopped
    ensures OutputsKept(play.state)
  {
    hide Launched, Parted, Preceded;
    forall k | k in play.state.results ensures play.state.results[k].error == "" {
      assert Ok(play.state.results[k]);
    }
  }

  /** What a component was started on: the outcome of some of the components, and of all that lead to it. */
  ghost predicate Begins(plan: Plan, m: Model, k: nat, start: RunState, results: map<nat, ComponentResult>) {
    && Collected(start.results, start.results.Keys, start.edges, start.outputs)
    && (forall p :: p in start.results ==> p in results && results[p] == start.results[p])
    && k < |m.components| && k !in start.results
    && DownClosed(Components(plan, m), start.results.Keys)
    && forall p :: (p, k) in Components(plan, m) ==> p in start.results.Keys
  }

  lemma {:induction false} StoppedLater(plan: Plan, m: Model, world: World, log: seq<Event>, i: nat)
    requires i <= |log|
    ensures Playback(plan, m, world, log[..i]).stopped ==> Playback(plan, m, world, log).stopped
    decreases |log|
  {
    hide Played;
    if i == |log| {
      assert log[..i] == log;
    } else {
      var before := log[..|log| - 1];
      assert before[..i] == log[..i];
      StoppedLater(plan, m, world, before, i);
      StoppedStays(plan, m, world, Playback(plan, m, world, before), log[|log| - 1]);
    }
  }

  lemma ResultsStay(plan: Plan, m: Model, world: World, log: seq<Event>, i: nat, c: nat)
    requires IsHistory(plan, m, world, log) && i <= |log| && c in Playback(plan, m, world, log[..i]).state.results
    ensures c in Playback(plan, m, world, log).state.results
    ensures Playback(plan, m, world, log).state.results[c] == Playback(plan, m, world, log[..i]).state.results[c]
  {
    hide IsHistory, Playback;
    HistoryPrefix(plan, m, world, log, i);
    PlaybackTracks(plan, m, world, log[..i]);
    PlaybackTracks(plan, m, world, log);
    var r :| Finished(c, r) in log[..i];
    assert Finished(c, r) in log;
  }

  lemma StartBegins(plan: Plan, m: Model, world: World, log: seq<Event>, k: nat)
    requires IsHistory(plan, m, world, log) && !Playback(plan, m, world, log).stopped
    requires k in Playback(plan, m, world, log).starts
    requires IsModelOf(plan, m)
    ensures var play := Playback(plan, m, world, log); Begins(plan, m, k, play.starts[k], play.state.results)
  {
    hide IsModelOf, IsHistory, Playback, Genuine, Booked, Collected, Components, DownClosed;
    PlaybackTracks(plan, m, world, log);
    var i :| 0 <= i < |log| && log[i] == Started(k);
    var before := log[..i];
    HistoryPrefix(plan, m, world, log, i);
    StartedOn(plan, m, world, log, i);
    StoppedLater(plan, m, world, log, i);
    HistoryGenuine(plan, m, world, before);
    HistoryBooked(plan, m, world, before);
    var play := Playback(plan, m, world, before);
    GenuineCollected(plan, m, world, play);
    DoneDownClosed(plan, m, play);
    StartPermitted(plan, m, play, k);
    NotYetDone(plan, m, play, k);
    PredecessorsAre(plan, m, k);
    forall p | p in play.state.results
      ensures p in Playback(plan, m, world, log).state.results
      ensures Playback(plan, m, world, log).state.results[p] == play.state.results[p]
    {
      ResultsStay(plan, m, world, log, i, p);
    }
  }

  lemma GenuineCollected(plan: Plan, m: Model, world: World, play: Play)
    requires Genuine(plan, m, world, play)
    ensures Collected(play.state.results, play.state.results.Keys, play.state.edges, play.state.outputs)
  {
    hide Launched, Collected;
  }

  lemma GenuineOwn(plan: Plan, m: Model, world: World, play: Play)
    requires Genuine(plan, m, world, play)
    ensures OwnResults(plan, m, play.state.results)
  {
    hide Launched, Collected, Own;
    forall k | k in play.state.results
      ensures k < |m.components| && Own(plan, m.components[k].nodes, play.state.results[k])
    {
      LaunchedOwn(plan, m, world, play, k, play.state.results[k]);
    }
  }

  /** Where an output comes from. */
  lemma OutputOf(plan: Plan, m: Model, final: RunState, d: nat, a: NodeId)
    requires IsModelOf(plan, m) && OwnResults(plan, m, final.results) && OutputsKept(final)
    requires d in final.results && a in final.results[d].outputs
    ensures a in final.outputs && final.outputs[a] == final.results[d].outputs[a]
    ensures a in m.componentByNode && m.componentByNode[a] == d
  {
    hide IsModelOf;
    ModelUsable(plan, m, d);
  }

  lemma OutputFrom(plan: Plan, m: Model, final: RunState, a: NodeId)
    requires IsModelOf(plan, m) && OwnResults(plan, m, final.results) && OutputsKept(final) && a in final.outputs
    ensures a in m.componentByNode && m.componentByNode[a] in final.results
    ensures a in final.results[m.componentByNode[a]].outputs
  {
    hide IsModelOf, OwnResults;
    var d :| d in final.results && a in final.results[d].outputs;
    OutputOf(plan, m, final, d, a);
  }

  lemma BeginsSees(plan: Plan, m: Model, k: nat, start: RunState, final: RunState)
    requires IsModelOf(plan, m) && OwnResults(plan, m, final.results) && OutputsKept(final)
    requires Begins(plan, m, k, start, final.results) && AllOk(final.results)
    ensures Sees(plan, m, k, start.outputs, final.outputs)
  {
    hide IsModelOf, Components, DownClosed, Reach, OutputsKept, OwnResults;
    CollectedExtends(start.results, final.results, start.results.Keys, start.edges, start.outputs);
    forall a | a in start.outputs
      ensures a in final.outputs && start.outputs[a] == final.outputs[a] && !InComponent(m, k, a) {
      var d :| d in start.results && start.results[d].error == "" && a in start.results[d].outputs;
      OutputOf(plan, m, final, d, a);
    }
    forall a, id | a in final.outputs && !InComponent(m, k, a) && id in m.components[k].nodes
                   && Reach(Pairs(plan.edges), a, id)
      ensures a in start.outputs {
      AncestorOutput(plan, m, final.results, k, id, a, start.results.Keys, start.edges, start.outputs);
      OutputFrom(plan, m, final, a);
    }
  }

  lemma LaunchedAnswered(plan: Plan, m: Model, world: World, log: seq<Event>, k: nat)
    requires IsHistory(plan, m, world, log) && !Playback(plan, m, world, log).stopped
    requires var play := Playback(plan, m, world, log);
             k < |m.components| && k in play.state.results && Launched(plan, m, world, play, k, play.state.results[k])
    requires IsModelOf(plan, m)
    ensures AnsweredAt(plan, m, world, Playback(plan, m, world, log).state, k)
  {
    hide IsModelOf, IsHistory, Playback, Genuine, Booked, OutputsKept, Begins, Sees, Answered, OwnResults, AllOk,
         RunComponent, Usable, EntersInside;
    var play := Playback(plan, m, world, log);
    var start := play.starts[k];
    HistoryGenuine(plan, m, world, log);
    HistoryBooked(plan, m, world, log);
    OutputsCollected(plan, m, world, play);
    GenuineOwn(plan, m, world, play);
    BookedOk(plan, m, play);
    StartBegins(plan, m, world, log, k);
    BeginsSees(plan, m, k, start, play.state);
    RunAnswered(plan, m, k, world, start.edges, start.outputs, play.state.results[k]);
    AnsweredLocal(plan, m, k, world, start.edges, play.state.edges, start.outputs, play.state.results[k]);
  }

  lemma BookedOk(plan: Plan, m: Model, play: Play)
    requires Booked(plan, m, play) && !play.stopped
    ensures AllOk(play.state.results)
  {
    hide Parted, Preceded, AllOk;
  }

  /**
   * A completion received while nothing had gone wrong, good or bad, is what the component's nodes answered, on the
   * state the component was started on.
   */
  lemma CompletionAnswered(plan: Plan, m: Model, world: World, log: seq<Event>, i: nat)
    requires IsHistory(plan, m, world, log) && i < |log| && log[i].Finished?
    requires !Playback(plan, m, world, log[..i]).stopped
    requires IsModelOf(plan, m)
    ensures exists j :: 0 <= j < i && log[j] == Started(log[i].index)
                        && var start := Playback(plan, m, world, log[..j]).state;
                           Answered(plan, m, log[i].index, world, start.edges, start.outputs, log[i].result)
  {
    hide IsModelOf, IsHistory, Playback, Booked, Answered, RunComponent, Usable, EntersInside, Collected, SameEntering;
    var before, c := log[..i], log[i].index;
    HistoryPrefix(plan, m, world, log, i);
    HistoryGenuine(plan, m, world, before);
    var play := Playback(plan, m, world, before);
    assert Launched(plan, m, world, play, c, play.flight[c]);
    PlaybackTracks(plan, m, world, before);
    var j :| 0 <= j < |before| && before[j] == Started(c);
    StartedOn(plan, m, world, before, j);
    assert before[..j] == log[..j];
    RunAnswered(plan, m, c, world, play.starts[c].edges, play.starts[c].outputs, log[i].result);
  }

  lemma GenuineResult(plan: Plan, m: Model, world: World, play: Play, k: nat)
    requires Genuine(plan, m, world, play) && k in play.state.results
    ensures Launched(plan, m, world, play, k, play.state.results[k])
  {
    hide Launched, Collected;
  }

  lemma FlagsCollected(plan: Plan, m: Model, world: World, play: Play)
    requires Genuine(plan, m, world, play) && Booked(plan, m, play) && !play.stopped
    ensures forall e :: e in play.state.edges <==>
              exists k :: k in play.state.results && e in play.state.results[k].edges
  {
    hide Launched, Collected, Parted, Preceded;
    AllCollected(play.state);
  }

  lemma AllCollected(state: RunState)
    requires Collected(state.results, state.results.Keys, state.edges, state.outputs) && AllOk(state.results)
    ensures forall e :: e in state.edges <==> exists k :: k in state.results && e in state.results[k].edges
  {
  }
}
