/** The outcome of a history does not depend on the schedule, as long as components read only their ancestors. */
module Independence {
  import opened Graphs
  import opened Ordering
  import opened Compiler
  import opened Kahn
  import opened ComponentModel
  import opened Execution
  import opened ExecutionFacts
  import opened Locality
  import opened Sequential
  import opened Reachability
  import opened History

  /** In-flight results are those of the sequential run. */
  ghost predicate Expected(results: map<nat, ComponentResult>, flight: map<nat, ComponentResult>) {
    forall c :: c in flight ==> c in results && flight[c] == results[c]
  }

  /** Until something goes wrong, everything running or done is what it is in the sequential run. */
  ghost predicate OnTrack(results: map<nat, ComponentResult>, play: Play) {
    && Expected(results, play.flight) && Expected(results, play.state.results)
    && Collected(results, play.state.results.Keys, play.state.edges, play.state.outputs)
  }

  /** What may be concluded about the sequential results once something has gone wrong. */
  ghost predicate Verdict(results: map<nat, ComponentResult>, firstError: string, rejected: bool) {
    && (firstError != "" || rejected)
    && (exists c :: c in results && !Ok(results[c]))
    && (firstError == "" ==> exists c :: c in results && results[c].rejected)
    && (firstError != "" ==> exists c :: c in results && (results[c].rejected || results[c].error == firstError))
  }

  lemma StartOnTrack(plan: Plan, m: Model, world: World, play: Play, c: nat)
    requires ReadsAncestors(plan, world) && Booked(plan, m, play)
             && OnTrack(SequentialRun(plan, m, world).results, play)
    requires IsReadyNow(m, play.starts.Keys, play.state.results.Keys, c)
    requires IsModelOf(plan, m)
    ensures OnTrack(SequentialRun(plan, m, world).results, Played(plan, m, world, play, Started(c)))
  {
    hide IsModelOf, ReadsAncestors, SequentialRun, Collected, RunComponent, Usable, EntersInside, Components, Booked,
         Elements;
    var results, done := SequentialRun(plan, m, world).results, play.state.results.Keys;
    DoneDownClosed(plan, m, play);
    PredecessorsAre(plan, m, c);
    NotYetDone(plan, m, play, c);
    assert forall p :: (p, c) in Components(plan, m) ==> p in done;
    StartDeterminesResult(plan, m, world, c, done, play.state.edges, play.state.outputs);
  }

  lemma FinishOnTrack(plan: Plan, m: Model, world: World, play: Play, c: nat)
    requires OnTrack(SequentialRun(plan, m, world).results, play)
    requires c in play.flight && c !in play.state.results
    requires IsModelOf(plan, m)
    ensures OnTrack(SequentialRun(plan, m, world).results, Played(plan, m, world, play, Finished(c, play.flight[c])))
  {
    hide IsModelOf, SequentialRun, OwnResults, Collected, Merged, Played, Expected;
    var results, r := SequentialRun(plan, m, world).results, play.flight[c];
    EveryComponent(plan, m, world);
    ExpectedFinish(results, play.flight, play.state.results, c);
    CollectOne(plan, m, results, play.state.results.Keys, play.state, c);
    PlayedFinish(plan, m, world, play, c, r);
  }

  lemma ExpectedFinish(results: map<nat, ComponentResult>, flight: map<nat, ComponentResult>,
                       done: map<nat, ComponentResult>, c: nat)
    requires Expected(results, flight) && Expected(results, done) && c in flight
    ensures Expected(results, flight - {c}) && Expected(results, done[c := flight[c]])
    ensures c in results && flight[c] == results[c]
  {
  }

  lemma SameOnTrack(results: map<nat, ComponentResult>, play: Play, next: Play)
    requires next.state == play.state
    ensures OnTrack(results, play) && next.flight == play.flight ==> OnTrack(results, next)
  {
  }

  lemma VerdictStart(results: map<nat, ComponentResult>, c: nat)
    requires c in results && !Ok(results[c])
    ensures Verdict(results, results[c].error, results[c].error == "" && results[c].rejected)
  {
  }

  /** Later completions do not change what the first error or rejection already decides. */
  lemma VerdictLater(results: map<nat, ComponentResult>, firstError: string, rejected: bool, r: ComponentResult)
    requires Verdict(results, firstError, rejected)
    ensures Verdict(results, if firstError != "" then firstError else r.error, rejected
              || (r.error == "" && r.rejected))
  {
    if firstError == "" {
      var c :| c in results && results[c].rejected;
      assert !Ok(results[c]);
    }
  }

  ghost predicate Traced(results: map<nat, ComponentResult>, play: Play, log: seq<Event>) {
    && (!play.stopped ==> OnTrack(results, play) && FirstError(log) == "" && !SomeRejected(log))
    && (play.stopped ==> Verdict(results, FirstError(log), SomeRejected(log)))
  }

  lemma PlayedTraced(plan: Plan, m: Model, world: World, play: Play, log: seq<Event>, event: Event)
    requires ReadsAncestors(plan, world) && Booked(plan, m, play) && Permitted(plan, m, play, event)
    requires Traced(SequentialRun(plan, m, world).results, play, log)
    requires IsModelOf(plan, m)
    ensures Traced(SequentialRun(plan, m, world).results, Played(plan, m, world, play, event), log + [event])
  {
    hide IsModelOf, ReadsAncestors, SequentialRun, Booked, OnTrack, Verdict, FirstReady, FirstError, SomeRejected, Due,
         Merged;
    var results := SequentialRun(plan, m, world).results;
    OneMoreJudged(log, event);
    match event
    case Started(c) =>
      StartPermitted(plan, m, play, c);
      StartOnTrack(plan, m, world, play, c);
    case Sent(c, r) =>
      PlayedSend(plan, m, world, play, c, r);
      SameOnTrack(results, play, Played(plan, m, world, play, event));
    case Finished(c, r) =>
      if play.stopped {
        VerdictLater(results, FirstError(log), SomeRejected(log), r);
      } else {
        BookedApart(plan, m, play, c);
        FinishOnTrack(plan, m, world, play, c);
        TrackedResult(results, play, c);
        if !Ok(r) {
          VerdictStart(results, c);
        }
      }
  }

  lemma TrackedResult(results: map<nat, ComponentResult>, play: Play, c: nat)
    requires OnTrack(results, play) && c in play.flight
    ensures c in results && results[c] == play.flight[c]
  {
    hide Collected;
  }

  lemma {:induction false} HistoryTraced(plan: Plan, m: Model, world: World, log: seq<Event>)
    requires IsHistory(plan, m, world, log) && ReadsAncestors(plan, world)
    requires IsModelOf(plan, m)
    ensures Traced(SequentialRun(plan, m, world).results, Playback(plan, m, world, log), log)
  {
    hide IsModelOf, ReadsAncestors, SequentialRun, Traced, Booked, Played, Permitted;
    if log == [] {
      NothingTraced(SequentialRun(plan, m, world).results);
    } else {
      var before, last := log[..|log| - 1], log[|log| - 1];
      HistoryTraced(plan, m, world, before);
      HistoryBooked(plan, m, world, before);
      PlayedTraced(plan, m, world, Playback(plan, m, world, before), before, last);
      assert before + [last] == log;
    }
  }

  lemma NothingTraced(results: map<nat, ComponentResult>)
    ensures Traced(results, OPENING, [])
  {
  }

  ghost predicate NoRejection(results: map<nat, ComponentResult>) {
    forall c :: c in results ==> !results[c].rejected
  }

  /**
   * The Run succeeds exactly when every component does, is rejected only if one is, and, unless one is,
   * fails with the error of some component.
   */
  ghost predicate Decides(results: map<nat, ComponentResult>, outcome: Outcome) {
    && (outcome.Succeeded? <==> AllOk(results))
    && (outcome.RunRejected? ==> !NoRejection(results))
    && (outcome.RunFailed? && NoRejection(results) ==>
          exists c :: c in results && results[c].error == outcome.error != "")
  }

  /**
   * If components read only their ancestors' outputs, then whatever the limit and the order of completions, the Run
   * succeeds exactly when every component of the sequential run does, and then ends in the same state.
   */
  lemma ScheduleIndependent(plan: Plan, m: Model, world: World, log: seq<Event>)
    requires IsHistory(plan, m, world, log) && IsOver(m, Playback(plan, m, world, log)) && ReadsAncestors(plan, world)
    requires IsModelOf(plan, m)
    ensures var sequential := SequentialRun(plan, m, world);
            && Decides(sequential.results, Judge(log))
            && (Judge(log).Succeeded? ==> Playback(plan, m, world, log).state == sequential)
  {
    hide IsModelOf, ReadsAncestors, SequentialRun, Playback, IsHistory, OnTrack, FirstError, SomeRejected, Booked,
         OwnResults;
    var play, sequential := Playback(plan, m, world, log), SequentialRun(plan, m, world);
    HistoryTraced(plan, m, world, log);
    HistoryBooked(plan, m, world, log);
    EveryComponent(plan, m, world);
    if !play.stopped {
      BookedDone(plan, m, play);
      AllDone(m, play);
      SequentialCollected(plan, m, world);
      SameEnd(play, sequential);
    }
  }

  lemma AllDone(m: Model, play: Play)
    requires forall c :: 0 <= c < |m.components| ==> c in play.state.results
    requires forall c :: c in play.state.results ==> c < |m.components|
    ensures play.state.results.Keys == Below(|m.components|)
  {
  }

  lemma SequentialCollected(plan: Plan, m: Model, world: World)
    requires IsModelOf(plan, m)
    ensures var final := SequentialRun(plan, m, world);
            Collected(final.results, final.results.Keys, final.edges, final.outputs)
  {
    hide IsModelOf, Prefix, Collected, OwnResults, Below;
    EveryComponent(plan, m, world);
    PrefixCollected(plan, m, world, |m.order|);
    assert m.order[..|m.order|] == m.order;
  }

  lemma SameEnd(play: Play, final: RunState)
    requires OnTrack(final.results, play) && play.state.results.Keys == final.results.Keys
    requires forall c :: c in play.state.results ==> Ok(play.state.results[c])
    requires Collected(final.results, final.results.Keys, final.edges, final.outputs)
    ensures play.state == final && AllOk(final.results)
  {
    hide Ok;
    CollectedUnique(final.results, final.results.Keys, play.state.edges, play.state.outputs, final.edges,
        final.outputs);
    hide Collected;
    assert play.state.results == final.results;
  }

  lemma CollectedUnique(results: map<nat, ComponentResult>, done: set<nat>, edges: set<nat>, outputs: map<NodeId, Json>,
                        edges': set<nat>, outputs': map<NodeId, Json>)
    requires Collected(results, done, edges, outputs) && Collected(results, done, edges', outputs')
    ensures edges == edges' && outputs == outputs'
  {
    assert outputs.Keys == outputs'.Keys;
  }
}
