/** Histories of the scheduler: components start and finish in any order the limit allows, until one goes wrong. */
module History {
  import opened Graphs
  import opened Ordering
  import opened Compiler
  import opened Kahn
  import opened ComponentModel
  import opened Execution
  import opened ExecutionFacts
  import opened Locality
  import opened Sequential
  import opened Reachability

  /** `Interrupted` is the exit of a workflow that is cancelled while it waits for a completion. */
  datatype Outcome = Succeeded | RunRejected | RunFailed(error: string) | Interrupted

  /** A component starts, ends and sends its completion, and its completion is received. */
  datatype Event =
    | Started(index: nat)
    | Sent(index: nat, result: ComponentResult)
    | Finished(index: nat, result: ComponentResult)

  /**
   * Where a history has led: what was merged, what the components in flight will deliver, which of them have sent it,
   * in that order, the state each component was started on, and whether admission has stopped.
   */
  datatype Play = Play(state: RunState, flight: map<nat, ComponentResult>, sent: seq<nat>, starts: map<nat, RunState>,
                       stopped: bool)

  const OPENING := Play(RunState({}, map[], map[]), map[], [], map[], false)

  function EffectiveLimit(plan: Plan): (limit: nat)
    ensures limit >= 1
  {
    if plan.maxParallel <= 0 then 1 else plan.maxParallel
  }

  /** What component c delivers when it is started on a state. */
  ghost function Due(plan: Plan, m: Model, world: World, c: nat, state: RunState): ComponentResult {
    if Usable(plan, m, c) && EntersInside(plan, m, c) then RunComponent(plan, m, c, world, state.edges, state.outputs)
        else NOTHING
  }

  ghost function Played(plan: Plan, m: Model, world: World, play: Play, event: Event): Play {
    match event
    case Started(c) =>
      play.(flight := play.flight[c := Due(plan, m, world, c, play.state)], starts := play.starts[c := play.state])
    case Sent(c, r) => play.(flight := play.flight[c := r], sent := play.sent + [c])
    case Finished(c, r) =>
      play.(state := Merged(play.state, c, r), flight := play.flight - {c},
            sent := if play.sent == [] then [] else play.sent[1..], stopped := play.stopped || !Ok(r))
  }

  ghost function Playback(plan: Plan, m: Model, world: World, log: seq<Event>): Play {
    if log == [] then OPENING else Played(plan, m, world, Playback(plan, m, world, log[..|log| - 1]), log[|log| - 1])
  }

  /** The first component in the order that has not started and whose predecessors are all in `done`. */
  ghost predicate FirstReady(m: Model, started: set<nat>, done: set<nat>, c: nat) {
    exists n :: 0 <= n < |m.order| && m.order[n] == c && IsReadyNow(m, started, done, c)
                && forall j :: 0 <= j < n ==> !IsReadyNow(m, started, done, m.order[j])
  }

  ghost predicate IsReadyNow(m: Model, started: set<nat>, done: set<nat>, c: nat) {
    c < |m.components| && c !in started && Elements(m.components[c].predecessors) <= done
  }

  /**
   * What may happen next. A component starts only while nothing has gone wrong, below the limit, and as the first
   * that is ready. It sends what it was due to, or, once admission has stopped and it was cancelled, anything.
   * Completions are received as they were sent, in that order.
   */
  ghost predicate Permitted(plan: Plan, m: Model, play: Play, event: Event) {
    match event
    case Started(c) =>
      !play.stopped && |play.flight| < EffectiveLimit(plan)
          && FirstReady(m, play.starts.Keys, play.state.results.Keys, c)
    case Sent(c, r) => c in play.flight && c !in play.sent && (play.stopped || r == play.flight[c])
    case Finished(c, r) => play.sent != [] && play.sent[0] == c && c in play.flight && r == play.flight[c]
  }

  ghost predicate IsHistory(plan: Plan, m: Model, world: World, log: seq<Event>) {
    log == [] ||
    var before := log[..|log| - 1];
    IsHistory(plan, m, world, before) && Permitted(plan, m, Playback(plan, m, world, before), log[|log| - 1])
  }

  /** Nothing is running, and either admission has stopped or every component has finished. */
  ghost predicate IsOver(m: Model, play: Play) {
    play.flight == map[] && (play.stopped || forall c :: 0 <= c < |m.components| ==> c in play.state.results)
  }

  lemma OneMoreEvent(plan: Plan, m: Model, world: World, log: seq<Event>, event: Event)
    ensures Playback(plan, m, world, log + [event]) == Played(plan, m, world, Playback(plan, m, world, log), event)
    ensures IsHistory(plan, m, world, log + [event]) <==>
            IsHistory(plan, m, world, log) && Permitted(plan, m, Playback(plan, m, world, log), event)
  {
    assert (log + [event])[..|log|] == log;
  }

  // ---------------------------------------------------------------- the outcome

  /** The error text of the first completion that carries one. */
  ghost function FirstError(log: seq<Event>): string {
    if log == [] then "" else
      var before, last := FirstError(log[..|log| - 1]), log[|log| - 1];
      if before != "" then before else if last.Finished? then last.result.error else ""
  }

  ghost predicate SomeRejected(log: seq<Event>) {
    exists i :: 0 <= i < |log| && log[i].Finished? && log[i].result.error == "" && log[i].result.rejected
  }

  ghost function Judge(log: seq<Event>): Outcome {
    if FirstError(log) != "" then RunFailed(FirstError(log)) else if SomeRejected(log) then RunRejected else Succeeded
  }

  ghost predicate FailsAt(log: seq<Event>, i: nat) {
    i < |log| && log[i].Finished? && log[i].result.error != ""
  }

  /** The first error is the text of some completion, and is empty only if none carries one. */
  lemma {:induction false} FirstErrorFacts(log: seq<Event>)
    ensures FirstError(log) != "" <==> exists i: nat :: FailsAt(log, i)
    ensures FirstError(log) != "" ==>
              exists i: nat :: FailsAt(log, i) && log[i].result.error == FirstError(log) && forall j: nat :: j < i ==>
                  !FailsAt(log, j)
  {
    if log != [] {
      var before := log[..|log| - 1];
      FirstErrorFacts(before);
      assert forall i: nat :: i < |before| ==> (FailsAt(before, i) <==> FailsAt(log, i));
      if FirstError(before) != "" {
        var i: nat :| FailsAt(before, i) && before[i].result.error == FirstError(before) && forall j: nat :: j < i ==>
            !FailsAt(before, j);
        assert FailsAt(log, i) && forall j: nat :: j < i ==> !FailsAt(log, j);
      } else {
        assert FirstError(log) != "" ==> FailsAt(log, |log| - 1) && forall j: nat :: j < |log| - 1 ==> !FailsAt(log, j);
      }
    }
  }

  /**
   * The Run fails exactly when some completion carries an error, with the text of the first; it is rejected exactly
   * when none does and one is rejected.
   */
  lemma JudgeFacts(log: seq<Event>)
    ensures Judge(log).RunFailed? <==> exists i: nat :: FailsAt(log, i)
    ensures Judge(log).RunFailed? ==>
              exists i: nat :: FailsAt(log, i) && log[i].result.error == Judge(log).error && forall j: nat :: j < i ==>
                  !FailsAt(log, j)
    ensures Judge(log).RunRejected? <==> (forall i: nat :: !FailsAt(log, i)) && SomeRejected(log)
  {
    hide FailsAt;
    FirstErrorFacts(log);
  }

  lemma OneMoreJudged(log: seq<Event>, event: Event)
    ensures FirstError(log + [event]) ==
            if FirstError(log) != "" then FirstError(log) else if event.Finished? then event.result.error else ""
    ensures SomeRejected(log + [event]) <==>
            SomeRejected(log) || (event.Finished? && event.result.error == "" && event.result.rejected)
  {
    var longer := log + [event];
    assert longer[..|log|] == log;
    if SomeRejected(log) {
      var i :| 0 <= i < |log| && log[i].Finished? && log[i].result.error == "" && log[i].result.rejected;
      assert longer[i] == log[i];
    }
    if event.Finished? && event.result.error == "" && event.result.rejected {
      assert longer[|log|] == event;
    }
  }

  /** How many completions have been received. */
  ghost function Receipts(log: seq<Event>): nat {
    if log == [] then 0 else Receipts(log[..|log| - 1]) + if log[|log| - 1].Finished? then 1 else 0
  }

  lemma OneMoreReceipt(log: seq<Event>, event: Event)
    ensures Receipts(log + [event]) == Receipts(log) + if event.Finished? then 1 else 0
  {
    assert (log + [event])[..|log|] == log;
  }

  // ---------------------------------------------------------------- order and limit

  ghost predicate HasFinished(log: seq<Event>, c: nat) {
    exists r :: Finished(c, r) in log
  }

  /** Whatever has started is either running or done. */
  ghost predicate Parted(started: set<nat>, running: set<nat>, done: set<nat>) {
    started == running + done && running !! done
  }

  /** Everything that has started had its predecessors first. */
  ghost predicate Preceded(m: Model, started: set<nat>, done: set<nat>) {
    forall c :: c in started ==> c < |m.components| && Elements(m.components[c].predecessors) <= done
  }

  ghost predicate Booked(plan: Plan, m: Model, play: Play) {
    && Parted(play.starts.Keys, play.flight.Keys, play.state.results.Keys)
    && Preceded(m, play.starts.Keys, play.state.results.Keys)
    && |play.flight| <= EffectiveLimit(plan)
    && (play.stopped <==> !AllOk(play.state.results))
  }

  lemma PartStarts(started: set<nat>, running: set<nat>, done: set<nat>, c: nat)
    requires Parted(started, running, done) && c !in started
    ensures Parted(started + {c}, running + {c}, done)
  {
  }

  lemma PartFinishes(started: set<nat>, running: set<nat>, done: set<nat>, c: nat)
    requires Parted(started, running, done) && c in running
    ensures Parted(started, running - {c}, done + {c}) && c !in done
  {
  }

  lemma StartedBooked(plan: Plan, m: Model, play: Play, next: Play, c: nat)
    requires Booked(plan, m, play) && Permitted(plan, m, play, Started(c))
    requires next.starts.Keys == play.starts.Keys + {c} && next.flight.Keys == play.flight.Keys + {c}
    requires |next.flight| <= |play.flight| + 1 && next.state == play.state && next.stopped == play.stopped
    ensures Booked(plan, m, next)
  {
    hide Elements, Ok, AllOk, Parted, Preceded, Permitted;
    StartPermitted(plan, m, play, c);
    PrecededStart(m, play.starts.Keys, play.state.results.Keys, c);
    hide IsReadyNow;
    PartStarts(play.starts.Keys, play.flight.Keys, play.state.results.Keys, c);
  }

  lemma PrecededStart(m: Model, started: set<nat>, done: set<nat>, c: nat)
    requires Preceded(m, started, done) && IsReadyNow(m, started, done, c)
    ensures Preceded(m, started + {c}, done) && c !in started
  {
    hide Elements;
  }

  lemma PutOne(flight: map<nat, ComponentResult>, c: nat, r: ComponentResult)
    ensures flight[c := r].Keys == flight.Keys + {c} && |flight[c := r]| <= |flight| + 1
  {
    assert |flight[c := r].Keys| == |flight[c := r]| && |flight.Keys| == |flight|;
  }

  lemma StartPermitted(plan: Plan, m: Model, play: Play, c: nat)
    requires Permitted(plan, m, play, Started(c))
    ensures IsReadyNow(m, play.starts.Keys, play.state.results.Keys, c) && |play.flight| < EffectiveLimit(plan)
            && !play.stopped
  {
    hide IsReadyNow;
  }

  lemma FinishedBooked(plan: Plan, m: Model, play: Play, next: Play, c: nat, r: ComponentResult)
    requires Booked(plan, m, play) && c in play.flight
    requires next.starts == play.starts && next.flight.Keys == play.flight.Keys - {c} && |next.flight| <= |play.flight|
    requires next.state.results == play.state.results[c := r]
             && next.state.results.Keys == play.state.results.Keys + {c}
    requires next.stopped == (play.stopped || !Ok(r))
    ensures Booked(plan, m, next)
  {
    hide Elements, Ok, AllOk, Parted;
    PartFinishes(play.starts.Keys, play.flight.Keys, play.state.results.Keys, c);
    ResultOk(play.state.results, c, r);
    PrecededMore(m, play.starts.Keys, play.state.results.Keys, next.state.results.Keys);
    hide Preceded;
  }

  lemma PrecededMore(m: Model, started: set<nat>, done: set<nat>, more: set<nat>)
    requires Preceded(m, started, done) && done <= more
    ensures Preceded(m, started, more)
  {
    hide Elements;
  }

  lemma MergedResults(state: RunState, c: nat, r: ComponentResult)
    ensures Merged(state, c, r).results == state.results[c := r]
    ensures Merged(state, c, r).results.Keys == state.results.Keys + {c}
  {
  }

  lemma TakeOne(flight: map<nat, ComponentResult>, c: nat)
    requires c in flight
    ensures (flight - {c}).Keys == flight.Keys - {c} && |flight - {c}| == |flight| - 1
  {
    assert |(flight - {c}).Keys| == |flight - {c}| && |flight.Keys| == |flight|;
  }

  lemma ResultOk(results: map<nat, ComponentResult>, c: nat, r: ComponentResult)
    requires c !in results
    ensures AllOk(results[c := r]) <==> AllOk(results) && Ok(r)
  {
    hide Ok;
    if AllOk(results[c := r]) {
      assert results[c := r][c] == r;
      forall k | k in results ensures Ok(results[k]) {
        assert results[c := r][k] == results[k];
      }
    }
  }

  lemma PlayedStart(plan: Plan, m: Model, world: World, play: Play, c: nat)
    ensures var next := Played(plan, m, world, play, Started(c));
            && next.starts.Keys == play.starts.Keys + {c} && next.flight.Keys == play.flight.Keys + {c}
            && |next.flight| <= |play.flight| + 1 && next.state == play.state && next.stopped == play.stopped
  {
    hide Due;
    PutOne(play.flight, c, Due(plan, m, world, c, play.state));
    assert play.starts[c := play.state].Keys == play.starts.Keys + {c};
  }

  lemma PlayedFinish(plan: Plan, m: Model, world: World, play: Play, c: nat, r: ComponentResult)
    requires c in play.flight
    ensures var next := Played(plan, m, world, play, Finished(c, r));
            && next.starts == play.starts && next.flight.Keys == play.flight.Keys - {c}
                && |next.flight| <= |play.flight|
            && next.state.results == play.state.results[c := r]
                && next.state.results.Keys == play.state.results.Keys + {c}
            && next.stopped == (play.stopped || !Ok(r))
            && next.flight == play.flight - {c} && next.state == Merged(play.state, c, r)
  {
    hide Ok, Merged;
    TakeOne(play.flight, c);
    MergedResults(play.state, c, r);
  }

  lemma PlayedSend(plan: Plan, m: Model, world: World, play: Play, c: nat, r: ComponentResult)
    requires Permitted(plan, m, play, Sent(c, r))
    ensures var next := Played(plan, m, world, play, Sent(c, r));
            && next.starts == play.starts && next.state == play.state && next.stopped == play.stopped
            && next.flight.Keys == play.flight.Keys && |next.flight| == |play.flight| && next.sent == play.sent + [c]
            && next.flight[c] == r && (forall k :: k in play.flight && k != c ==> next.flight[k] == play.flight[k])
            && (!play.stopped ==> next.flight == play.flight)
  {
    var next := Played(plan, m, world, play, Sent(c, r));
    assert next.flight.Keys == play.flight.Keys;
    assert |next.flight.Keys| == |next.flight| && |play.flight.Keys| == |play.flight|;
  }

  lemma SameBooked(plan: Plan, m: Model, play: Play, next: Play)
    requires Booked(plan, m, play)
    requires next.starts == play.starts && next.state == play.state && next.stopped == play.stopped
    requires next.flight.Keys == play.flight.Keys && |next.flight| == |play.flight|
    ensures Booked(plan, m, next)
  {
    hide Parted, Preceded, AllOk;
  }

  lemma PlayedBooked(plan: Plan, m: Model, world: World, play: Play, event: Event)
    requires Booked(plan, m, play) && Permitted(plan, m, play, event)
    ensures Booked(plan, m, Played(plan, m, world, play, event))
  {
    hide Booked, Ok, FirstReady, Played;
    var next := Played(plan, m, world, play, event);
    match event
    case Started(c) =>
      PlayedStart(plan, m, world, play, c);
      StartedBooked(plan, m, play, next, c);
    case Sent(c, r) =>
      PlayedSend(plan, m, world, play, c, r);
      SameBooked(plan, m, play, next);
    case Finished(c, r) =>
      PlayedFinish(plan, m, world, play, c, r);
      FinishedBooked(plan, m, play, next, c, r);
  }

  lemma {:induction false} HistoryBooked(plan: Plan, m: Model, world: World, log: seq<Event>)
    requires IsHistory(plan, m, world, log)
    ensures Booked(plan, m, Playback(plan, m, world, log))
  {
    hide Booked, Played, Permitted;
    if log == [] {
      NothingBooked(plan, m);
    } else {
      HistoryBooked(plan, m, world, log[..|log| - 1]);
      PlayedBooked(plan, m, world, Playback(plan, m, world, log[..|log| - 1]), log[|log| - 1]);
    }
  }

  lemma NothingBooked(plan: Plan, m: Model)
    ensures Booked(plan, m, OPENING)
  {
  }

  lemma BookedApart(plan: Plan, m: Model, play: Play, c: nat)
    requires Booked(plan, m, play) && c in play.flight
    ensures c !in play.state.results
  {
    hide Preceded, AllOk;
  }

  lemma NotYetDone(plan: Plan, m: Model, play: Play, c: nat)
    requires Booked(plan, m, play) && c !in play.starts
    ensures c !in play.state.results
  {
    hide Preceded, AllOk;
  }

  /** What is done is closed under predecessors. */
  lemma DoneDownClosed(plan: Plan, m: Model, play: Play)
    requires Booked(plan, m, play)
    requires IsModelOf(plan, m)
    ensures DownClosed(Components(plan, m), play.state.results.Keys)
  {
    hide IsModelOf, Components, AllOk, Elements;
    forall p, c | (p, c) in Components(plan, m) && c in play.state.results.Keys ensures p in play.state.results.Keys {
      PredecessorsAre(plan, m, c);
    }
  }

  lemma BookedDone(plan: Plan, m: Model, play: Play)
    requires Booked(plan, m, play) && !play.stopped
    ensures forall k :: k in play.state.results ==> k < |m.components| && Ok(play.state.results[k])
  {
    hide Elements, Ok;
  }

  lemma StoppedStays(plan: Plan, m: Model, world: World, play: Play, event: Event)
    ensures play.stopped ==> Played(plan, m, world, play, event).stopped
    ensures event.Finished? && !Played(plan, m, world, play, event).stopped ==> Ok(event.result)
  {
    hide Due, Merged, Ok;
  }

  /** The play knows what the log says. */
  ghost predicate Tracks(play: Play, log: seq<Event>) {
    && (forall c :: c in play.starts <==> Started(c) in log)
    && (forall c :: c in play.state.results <==> HasFinished(log, c))
    && (forall c, r :: Finished(c, r) in log ==> c in play.state.results && play.state.results[c] == r)
  }

  lemma HasFinishedMore(log: seq<Event>, event: Event, c: nat)
    ensures HasFinished(log + [event], c) <==> HasFinished(log, c) || (event.Finished? && event.index == c)
  {
    if HasFinished(log, c) {
      var r :| Finished(c, r) in log;
      assert Finished(c, r) in log + [event];
    }
    if event.Finished? && event.index == c {
      assert Finished(c, event.result) in log + [event];
    }
  }

  lemma StartedTracks(play: Play, next: Play, log: seq<Event>, c: nat)
    requires Tracks(play, log) && next.state == play.state && next.starts.Keys == play.starts.Keys + {c}
    ensures Tracks(next, log + [Started(c)])
  {
    hide HasFinished;
    forall k ensures HasFinished(log + [Started(c)], k) <==> HasFinished(log, k) {
      HasFinishedMore(log, Started(c), k);
    }
  }

  lemma FinishedTracks(play: Play, next: Play, log: seq<Event>, c: nat, r: ComponentResult)
    requires Tracks(play, log) && c !in play.state.results
    requires next.starts == play.starts && next.state.results == play.state.results[c := r]
    ensures Tracks(next, log + [Finished(c, r)])
  {
    hide HasFinished;
    forall k ensures HasFinished(log + [Finished(c, r)], k) <==> HasFinished(log, k) || k == c {
      HasFinishedMore(log, Finished(c, r), k);
    }
    forall k, q | Finished(k, q) in log ensures k in next.state.results && next.state.results[k] == q {
    }
  }

  lemma SentTracks(play: Play, next: Play, log: seq<Event>, event: Event)
    requires Tracks(play, log) && event.Sent? && next.state == play.state && next.starts == play.starts
    ensures Tracks(next, log + [event])
  {
    hide HasFinished;
    forall k ensures HasFinished(log + [event], k) <==> HasFinished(log, k) {
      HasFinishedMore(log, event, k);
    }
  }

  lemma PlayedTracks(plan: Plan, m: Model, world: World, play: Play, log: seq<Event>, event: Event)
    requires Tracks(play, log) && Booked(plan, m, play) && Permitted(plan, m, play, event)
    ensures Tracks(Played(plan, m, world, play, event), log + [event])
  {
    hide Played, FirstReady, Ok, AllOk, Preceded, Tracks;
    var next := Played(plan, m, world, play, event);
    match event
    case Started(c) =>
      PlayedStart(plan, m, world, play, c);
      StartedTracks(play, next, log, c);
    case Sent(c, r) =>
      PlayedSend(plan, m, world, play, c, r);
      SentTracks(play, next, log, event);
    case Finished(c, r) =>
      PlayedFinish(plan, m, world, play, c, r);
      assert c in play.flight.Keys;
      FinishedTracks(play, next, log, c, r);
  }

  lemma {:induction false} PlaybackTracks(plan: Plan, m: Model, world: World, log: seq<Event>)
    requires IsHistory(plan, m, world, log)
    ensures Tracks(Playback(plan, m, world, log), log)
  {
    hide Tracks, Played, Permitted, Booked;
    if log == [] {
      NothingTracked();
    } else {
      var before, last := log[..|log| - 1], log[|log| - 1];
      PlaybackTracks(plan, m, world, before);
      HistoryBooked(plan, m, world, before);
      PlayedTracks(plan, m, world, Playback(plan, m, world, before), before, last);
      assert before + [last] == log;
    }
  }

  lemma NothingTracked()
    ensures Tracks(OPENING, [])
  {
  }

  lemma {:induction false} HistoryPrefix(plan: Plan, m: Model, world: World, log: seq<Event>, i: nat)
    requires IsHistory(plan, m, world, log) && i <= |log|
    ensures IsHistory(plan, m, world, log[..i])
    ensures i < |log| ==> Permitted(plan, m, Playback(plan, m, world, log[..i]), log[i])
    decreases |log|
  {
    hide Permitted, Playback;
    if i == |log| {
      assert log[..i] == log;
    } else if i < |log| - 1 {
      HistoryPrefix(plan, m, world, log[..|log| - 1], i);
      assert log[..|log| - 1][..i] == log[..i];
    }
  }

  /**
   * At every point of a history: no component starts twice, none before all its predecessors have finished, none
   * finishes twice or before it starts, and at most maxParallel run at once, or one if that is less than one.
   */
  lemma HistoryOrderly(plan: Plan, m: Model, world: World, log: seq<Event>, i: nat)
    requires IsHistory(plan, m, world, log) && i < |log|
    ensures var running := |Playback(plan, m, world, log[..i + 1]).flight|; running <= 1 || running <= plan.maxParallel
    ensures log[i].Started? ==>
              && Started(log[i].index) !in log[..i] && log[i].index < |m.components|
              && forall p :: p in m.components[log[i].index].predecessors ==> HasFinished(log[..i], p)
    ensures log[i].Finished? ==> Started(log[i].index) in log[..i] && !HasFinished(log[..i], log[i].index)
  {
    hide IsHistory, Playback, HasFinished, AllOk;
    HistoryPrefix(plan, m, world, log, i);
    HistoryPrefix(plan, m, world, log, i + 1);
    HistoryBooked(plan, m, world, log[..i]);
    HistoryBooked(plan, m, world, log[..i + 1]);
    PlaybackTracks(plan, m, world, log[..i]);
    if log[i].Started? {
      var predecessors := m.components[log[i].index].predecessors;
      assert forall p :: p in predecessors ==> p in Elements(predecessors);
    }
  }

  /** Nothing more could be started: admission has stopped, the limit is used up, or no component is ready. */
  ghost predicate Full(plan: Plan, m: Model, play: Play) {
    || play.stopped || (|play.flight| >= 1 && |play.flight| >= plan.maxParallel)
    || forall c :: !IsReadyNow(m, play.starts.Keys, play.state.results.Keys, c)
  }

  ghost predicate FullAt(plan: Plan, m: Model, world: World, log: seq<Event>, i: nat)
    requires i <= |log|
  {
    Full(plan, m, Playback(plan, m, world, log[..i]))
  }

  /** A completion is received only when nothing more could be started. */
  ghost predicate Eager(plan: Plan, m: Model, world: World, log: seq<Event>) {
    forall i :: 0 <= i < |log| && log[i].Finished? ==> FullAt(plan, m, world, log, i)
  }

  lemma EagerMore(plan: Plan, m: Model, world: World, log: seq<Event>, event: Event)
    requires Eager(plan, m, world, log) && (event.Finished? ==> Full(plan, m, Playback(plan, m, world, log)))
    ensures Eager(plan, m, world, log + [event])
  {
    hide Full, Playback;
    var longer := log + [event];
    forall i | 0 <= i < |longer| && longer[i].Finished? ensures FullAt(plan, m, world, longer, i) {
      if i < |log| {
        assert longer[..i] == log[..i] && FullAt(plan, m, world, log, i);
      } else {
        assert longer[..i] == log;
      }
    }
  }

  /** Admission has stopped exactly when some completion was wrong. */
  lemma {:induction false} StoppedIsWrong(plan: Plan, m: Model, world: World, log: seq<Event>)
    ensures Playback(plan, m, world, log).stopped <==> !Judge(log).Succeeded?
  {
    hide Due, Merged, FirstError, SomeRejected;
    if log == [] {
      NothingWrong();
    } else {
      var before, last := log[..|log| - 1], log[|log| - 1];
      StoppedIsWrong(plan, m, world, before);
      OneMoreJudged(before, last);
      assert before + [last] == log;
    }
  }

  lemma NothingWrong()
    ensures FirstError([]) == "" && !SomeRejected([])
  {
  }
}
