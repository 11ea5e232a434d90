/** Histories with a limit of one, and what a rejection can still become. */
module Serial {
  import opened Graphs
  import opened Ordering
  import opened Compiler
  import opened Kahn
  import opened ComponentModel
  import opened Execution
  import opened ExecutionFacts
  import opened Locality
  import opened Sequential
  import opened Reachability
  import opened History

  /** With a limit of one, the first n components of the order have finished, and at most the next one is running. */
  ghost predicate InStep(plan: Plan, m: Model, world: World, play: Play, n: nat)
    requires IsModelOf(plan, m)
  {
    && n <= |m.order| && play.state == Prefix(plan, m, world, n)
    && if play.stopped then
         n > 0 && play.flight == map[] && AllOk(Prefix(plan, m, world, n - 1).results)
         && m.order[n - 1] in play.state.results && !Ok(play.state.results[m.order[n - 1]])
       else
         AllOk(play.state.results) && (play.flight == map[] || OnlyNext(plan, m, world, play, n))
  }

  ghost predicate OnlyNext(plan: Plan, m: Model, world: World, play: Play, n: nat) {
    n < |m.order| && play.flight == map[m.order[n] := Due(plan, m, world, m.order[n], play.state)]
  }

  lemma NextIsReady(plan: Plan, m: Model, world: World, n: nat)
    requires n < |m.order|
    requires IsModelOf(plan, m)
    ensures var done := Prefix(plan, m, world, n).results.Keys; IsReadyNow(m, done, done, m.order[n])
  {
    hide IsModelOf, Prefix, OwnResults, Components;
    PrefixResults(plan, m, world, n);
    OrderMember(plan, m, n);
    PredecessorsAre(plan, m, m.order[n]);
    PrefixDownClosed(plan, m, n);
    assert m.order[n] !in Elements(m.order[..n]);
  }

  lemma OnlyNextReady(plan: Plan, m: Model, world: World, n: nat, c: nat)
    requires n <= |m.order|
    requires IsModelOf(plan, m)
    requires var done := Prefix(plan, m, world, n).results.Keys; FirstReady(m, done, done, c)
    ensures n < |m.order| && c == m.order[n]
  {
    hide IsModelOf, Prefix, OwnResults, IsReadyNow;
    PrefixResults(plan, m, world, n);
    var done := Prefix(plan, m, world, n).results.Keys;
    var q :| 0 <= q < |m.order| && m.order[q] == c && IsReadyNow(m, done, done, c)
             && forall j :: 0 <= j < q ==> !IsReadyNow(m, done, done, m.order[j]);
    ReadyIsNew(m, done, c);
    AllListed(m.order, n);
    if n < |m.order| {
      NextIsReady(plan, m, world, n);
    }
  }

  lemma AllListed(order: seq<nat>, n: nat)
    requires n <= |order|
    ensures forall i :: 0 <= i < n ==> order[i] in Elements(order[..n])
  {
    forall i | 0 <= i < n ensures order[i] in Elements(order[..n]) {
      assert order[..n][i] == order[i];
    }
  }

  lemma ReadyIsNew(m: Model, done: set<nat>, c: nat)
    requires IsReadyNow(m, done, done, c)
    ensures c !in done
  {
    hide Elements;
  }

  lemma StartInStep(plan: Plan, m: Model, world: World, play: Play, c: nat, n: nat)
    requires EffectiveLimit(plan) == 1 && Booked(plan, m, play) && Permitted(plan, m, play, Started(c))
    requires IsModelOf(plan, m)
    requires InStep(plan, m, world, play, n)
    ensures InStep(plan, m, world, Played(plan, m, world, play, Started(c)), n)
  {
    hide IsModelOf, Prefix, AllOk, Preceded, FirstReady, Due;
    NothingRuns(play.flight);
    OnlyNextReady(plan, m, world, n, c);
  }

  lemma SendInStep(plan: Plan, m: Model, world: World, play: Play, c: nat, r: ComponentResult, n: nat)
    requires Permitted(plan, m, play, Sent(c, r))
    requires IsModelOf(plan, m)
    requires InStep(plan, m, world, play, n)
    ensures InStep(plan, m, world, Played(plan, m, world, play, Sent(c, r)), n)
  {
    hide IsModelOf, AllOk, Due;
    PlayedSend(plan, m, world, play, c, r);
  }

  lemma NothingRuns(flight: map<nat, ComponentResult>)
    requires |flight| < 1
    ensures flight == map[]
  {
  }

  lemma FinishInStep(plan: Plan, m: Model, world: World, play: Play, c: nat, r: ComponentResult, n: nat)
    requires Booked(plan, m, play) && Permitted(plan, m, play, Finished(c, r))
    requires IsModelOf(plan, m)
    requires InStep(plan, m, world, play, n)
    ensures InStep(plan, m, world, Played(plan, m, world, play, Finished(c, r)), n + 1)
  {
    hide IsModelOf, AllOk, Preceded, Ok, Merged, Played, Prefix, Due;
    InStepRunning(plan, m, world, play, c, n);
    PrefixDue(plan, m, world, n);
    BookedApart(plan, m, play, c);
    ResultOk(play.state.results, c, r);
    PlayedFinish(plan, m, world, play, c, r);
  }

  /** What runs is the next component of the order. */
  lemma InStepRunning(plan: Plan, m: Model, world: World, play: Play, c: nat, n: nat)
    requires IsModelOf(plan, m)
    requires InStep(plan, m, world, play, n) && c in play.flight
    ensures !play.stopped && n < |m.order| && c == m.order[n] && play.flight - {c} == map[]
    ensures play.flight[c] == Due(plan, m, world, c, Prefix(plan, m, world, n))
  {
    hide IsModelOf, AllOk, Prefix, Due;
  }

  /** The sequential run goes on with what the next component is due to send. */
  lemma PrefixDue(plan: Plan, m: Model, world: World, n: nat)
    requires IsModelOf(plan, m) && n < |m.order|
    ensures var before, k := Prefix(plan, m, world, n), m.order[n];
            Prefix(plan, m, world, n + 1) == Merged(before, k, Due(plan, m, world, k, before))
  {
    hide IsModelOf, Usable, EntersInside, RunComponent, Merged;
    OrderMember(plan, m, n);
    ModelUsable(plan, m, m.order[n]);
  }

  lemma {:induction false} SerialHistory(plan: Plan, m: Model, world: World, log: seq<Event>) returns (n: nat)
    requires IsHistory(plan, m, world, log) && EffectiveLimit(plan) == 1
    requires IsModelOf(plan, m)
    ensures InStep(plan, m, world, Playback(plan, m, world, log), n)
  {
    hide IsModelOf, Booked, Played, Permitted, InStep;
    if log == [] {
      n := 0;
      NothingInStep(plan, m, world);
    } else {
      var before, last := log[..|log| - 1], log[|log| - 1];
      n := SerialHistory(plan, m, world, before);
      HistoryBooked(plan, m, world, before);
      match last {
        case Started(c) => StartInStep(plan, m, world, Playback(plan, m, world, before), c, n);
        case Sent(c, r) => SendInStep(plan, m, world, Playback(plan, m, world, before), c, r, n);
        case Finished(c, r) =>
          FinishInStep(plan, m, world, Playback(plan, m, world, before), c, r, n);
          n := n + 1;
      }
    }
  }

  lemma NothingInStep(plan: Plan, m: Model, world: World)
    requires IsModelOf(plan, m)
    ensures InStep(plan, m, world, OPENING, 0)
  {
    hide IsModelOf;
  }

  function Ending(r: ComponentResult): Outcome {
    if r.error != "" then RunFailed(r.error) else if r.rejected then RunRejected else Succeeded
  }

  /** What the first component of the order that errs or is rejected makes of the Run. */
  ghost function FirstWrong(results: map<nat, ComponentResult>, order: seq<nat>): Outcome {
    if order == [] then Succeeded
    else if order[0] in results && !Ok(results[order[0]]) then Ending(results[order[0]])
    else FirstWrong(results, order[1..])
  }

  lemma {:induction false} FirstWrongAt(results: map<nat, ComponentResult>, order: seq<nat>, n: nat)
    requires n <= |order|
    requires forall i :: 0 <= i < n ==> order[i] in results && Ok(results[order[i]])
    requires n < |order| ==> order[n] in results && !Ok(results[order[n]])
    ensures FirstWrong(results, order) == if n < |order| then Ending(results[order[n]]) else Succeeded
    decreases n
  {
    hide Ok;
    if n > 0 {
      FirstWrongAt(results, order[1..], n - 1);
    }
  }

  /** One completion that went wrong decides the Run by itself. */
  lemma JudgeOne(play: Play, log: seq<Event>, c: nat)
    requires Tracks(play, log) && c in play.state.results && !Ok(play.state.results[c])
    requires forall k :: k in play.state.results && k != c ==> Ok(play.state.results[k])
    ensures Judge(log) == Ending(play.state.results[c])
  {
    hide FirstError, SomeRejected;
    FirstErrorFacts(log);
    var r := play.state.results[c];
    var q :| Finished(c, q) in log;
    var i: nat :| i < |log| && log[i] == Finished(c, q);
    assert r.error != "" ==> FailsAt(log, i);
    RejectedFacts(play, log);
    forall j: nat | FailsAt(log, j) ensures log[j].index == c {
      assert Finished(log[j].index, log[j].result) in log;
    }
  }

  lemma RejectedFacts(play: Play, log: seq<Event>)
    requires Tracks(play, log)
    ensures SomeRejected(log) <==>
              exists k :: k in play.state.results && play.state.results[k].error == "" && play.state.results[k].rejected
  {
    if SomeRejected(log) {
      var i :| 0 <= i < |log| && log[i].Finished? && log[i].result.error == "" && log[i].result.rejected;
      assert Finished(log[i].index, log[i].result) in log;
    }
    forall k | k in play.state.results && play.state.results[k].error == "" && play.state.results[k].rejected
      ensures SomeRejected(log) {
      var r :| Finished(k, r) in log;
      var i :| 0 <= i < |log| && log[i] == Finished(k, r);
    }
  }

  lemma JudgeNone(play: Play, log: seq<Event>)
    requires Tracks(play, log) && AllOk(play.state.results)
    ensures Judge(log) == Succeeded
  {
    hide FirstError, SomeRejected;
    FirstErrorFacts(log);
    RejectedFacts(play, log);
    forall j: nat ensures !FailsAt(log, j) {
      if j < |log| && log[j].Finished? {
        assert Finished(log[j].index, log[j].result) in log;
      }
    }
  }

  /** The results of the first n components are the final ones. */
  lemma PrefixFinal(plan: Plan, m: Model, world: World, n: nat, i: nat)
    requires IsModelOf(plan, m) && i < n <= |m.order|
    ensures var early, final := Prefix(plan, m, world, n).results, SequentialRun(plan, m, world).results;
            m.order[i] in early && m.order[i] in final && early[m.order[i]] == final[m.order[i]]
  {
    hide IsModelOf, Prefix;
    assert m.order[..n][i] == m.order[i];
    PrefixStable(plan, m, world, n, |m.order|, m.order[i]);
  }

  lemma EarlierOk(plan: Plan, m: Model, world: World, n: nat)
    requires IsModelOf(plan, m) && n <= |m.order| && AllOk(Prefix(plan, m, world, n).results)
    ensures forall i :: 0 <= i < n ==>
              m.order[i] in SequentialRun(plan, m, world).results
                  && Ok(SequentialRun(plan, m, world).results[m.order[i]])
  {
    hide IsModelOf, Prefix, SequentialRun, Ok;
    forall i | 0 <= i < n ensures m.order[i] in SequentialRun(plan, m, world).results
           && Ok(SequentialRun(plan, m, world).results[m.order[i]]) {
      PrefixFinal(plan, m, world, n, i);
    }
  }

  /**
   * With a limit of one the outcome is known before the Run starts: the first component in model order that errs or
   * is rejected decides which of the two it is, whatever outputs its nodes read.
   */
  lemma SerialDecides(plan: Plan, m: Model, world: World, log: seq<Event>)
    requires IsHistory(plan, m, world, log) && IsOver(m, Playback(plan, m, world, log)) && plan.maxParallel <= 1
    requires IsModelOf(plan, m)
    ensures Judge(log) == FirstWrong(SequentialRun(plan, m, world).results, m.order)
    ensures Judge(log).Succeeded? ==> Playback(plan, m, world, log).state == SequentialRun(plan, m, world)
  {
    hide IsModelOf, Prefix, SequentialRun, Playback, IsHistory, Ok, Tracks, Judge, FirstWrong, Ending, OwnResults;
    var play := Playback(plan, m, world, log);
    var n := SerialHistory(plan, m, world, log);
    PlaybackTracks(plan, m, world, log);
    if play.stopped {
      SerialStopped(plan, m, world, play, log, n);
    } else {
      SerialEnded(plan, m, world, play, n);
      JudgeNone(play, log);
      EarlierOk(plan, m, world, n);
      FirstWrongAt(SequentialRun(plan, m, world).results, m.order, n);
    }
    EndingNotOk(play, m, n);
  }

  lemma EndingNotOk(play: Play, m: Model, n: nat)
    ensures forall r :: !Ok(r) ==> !Ending(r).Succeeded?
  {
  }

  lemma SerialEnded(plan: Plan, m: Model, world: World, play: Play, n: nat)
    requires IsModelOf(plan, m)
    requires InStep(plan, m, world, play, n) && !play.stopped && IsOver(m, play)
    ensures n == |m.order| && play.state == SequentialRun(plan, m, world) && AllOk(Prefix(plan, m, world, n).results)
  {
    hide IsModelOf, Prefix, AllOk, OwnResults;
    PrefixResults(plan, m, world, n);
    NextIsNew(plan, m, n);
  }

  lemma NextIsNew(plan: Plan, m: Model, n: nat)
    requires IsModelOf(plan, m) && n <= |m.order|
    ensures n < |m.order| ==> m.order[n] !in Elements(m.order[..n]) && m.order[n] < |m.components|
  {
    hide IsModelOf;
    if n < |m.order| {
      OrderMember(plan, m, n);
    }
  }

  lemma SerialStopped(plan: Plan, m: Model, world: World, play: Play, log: seq<Event>, n: nat)
    requires IsModelOf(plan, m)
    requires InStep(plan, m, world, play, n) && play.stopped && Tracks(play, log)
    ensures Judge(log) == FirstWrong(SequentialRun(plan, m, world).results, m.order)
    ensures !Judge(log).Succeeded?
  {
    hide IsModelOf, SequentialRun, Ok, Tracks, Judge, FirstWrong, Ending, OwnResults, RunComponent;
    var c := m.order[n - 1];
    EarlierOk(plan, m, world, n - 1);
    PrefixFinal(plan, m, world, n, n - 1);
    FirstWrongAt(SequentialRun(plan, m, world).results, m.order, n - 1);
    forall k | k in play.state.results && k != c ensures Ok(play.state.results[k]) {
      assert k in Prefix(plan, m, world, n - 1).results;
    }
    JudgeOne(play, log, c);
    EndingNotOk(play, m, n);
  }
}
