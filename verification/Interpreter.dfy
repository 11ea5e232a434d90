/** The interpreter workflow: components run concurrently, at most maxParallel at a time. */
module Interpreter {
  import opened Graphs
  import opened Ordering
  import opened Tarjan
  import opened Compiler
  import opened Kahn
  import opened ComponentModel
  import opened Execution
  import opened Worklist
  import opened ExecutionFacts
  import opened Locality
  import opened Sequential
  import opened Reachability
  import opened History
  import opened Settlement
  import opened Independence
  import opened Serial

  function BuildErrorText(error: BuildError): string {
    match error
    case UnknownComponentNode(id) => "plan component references unknown node " + id
    case UnknownEdgeNode(_) => "plan edge references unknown node"
    case CyclicComponentGraph => "plan component graph is cyclic"
  }

  /** The first pending component whose predecessors have all completed. */
  method NextReady(m: Model, pending: seq<nat>, completed: set<nat>) returns (position: int)
    requires forall i :: 0 <= i < |pending| ==> pending[i] < |m.components|
    ensures -1 <= position < |pending|
    ensures position >= 0 ==> Elements(m.components[pending[position]].predecessors) <= completed
    ensures forall i :: 0 <= i < (if position < 0 then |pending| else position) ==>
              !(Elements(m.components[pending[i]].predecessors) <= completed)
  {
    for i := 0 to |pending|
      invariant forall j :: 0 <= j < i ==> !(Elements(m.components[pending[j]].predecessors) <= completed)
    {
      var ready := true;
      var predecessors := m.components[pending[i]].predecessors;
      for j := 0 to |predecessors|
        invariant ready <==> forall q :: 0 <= q < j ==> predecessors[q] in completed
      {
        if predecessors[j] !in completed {
          ready := false;
        }
      }
      if ready {
        return i;
      } else {
        var q :| 0 <= q < |predecessors| && predecessors[q] !in completed;
        assert predecessors[q] in Elements(predecessors);
      }
    }
    position := -1;
  }

  // ---------------------------------------------------------------- what is still pending

  /** The components of the order that have not started, in that order. */
  ghost function Waiting(order: seq<nat>, started: set<nat>): seq<nat> {
    if order == [] then [] else
      (if order[0] in started then [] else [order[0]]) + Waiting(order[1..], started)
  }

  lemma {:induction false} WaitingMember(order: seq<nat>, started: set<nat>, c: nat)
    ensures c in Waiting(order, started) <==> c in order && c !in started
  {
    if order != [] {
      assert order == [order[0]] + order[1..];
      WaitingMember(order[1..], started, c);
    }
  }

  lemma {:induction false} AllWaiting(order: seq<nat>)
    ensures Waiting(order, {}) == order
  {
    if order != [] {
      AllWaiting(order[1..]);
    }
  }

  /** Started components that are not in the order make no difference. */
  lemma {:induction false} WaitingOthers(order: seq<nat>, started: set<nat>, c: nat)
    requires c !in order
    ensures Waiting(order, started + {c}) == Waiting(order, started)
  {
    if order != [] {
      assert order == [order[0]] + order[1..];
      WaitingOthers(order[1..], started, c);
    }
  }

  lemma WaitingHead(order: seq<nat>, started: set<nat>)
    requires order != []
    ensures order[0] in started ==> Waiting(order, started) == Waiting(order[1..], started)
    ensures order[0] !in started ==> Waiting(order, started) == [order[0]] + Waiting(order[1..], started)
  {
  }

  /** Starting a waiting component takes it out of the list and leaves the rest in place. */
  lemma {:induction false} WaitingStart(order: seq<nat>, started: set<nat>, position: nat)
    requires NoDuplicates(order) && position < |Waiting(order, started)|
    ensures var pending := Waiting(order, started);
            Waiting(order, started + {pending[position]}) == pending[..position] + pending[position + 1..]
  {
    hide Waiting, NoDuplicates;
    WaitingMember(order, started, Waiting(order, started)[position]);
    HeadDistinct(order);
    WaitingHead(order, started);
    var c, rest := Waiting(order, started)[position], Waiting(order[1..], started);
    WaitingHead(order, started + {c});
    if order[0] in started {
      WaitingStart(order[1..], started, position);
    } else if position == 0 {
      WaitingOthers(order[1..], started, order[0]);
      assert ([order[0]] + rest)[1..] == rest;
    } else {
      CutTail(order[0], rest, position);
      WaitingMember(order[1..], started, c);
      WaitingStart(order[1..], started, position - 1);
    }
  }

  lemma CutTail(head: nat, rest: seq<nat>, position: nat)
    requires 0 < position <= |rest|
    ensures var s := [head] + rest;
            s[position] == rest[position - 1] && s[..position] + s[position + 1..] ==
                [head] + (rest[..position - 1] + rest[position..])
  {
  }

  /** What stands before a waiting component in the order has started or waits before it. */
  lemma {:induction false} WaitingPlace(order: seq<nat>, started: set<nat>, position: nat) returns (n: nat)
    requires position < |Waiting(order, started)|
    ensures n < |order| && order[n] == Waiting(order, started)[position] && order[n] !in started
    ensures forall i :: 0 <= i < n ==> order[i] in started || order[i] in Waiting(order, started)[..position]
  {
    var pending, rest := Waiting(order, started), Waiting(order[1..], started);
    if order[0] in started {
      n := WaitingPlace(order[1..], started, position);
      n := n + 1;
      assert pending == rest && forall i :: 0 < i < n ==> order[i] == order[1..][i - 1];
    } else if position == 0 {
      n := 0;
    } else {
      n := WaitingPlace(order[1..], started, position - 1);
      n := n + 1;
      assert pending[..position] == [order[0]] + rest[..position - 1];
      assert order[0] in pending[..position] && forall c :: c in rest[..position - 1] ==> c in pending[..position];
      assert forall i :: 0 < i < n ==> order[i] == order[1..][i - 1];
    }
  }

  // ---------------------------------------------------------------- the scheduler follows a history

  /**
   * The scheduler's variables are those of a history: `flight` holds the components started and not yet received, with
   * what each will deliver, and `buffered` lists those that have sent it, in that order.
   */
  ghost predicate Follows(plan: Plan, m: Model, world: World, log: seq<Event>, pending: seq<nat>,
                          flight: map<nat, ComponentResult>, buffered: seq<nat>, completed: set<nat>, state: RunState,
                          stopped: bool)
  {
    var play := Playback(plan, m, world, log);
    && IsHistory(plan, m, world, log) && Eager(plan, m, world, log)
    && pending == Waiting(m.order, play.starts.Keys) && completed == state.results.Keys
    && play.state == state && play.stopped == stopped
    && play.flight.Keys == flight.Keys && (!stopped ==> play.flight == flight)
    && play.sent == buffered && Agreed(play.flight, flight, buffered)
  }

  /** Once a completion has been sent its result is fixed. */
  ghost predicate Agreed(one: map<nat, ComponentResult>, two: map<nat, ComponentResult>, buffered: seq<nat>) {
    forall c :: c in buffered ==> c in one && c in two && one[c] == two[c]
  }

  /** What the buffer holds: completions of components in flight, each once. */
  ghost predicate Queued(flight: map<nat, ComponentResult>, buffered: seq<nat>) {
    NoDuplicates(buffered) && Elements(buffered) <= flight.Keys
  }

  lemma FollowsPending(plan: Plan, m: Model, world: World, log: seq<Event>, pending: seq<nat>,
                       flight: map<nat, ComponentResult>, buffered: seq<nat>, completed: set<nat>, state: RunState,
                       stopped: bool)
    requires Follows(plan, m, world, log, pending, flight, buffered, completed, state, stopped)
    requires IsModelOf(plan, m)
    ensures |flight| <= EffectiveLimit(plan)
    ensures forall i :: 0 <= i < |pending| ==> pending[i] < |m.components|
    ensures forall i :: 0 <= i < |pending| ==> pending[i] !in Playback(plan, m, world, log).starts
  {
    hide IsModelOf, Playback, IsHistory, Parted, Preceded, AllOk;
    var play := Playback(plan, m, world, log);
    HistoryBooked(plan, m, world, log);
    assert |play.flight.Keys| == |play.flight| && |flight.Keys| == |flight|;
    forall i | 0 <= i < |pending| ensures pending[i] < |m.components| && pending[i] !in play.starts {
      WaitingMember(m.order, play.starts.Keys, pending[i]);
      var n :| 0 <= n < |m.order| && m.order[n] == pending[i];
      OrderMember(plan, m, n);
    }
  }

  /** Starting the first ready component is what a history permits. */
  lemma StartFollows(plan: Plan, m: Model, world: World, log: seq<Event>, pending: seq<nat>,
                     flight: map<nat, ComponentResult>, buffered: seq<nat>,
                     completed: set<nat>, state: RunState, position: nat, result: ComponentResult)
    requires Follows(plan, m, world, log, pending, flight, buffered, completed, state, false)
             && |flight| < EffectiveLimit(plan)
    requires position < |pending| && forall i :: 0 <= i < |pending| ==> pending[i] < |m.components|
    requires Elements(m.components[pending[position]].predecessors) <= completed
    requires forall i :: 0 <= i < position ==> !(Elements(m.components[pending[i]].predecessors) <= completed)
    requires result == Due(plan, m, world, pending[position], state)
    requires IsModelOf(plan, m)
    ensures Follows(plan, m, world, log + [Started(pending[position])], pending[..position] + pending[position + 1..],
                    flight[pending[position] := result], buffered, completed, state, false)
  {
    hide IsModelOf, Playback, IsHistory, Eager, Due, Elements, Waiting;
    var play, c := Playback(plan, m, world, log), pending[position];
    OrderComplete(plan, m);
    WaitingStart(m.order, play.starts.Keys, position);
    var n := WaitingPlace(m.order, play.starts.Keys, position);
    forall j | 0 <= j < n ensures !IsReadyNow(m, play.starts.Keys, completed, m.order[j]) {
      if m.order[j] in pending[..position] {
        var i :| 0 <= i < position && pending[..position][i] == m.order[j];
        assert pending[i] == m.order[j];
      }
    }
    assert IsReadyNow(m, play.starts.Keys, completed, m.order[n]);
    OneMoreEvent(plan, m, world, log, Started(c));
    EagerMore(plan, m, world, log, Started(c));
    PlayedStart(plan, m, world, play, c);
  }

  /** Sending a completion is what a history permits, and fixes its result. */
  lemma SendFollows(plan: Plan, m: Model, world: World, log: seq<Event>, pending: seq<nat>,
                    flight: map<nat, ComponentResult>, buffered: seq<nat>, completed: set<nat>, state: RunState,
                    stopped: bool, c: nat)
    requires Follows(plan, m, world, log, pending, flight, buffered, completed, state, stopped)
    requires c in flight && c !in buffered
    ensures Follows(plan, m, world, log + [Sent(c, flight[c])], pending, flight, buffered + [c], completed, state,
              stopped)
    ensures Full(plan, m, Playback(plan, m, world, log)) ==>
              Full(plan, m, Playback(plan, m, world, log + [Sent(c, flight[c])]))
  {
    hide Playback, IsHistory, Eager, Waiting;
    var play := Playback(plan, m, world, log);
    assert c in play.flight.Keys;
    OneMoreEvent(plan, m, world, log, Sent(c, flight[c]));
    EagerMore(plan, m, world, log, Sent(c, flight[c]));
    PlayedSend(plan, m, world, play, c, flight[c]);
  }

  /** Receiving the first completion of the buffer is what a history permits. */
  lemma FinishFollows(plan: Plan, m: Model, world: World, log: seq<Event>, pending: seq<nat>,
                      flight: map<nat, ComponentResult>, buffered: seq<nat>, completed: set<nat>, state: RunState,
                      stopped: bool)
    requires Follows(plan, m, world, log, pending, flight, buffered, completed, state, stopped)
    requires Queued(flight, buffered) && buffered != [] && buffered[0] in flight
    requires Full(plan, m, Playback(plan, m, world, log))
    ensures var c := buffered[0];
            Follows(plan, m, world, log + [Finished(c, flight[c])], pending, flight - {c}, buffered[1..],
                    completed + {c}, Merged(state, c, flight[c]), stopped || !Ok(flight[c]))
  {
    hide Playback, IsHistory, Eager, Full, Ok, Merged, Waiting, Agreed, Queued;
    var play, c := Playback(plan, m, world, log), buffered[0];
    AgreedFinish(play.flight, flight, buffered);
    OneMoreEvent(plan, m, world, log, Finished(c, flight[c]));
    EagerMore(plan, m, world, log, Finished(c, flight[c]));
    PlayedFinish(plan, m, world, play, c, flight[c]);
    MergedResults(state, c, flight[c]);
  }

  lemma AgreedFinish(one: map<nat, ComponentResult>, two: map<nat, ComponentResult>, buffered: seq<nat>)
    requires Agreed(one, two, buffered) && Queued(two, buffered) && buffered != []
    ensures buffered[0] in one && buffered[0] in two && one[buffered[0]] == two[buffered[0]]
    ensures Agreed(one - {buffered[0]}, two - {buffered[0]}, buffered[1..])
    ensures one.Keys == two.Keys ==> (one - {buffered[0]}).Keys == (two - {buffered[0]}).Keys
  {
    hide NoDuplicates;
    HeadDistinct(buffered);
    assert (one - {buffered[0]}).Keys == one.Keys - {buffered[0]};
    assert (two - {buffered[0]}).Keys == two.Keys - {buffered[0]};
  }

  /** With nothing in flight, some pending component is ready: the first of the order that is pending. */
  lemma SomethingReady(plan: Plan, m: Model, world: World, log: seq<Event>, pending: seq<nat>, buffered: seq<nat>,
                       completed: set<nat>, state: RunState)
    requires Follows(plan, m, world, log, pending, map[], buffered, completed, state, false) && pending != []
    requires IsModelOf(plan, m)
    ensures pending[0] < |m.components| && Elements(m.components[pending[0]].predecessors) <= completed
  {
    hide IsModelOf, Playback, IsHistory, Waiting, Preceded, AllOk, Components;
    var play := Playback(plan, m, world, log);
    HistoryBooked(plan, m, world, log);
    FollowsPending(plan, m, world, log, pending, map[], buffered, completed, state, false);
    var n := WaitingPlace(m.order, play.starts.Keys, 0);
    PredecessorsAre(plan, m, pending[0]);
    PrefixDownClosed(plan, m, n);
    forall p | p in Elements(m.components[pending[0]].predecessors) ensures p in completed {
      assert (p, pending[0]) in Components(plan, m);
      var j :| 0 <= j < n && m.order[j] == p;
    }
  }

  /** After admission nothing more can be started. */
  lemma FollowsFull(plan: Plan, m: Model, world: World, log: seq<Event>, pending: seq<nat>,
                    flight: map<nat, ComponentResult>, buffered: seq<nat>, completed: set<nat>, state: RunState,
                    stopped: bool)
    requires Follows(plan, m, world, log, pending, flight, buffered, completed, state, stopped)
    requires stopped || |flight| == EffectiveLimit(plan) || forall c :: c in pending && c < |m.components| ==>
               !(Elements(m.components[c].predecessors) <= completed)
    requires IsModelOf(plan, m)
    ensures Full(plan, m, Playback(plan, m, world, log))
  {
    hide IsModelOf, Playback, IsHistory, Eager, Elements, Waiting;
    var play := Playback(plan, m, world, log);
    assert |play.flight.Keys| == |play.flight| && |flight.Keys| == |flight|;
    OrderComplete(plan, m);
    forall c | IsReadyNow(m, play.starts.Keys, completed, c) ensures c in pending {
      WaitingMember(m.order, play.starts.Keys, c);
      OrderListed(m, c);
    }
  }

  lemma OrderListed(m: Model, c: nat)
    ensures c in Elements(m.order) ==> c in m.order
    ensures c < |m.components| ==> c in Below(|m.components|)
  {
  }

  lemma NothingFollows(plan: Plan, m: Model, world: World)
    ensures Follows(plan, m, world, [], m.order, map[], [], {}, OPENING.state, false)
    ensures FirstError([]) == "" && !SomeRejected([])
  {
    AllWaiting(m.order);
    var started := OPENING.starts.Keys;
    assert started == {};
  }

  /** Nothing pending and nothing in flight means that every component has finished. */
  lemma FollowsOver(plan: Plan, m: Model, world: World, log: seq<Event>, pending: seq<nat>, buffered: seq<nat>,
                    completed: set<nat>, state: RunState, stopped: bool)
    requires Follows(plan, m, world, log, pending, map[], buffered, completed, state, stopped)
             && (stopped || pending == [])
    requires IsModelOf(plan, m)
    ensures IsOver(m, Playback(plan, m, world, log))
  {
    hide IsModelOf, Playback, IsHistory, Waiting, Preceded, AllOk;
    var play := Playback(plan, m, world, log);
    HistoryBooked(plan, m, world, log);
    OrderComplete(plan, m);
    forall c | 0 <= c < |m.components| && !stopped ensures c in state.results {
      WaitingMember(m.order, play.starts.Keys, c);
      assert c in Elements(m.order);
    }
    assert play.flight == map[];
  }

  // ---------------------------------------------------------------- admission

  /**
   * Starts ready components, in pending order, until the limit is reached or none is ready. With nothing in flight
   * afterwards, nothing is pending either.
   */
  method Admit(plan: Plan, m: Model, world: World, maxParallel: nat, pending0: seq<nat>,
               flight0: map<nat, ComponentResult>, buffered: seq<nat>,
               completed: set<nat>, state: RunState, ghost log0: seq<Event>)
    returns (pending: seq<nat>, flight: map<nat, ComponentResult>, ghost log: seq<Event>)
    requires maxParallel == EffectiveLimit(plan)
             && Follows(plan, m, world, log0, pending0, flight0, buffered, completed, state, false)
    requires IsModelOf(plan, m)
    ensures Follows(plan, m, world, log, pending, flight, buffered, completed, state, false)
    ensures FirstError(log) == FirstError(log0) && (SomeRejected(log) <==> SomeRejected(log0))
    ensures Receipts(log) == Receipts(log0)
    ensures flight0.Keys <= flight.Keys && |pending| <= |pending0| && |pending| + |flight| == |pending0| + |flight0|
    ensures |flight| == maxParallel || forall c :: c in pending && c < |m.components| ==>
              !(Elements(m.components[c].predecessors) <= completed)
    ensures flight == map[] ==> pending == []
  {
    hide IsModelOf, Follows, RunComponent, Usable, EntersInside, ComponentActive, Elements, FirstError, SomeRejected,
         Due, Receipts;
    pending, flight, log := pending0, flight0, log0;
    while |flight| < maxParallel
      invariant Follows(plan, m, world, log, pending, flight, buffered, completed, state, false)
      invariant FirstError(log) == FirstError(log0) && (SomeRejected(log) <==> SomeRejected(log0))
      invariant Receipts(log) == Receipts(log0)
      invariant flight0.Keys <= flight.Keys && |pending| <= |pending0| && |pending| + |flight| == |pending0| + |flight0|
      decreases |pending|
    {
      FollowsPending(plan, m, world, log, pending, flight, buffered, completed, state, false);
      var position := NextReady(m, pending, completed);
      if position < 0 {
        if flight == map[] && pending != [] {
          SomethingReady(plan, m, world, log, pending, buffered, completed, state);
        }
        return;
      }
      var index := pending[position];
      var active := ComponentActive(m.components[index], state.edges);
      ModelUsable(plan, m, index);
      var result := ExecutePlanComponent(plan, m, index, world, active, state.edges, state.outputs);
      DueIs(plan, m, world, index, state);
      NotInFlight(plan, m, world, log, pending, flight, buffered, completed, state, index);
      PutOne(flight, index, result);
      StartFollows(plan, m, world, log, pending, flight, buffered, completed, state, position, result);
      OneMoreJudged(log, Started(index));
      OneMoreReceipt(log, Started(index));
      log := log + [Started(index)];
      pending := pending[..position] + pending[position + 1..];
      flight := flight[index := result];
    }
    FollowsPending(plan, m, world, log, pending, flight, buffered, completed, state, false);
  }

  lemma DueIs(plan: Plan, m: Model, world: World, c: nat, state: RunState)
    requires Usable(plan, m, c) && EntersInside(plan, m, c)
    ensures Due(plan, m, world, c, state) == RunComponent(plan, m, c, world, state.edges, state.outputs)
  {
    hide Usable, EntersInside, RunComponent;
  }

  lemma NotInFlight(plan: Plan, m: Model, world: World, log: seq<Event>, pending: seq<nat>,
                    flight: map<nat, ComponentResult>, buffered: seq<nat>,
                    completed: set<nat>, state: RunState, index: nat)
    requires Follows(plan, m, world, log, pending, flight, buffered, completed, state, false) && index in pending
    ensures index !in flight && |flight[index := NOTHING]| == |flight| + 1
  {
    hide Playback, IsHistory, Waiting, Preceded, AllOk;
    HistoryBooked(plan, m, world, log);
    WaitingMember(m.order, Playback(plan, m, world, log).starts.Keys, index);
  }

  // ---------------------------------------------------------------- completions

  /** A coroutine that ends sends its completion; the buffer of maxParallel entries always has room. */
  method Send(flight: map<nat, ComponentResult>, buffered0: seq<nat>, index: nat, capacity: nat)
    returns (buffered: seq<nat>)
    requires Queued(flight, buffered0) && |flight| <= capacity && index in flight && index !in buffered0
    ensures buffered == buffered0 + [index] && Queued(flight, buffered) && |buffered| <= capacity
  {
    buffered := buffered0 + [index];
    assert Elements(buffered) == Elements(buffered0) + {index};
    DistinctCount(buffered);
    SubsetSize(Elements(buffered), flight.Keys);
  }

  /** Lets an arbitrary number of running components end, at least one if the buffer is empty. */
  method SomeFinish(ghost plan: Plan, ghost m: Model, ghost world: World, ghost pending: seq<nat>,
                    flight: map<nat, ComponentResult>, buffered0: seq<nat>, ghost completed: set<nat>,
                    ghost state: RunState, ghost stopped: bool, capacity: nat, ghost log0: seq<Event>)
    returns (buffered: seq<nat>, ghost log: seq<Event>)
    requires Queued(flight, buffered0) && |flight| <= capacity && flight != map[]
    requires Follows(plan, m, world, log0, pending, flight, buffered0, completed, state, stopped)
    requires Full(plan, m, Playback(plan, m, world, log0))
    ensures buffered0 <= buffered && buffered != [] && Queued(flight, buffered) && |buffered| <= capacity
    ensures Follows(plan, m, world, log, pending, flight, buffered, completed, state, stopped)
    ensures Full(plan, m, Playback(plan, m, world, log))
    ensures FirstError(log) == FirstError(log0) && (SomeRejected(log) <==> SomeRejected(log0))
    ensures Receipts(log) == Receipts(log0)
  {
    hide Follows, Full, Playback, FirstError, SomeRejected, Receipts;
    buffered, log := buffered0, log0;
    var more := *;
    DistinctCount(buffered);
    SubsetSize(Elements(buffered), flight.Keys);
    var running := set i | i in flight && i !in buffered;
    while running != {} && (buffered == [] || more)
      invariant buffered0 <= buffered && Queued(flight, buffered) && |buffered| <= capacity
      invariant running == flight.Keys - Elements(buffered) && Full(plan, m, Playback(plan, m, world, log))
      invariant Follows(plan, m, world, log, pending, flight, buffered, completed, state, stopped)
      invariant FirstError(log) == FirstError(log0) && (SomeRejected(log) <==> SomeRejected(log0))
      invariant Receipts(log) == Receipts(log0)
      decreases running
    {
      var index :| index in running;
      running := running - {index};
      ghost var before := buffered;
      SendFollows(plan, m, world, log, pending, flight, buffered, completed, state, stopped, index);
      OneMoreJudged(log, Sent(index, flight[index]));
      OneMoreReceipt(log, Sent(index, flight[index]));
      log := log + [Sent(index, flight[index])];
      buffered := Send(flight, buffered, index, capacity);
      assert Elements(buffered) == Elements(before) + {index};
      more := *;
    }
  }

  /** Cancelling lets every component still running end with some other result; those already sent keep theirs. */
  method CancelRunning(flight0: map<nat, ComponentResult>, buffered: seq<nat>)
    returns (flight: map<nat, ComponentResult>)
    ensures flight.Keys == flight0.Keys
    ensures forall c :: c in buffered && c in flight0 ==> flight[c] == flight0[c]
  {
    flight := flight0;
    var running := set c | c in flight && c !in buffered;
    while running != {}
      invariant flight.Keys == flight0.Keys && running <= flight.Keys
      invariant forall c :: c in running ==> c !in buffered
      invariant forall c :: c in buffered && c in flight0 ==> flight[c] == flight0[c]
    {
      var c :| c in running;
      var cancelled: ComponentResult := *;
      running := running - {c};
      flight := flight[c := cancelled];
    }
  }

  lemma ReceiveQueued(flight: map<nat, ComponentResult>, buffered: seq<nat>)
    requires Queued(flight, buffered) && buffered != []
    ensures buffered[0] in flight && Queued(flight - {buffered[0]}, buffered[1..])
    ensures |flight - {buffered[0]}| == |flight| - 1
  {
    HeadDistinct(buffered);
    assert buffered[0] in Elements(buffered);
    TakeOne(flight, buffered[0]);
  }

  lemma QueuedMore(flight: map<nat, ComponentResult>, more: map<nat, ComponentResult>, buffered: seq<nat>)
    requires Queued(flight, buffered) && flight.Keys <= more.Keys
    ensures Queued(more, buffered)
  {
    hide NoDuplicates, Elements;
  }

  lemma CancelFollows(plan: Plan, m: Model, world: World, log: seq<Event>, pending: seq<nat>,
                      flight: map<nat, ComponentResult>, after: map<nat, ComponentResult>, buffered: seq<nat>,
                      completed: set<nat>, state: RunState)
    requires Follows(plan, m, world, log, pending, flight, buffered, completed, state, true)
    requires after.Keys == flight.Keys && forall c :: c in buffered && c in flight ==> after[c] == flight[c]
    ensures Follows(plan, m, world, log, pending, after, buffered, completed, state, true) && |after| == |flight|
  {
    hide Playback, IsHistory, Waiting;
    assert |after.Keys| == |after| && |flight.Keys| == |flight|;
  }

  // ---------------------------------------------------------------- what it promises

  /** What a finished Run's outcome and state tell about its plan. */
  ghost predicate Promised(plan: Plan, m: Model, world: World, outcome: Outcome, state: RunState) {
    var sequential := SequentialRun(plan, m, world);
    && (ReadsAncestors(plan, world) ==>
          Decides(sequential.results, outcome) && (outcome.Succeeded? ==> state == sequential))
    && (plan.maxParallel <= 1 ==>
          outcome == FirstWrong(sequential.results, m.order) && (outcome.Succeeded? ==> state == sequential))
    && (Compiled(plan) && ErrorsHaveText(world) && outcome.Succeeded? ==> SettledRun(plan, m, world, state))
  }

  lemma HistoryPromises(plan: Plan, m: Model, world: World, log: seq<Event>)
    requires IsHistory(plan, m, world, log) && IsOver(m, Playback(plan, m, world, log))
    requires IsModelOf(plan, m)
    ensures Promised(plan, m, world, Judge(log), Playback(plan, m, world, log).state)
  {
    hide IsModelOf, IsHistory, Playback, IsOver, Judge, ReadsAncestors, SequentialRun, Compiled, ErrorsHaveText,
         SettledRun, Decides, FirstWrong;
    if ReadsAncestors(plan, world) {
      ScheduleIndependent(plan, m, world, log);
    }
    if plan.maxParallel <= 1 {
      SerialDecides(plan, m, world, log);
    }
    if Compiled(plan) && ErrorsHaveText(world) && Judge(log).Succeeded? {
      StoppedIsWrong(plan, m, world, log);
      SucceededSettles(plan, m, world, log);
    }
  }

  // ---------------------------------------------------------------- the scheduler

  /**
   * How a run of the scheduler has ended. Unless the workflow is cancelled while it waits for the completion after the
   * first `cancelledAfter`, the history has come to its end, and the outcome is what its received completions make of
   * it: failed with the first error text iff one carries an error, rejected iff none does and one is rejected.
   */
  ghost predicate Ended(plan: Plan, m: Model, world: World, log: seq<Event>, outcome: Outcome, state: RunState,
                        cancelledAfter: Option<nat>)
  {
    var play := Playback(plan, m, world, log);
    && IsHistory(plan, m, world, log) && Eager(plan, m, world, log) && state == play.state
    && if outcome.Interrupted? then cancelledAfter == Some(Receipts(log)) && !IsOver(m, play)
       else
         && IsOver(m, play) && outcome == Judge(log) && Promised(plan, m, world, outcome, state)
         && (cancelledAfter.Some? ==> Receipts(log) <= cancelledAfter.value)
  }

  /** Waits until some completion is in the buffer and takes the first. */
  method Receive(ghost plan: Plan, ghost m: Model, ghost world: World, ghost pending: seq<nat>,
                 flight: map<nat, ComponentResult>, buffered0: seq<nat>, ghost completed: set<nat>,
                 ghost state: RunState, ghost stopped: bool, capacity: nat, ghost log0: seq<Event>)
    returns (index: nat, buffered: seq<nat>, ghost log: seq<Event>)
    requires Queued(flight, buffered0) && |flight| <= capacity && flight != map[]
    requires Follows(plan, m, world, log0, pending, flight, buffered0, completed, state, stopped)
    requires Full(plan, m, Playback(plan, m, world, log0))
    ensures index in flight && |flight - {index}| == |flight| - 1 && Queued(flight - {index}, buffered)
    ensures Follows(plan, m, world, log, pending, flight - {index}, buffered, completed + {index},
                    Merged(state, index, flight[index]), stopped || !Ok(flight[index]))
    ensures Receipts(log) == Receipts(log0) + 1
    ensures FirstError(log) == if FirstError(log0) != "" then FirstError(log0) else flight[index].error
    ensures SomeRejected(log) <==> SomeRejected(log0) || (flight[index].error == "" && flight[index].rejected)
  {
    hide Follows, Full, Playback, Queued, FirstError, SomeRejected, Merged, Receipts, Ok;
    buffered, log := SomeFinish(plan, m, world, pending, flight, buffered0, completed, state, stopped, capacity, log0);
    index := buffered[0];
    ReceiveQueued(flight, buffered);
    FinishFollows(plan, m, world, log, pending, flight, buffered, completed, state, stopped);
    OneMoreJudged(log, Finished(index, flight[index]));
    OneMoreReceipt(log, Finished(index, flight[index]));
    log := log + [Finished(index, flight[index])];
    buffered := buffered[1..];
  }

  /** Cancels what is still running once something has gone wrong. */
  method Stop(ghost plan: Plan, ghost m: Model, ghost world: World, ghost pending: seq<nat>,
              flight0: map<nat, ComponentResult>, buffered: seq<nat>, ghost completed: set<nat>,
              ghost state: RunState, ghost log: seq<Event>)
    returns (flight: map<nat, ComponentResult>)
    requires Queued(flight0, buffered)
    requires Follows(plan, m, world, log, pending, flight0, buffered, completed, state, true)
    ensures |flight| == |flight0| && Queued(flight, buffered)
    ensures Follows(plan, m, world, log, pending, flight, buffered, completed, state, true)
  {
    hide Follows, Queued;
    flight := CancelRunning(flight0, buffered);
    CancelFollows(plan, m, world, log, pending, flight0, flight, buffered, completed, state);
    QueuedMore(flight0, flight, buffered);
  }

  /** The scheduler loop: what it does is a history, returned as `log`. */
  method RunPlan(plan: Plan, m: Model, world: World, cancelledAfter: Option<nat>)
    returns (outcome: Outcome, state: RunState, ghost log: seq<Event>)
    requires IsModelOf(plan, m)
    ensures Ended(plan, m, world, log, outcome, state, cancelledAfter)
  {
    hide IsModelOf, Follows, IsHistory, Eager, Full, Playback, Queued, IsOver, FirstError, SomeRejected, Merged,
         Promised, Receipts;
    var maxParallel := EffectiveLimit(plan);
    var pending, flight: map<nat, ComponentResult>, buffered: seq<nat> := m.order, map[], [];
    var completed: set<nat> := {};
    var received: nat := 0;
    state := RunState({}, map[], map[]);
    log := [];
    NothingFollows(plan, m, world);
    NothingQueued();
    var stopAdmission, firstError, rejected := false, "", false;
    while pending != [] || flight != map[]
      invariant Follows(plan, m, world, log, pending, flight, buffered, completed, state, stopAdmission)
      invariant Queued(flight, buffered)
      invariant firstError == FirstError(log) && (rejected <==> SomeRejected(log))
      invariant stopAdmission <==> firstError != "" || rejected
      invariant received == Receipts(log) && (cancelledAfter.Some? ==> received <= cancelledAfter.value)
      decreases 2 * |pending| + |flight|
    {
      if !stopAdmission {
        ghost var before := flight;
        pending, flight, log := Admit(plan, m, world, maxParallel, pending, flight, buffered, completed, state, log);
        QueuedMore(before, flight, buffered);
      }
      if |flight| == 0 {
        if stopAdmission {
          break;
        }
        assert false;
      }
      FollowsPending(plan, m, world, log, pending, flight, buffered, completed, state, stopAdmission);
      if cancelledAfter.Some? && cancelledAfter.value == received {
        FollowsState(plan, m, world, log, pending, flight, buffered, completed, state, stopAdmission);
        return Interrupted, state, log;
      }
      FollowsFull(plan, m, world, log, pending, flight, buffered, completed, state, stopAdmission);
      var index;
      index, buffered, log := Receive(plan, m, world, pending, flight, buffered, completed, state, stopAdmission,
                                      maxParallel, log);
      var result := flight[index];
      flight, completed := flight - {index}, completed + {index};
      state, received := Merged(state, index, result), received + 1;
      flight, firstError, rejected :=
        Handle(plan, m, world, pending, flight, buffered, completed, state, log, result, firstError, rejected);
      stopAdmission := firstError != "" || rejected;
    }
    assert flight == map[];
    outcome := OutcomeOf(plan, m, world, pending, buffered, completed, state, log, firstError, rejected);
  }

  /** The first error or rejection stops admission and cancels what is still running. */
  method Handle(ghost plan: Plan, ghost m: Model, ghost world: World, ghost pending: seq<nat>,
                flight0: map<nat, ComponentResult>, buffered: seq<nat>, ghost completed: set<nat>,
                ghost state: RunState, ghost log: seq<Event>, result: ComponentResult, firstError0: string,
                rejected0: bool)
    returns (flight: map<nat, ComponentResult>, firstError: string, rejected: bool)
    requires Queued(flight0, buffered)
    requires Follows(plan, m, world, log, pending, flight0, buffered, completed, state,
                     firstError0 != "" || rejected0 || !Ok(result))
    ensures |flight| == |flight0| && Queued(flight, buffered)
    ensures Follows(plan, m, world, log, pending, flight, buffered, completed, state, firstError != "" || rejected)
    ensures firstError == if firstError0 != "" then firstError0 else result.error
    ensures rejected <==> rejected0 || (result.error == "" && result.rejected)
  {
    hide Follows, Queued;
    flight, firstError, rejected := flight0, firstError0, rejected0;
    if result.error != "" {
      if firstError == "" {
        firstError := result.error;
        flight := Stop(plan, m, world, pending, flight, buffered, completed, state, log);
      }
    } else if result.rejected && !rejected {
      rejected := true;
      flight := Stop(plan, m, world, pending, flight, buffered, completed, state, log);
    }
  }

  /** The last lines of the loop's function: an error comes before a rejection. */
  method OutcomeOf(ghost plan: Plan, ghost m: Model, ghost world: World, ghost pending: seq<nat>,
                   ghost buffered: seq<nat>, ghost completed: set<nat>, ghost state: RunState, ghost log: seq<Event>,
                   firstError: string, rejected: bool)
    returns (outcome: Outcome)
    requires IsModelOf(plan, m) && firstError == FirstError(log) && (rejected <==> SomeRejected(log))
    requires Follows(plan, m, world, log, pending, map[], buffered, completed, state, firstError != "" || rejected)
    requires firstError != "" || rejected || pending == []
    ensures IsHistory(plan, m, world, log) && Eager(plan, m, world, log)
    ensures state == Playback(plan, m, world, log).state
    ensures IsOver(m, Playback(plan, m, world, log)) && outcome == Judge(log) && !outcome.Interrupted?
    ensures Promised(plan, m, world, outcome, state)
  {
    hide IsModelOf, Follows, IsHistory, Eager, Playback, IsOver, FirstError, SomeRejected, Promised;
    FollowsOver(plan, m, world, log, pending, buffered, completed, state, firstError != "" || rejected);
    FollowsState(plan, m, world, log, pending, map[], buffered, completed, state, firstError != "" || rejected);
    if firstError != "" {
      outcome := RunFailed(firstError);
    } else if rejected {
      outcome := RunRejected;
    } else {
      outcome := Succeeded;
    }
    HistoryPromises(plan, m, world, log);
  }

  lemma NothingQueued()
    ensures Queued(map[], []) && Receipts([]) == 0
  {
  }

  lemma FollowsState(plan: Plan, m: Model, world: World, log: seq<Event>, pending: seq<nat>,
                     flight: map<nat, ComponentResult>, buffered: seq<nat>, completed: set<nat>, state: RunState,
                     stopped: bool)
    requires Follows(plan, m, world, log, pending, flight, buffered, completed, state, stopped)
    ensures IsHistory(plan, m, world, log) && Eager(plan, m, world, log)
    ensures state == Playback(plan, m, world, log).state
    ensures |flight| > 0 ==> !IsOver(m, Playback(plan, m, world, log))
  {
    hide IsHistory, Playback, Waiting;
    assert |flight.Keys| == |flight|;
  }

  /** The interpreter workflow: the component model, then the scheduler. */
  method InterpreterWorkflow(plan: Plan, world: World, cancelledAfter: Option<nat>)
    returns (outcome: Outcome, state: RunState, model: Option<Model>, ghost log: seq<Event>)
    requires ValidPartition(plan)
    ensures model.None? ==> outcome.RunFailed?
    ensures Compiled(plan) ==> model.Some?
    ensures model.Some? ==>
              IsModelOf(plan, model.value) && Ended(plan, model.value, world, log, outcome, state, cancelledAfter)
  {
    hide IsModelOf, Compiled, HasCycle, Numbers, Ended;
    var built, byNode := BuildComponentModel(plan);
    log := [];
    if Compiled(plan) {
      CompiledIsValid(plan);
      CompiledAcyclic(plan, byNode);
    }
    if built.Rejected? {
      outcome, state, model := RunFailed(BuildErrorText(built.error)), RunState({}, map[], map[]), None;
    } else {
      model := Some(built.model);
      outcome, state, log := RunPlan(plan, built.model, world, cancelledAfter);
    }
  }
}
