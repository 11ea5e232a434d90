/** The API's Cancel and the redelivery of cancellations as code, with every other party acting between two calls. */
module Handlers {
  import opened Compiler
  import opened RunLog
  import opened Ledger
  import opened LedgerFacts
  import opened Permanence
  import opened Protocol
  import opened ProtocolFrame
  import opened ProtocolSafety
  import opened ProtocolSteps

  predicate ByHandler(step: Step, h: nat) {
    step.Crash? || (step.BeginCancel? && step.handler == h) || (step.BeginReconcile? && step.handler == h)
    || (step.DeliveryTurn? && step.handler == h)
  }

  lemma LoopKeepsDeliveries(s: System, turn: Turn, max: nat)
    requires LoopEnabled(s, turn)
    ensures LoopNext(s, turn, max).deliveries == s.deliveries
  {
    hide Look, EnsureRun, Suppress, Ledger.Dispatch, Active, InSection;
  }

  /** Steps of others leave a handler's record alone. */
  lemma OthersLeaveHandler(s: System, step: Step, max: nat, h: nat)
    requires Enabled(s, step) && !ByHandler(step, h)
    ensures h in Next(s, step, max).deliveries <==> h in s.deliveries
    ensures h in s.deliveries ==> Next(s, step, max).deliveries[h] == s.deliveries[h]
  {
    hide Apply, Collect, RequestCancellation, MarkIfImpossible, MarkDelivered, LoopNext, AllCollectable, Undelivered,
         LoopEnabled;
    if step.LoopTurn? {
      LoopKeepsDeliveries(s, step.turn, max);
    }
  }

  /** If the cancellation is still on record it is marked delivered, and it is not lost. */
  ghost predicate Acknowledged(s: System, run: Uid) {
    run in s.tables.cancellations ==> Delivered(s.tables, run) && Settled(s, run)
  }

  // ---------------------------------------------------------------- what stays of an ended Run

  /**
   * The Run is closed for good; as long as its row is there it has the same phase and the same cancellation, which may
   * only have been acknowledged meanwhile.
   */
  ghost predicate StaysClosed(before: Tables, after: Tables, run: Uid) {
    && Closed(after, run)
    && (run in after.runs ==> run in before.runs && after.runs[run].log.phase == before.runs[run].log.phase)
    && (run !in before.cancellations ==> run !in after.cancellations)
    && (run in after.runs && run in before.cancellations ==> run in after.cancellations)
    && (run in before.cancellations && run in after.cancellations ==>
          && after.cancellations[run].reason == before.cancellations[run].reason
          && (before.cancellations[run].delivered ==> after.cancellations[run].delivered))
  }

  lemma {:induction false} CollectLeaves(t: Tables, runs: seq<Uid>, run: Uid)
    requires Collect(t, runs).Some?
    ensures var after := Collect(t, runs).value;
            && (run in after.runs ==> run in t.runs && after.runs[run] == t.runs[run])
            && (run in after.cancellations ==>
                  run in t.cancellations && after.cancellations[run] == t.cancellations[run])
    decreases |runs|
  {
    hide Collectable;
    if runs != [] {
      CollectLeaves(if runs[0] in t.runs then Removed(t, runs[0]) else t, runs[1..], run);
    }
  }

  lemma MoveStaysClosed(t: Tables, move: Move, run: Uid)
    requires Sound(t) && Allowed(t, move) && Closed(t, run)
    ensures StaysClosed(t, Apply(t, move), run)
  {
    hide Sound, Apply, Allowed, Closed, IsCancelled, Onward;
    AppliesOnward(t, move);
    ApplySound(t, move);
    SoundPhase(t, run);
    SoundPhase(Apply(t, move), run);
    OnwardCloses(t, Apply(t, move), run);
    if move.Collecting? {
      CollectingLeaves(t, move, run);
    } else {
      SoundIssued(t);
      ClosedLasts(t, move, run);
      if run in t.cancellations {
        CancellationKept(t, move, run);
      }
    }
    SamePhase(t, Apply(t, move), run);
  }

  lemma SoundIssued(t: Tables)
    requires Sound(t)
    ensures Issued(t)
  {
    hide Issued, OneRecord, OneCommand, Backed, RunsBacked, Projections;
  }

  lemma SamePhase(t: Tables, after: Tables, run: Uid)
    requires run in after.runs ==> run in t.runs && after.runs[run].log.phase == t.runs[run].log.phase
    ensures run in after.runs ==> (IsCancelled(t, run) <==> IsCancelled(after, run))
  {
  }

  lemma OnwardCloses(t: Tables, after: Tables, run: Uid)
    requires Onward(t, after) && Closed(t, run)
    ensures Closed(after, run) && (run !in t.cancellations ==> run !in after.cancellations)
  {
    hide Closed, StartOver, Retired;
  }

  lemma CollectingLeaves(t: Tables, move: Move, run: Uid)
    requires move.Collecting?
    ensures var after := Apply(t, move);
            && (run in after.runs ==> run in t.runs && after.runs[run] == t.runs[run])
            && (run in after.cancellations ==>
                  run in t.cancellations && after.cancellations[run] == t.cancellations[run])
  {
    hide Collect;
    if Collect(t, move.runs).Some? {
      CollectLeaves(t, move.runs, run);
    }
  }

  lemma CancellationKept(t: Tables, move: Move, run: Uid)
    requires !move.Collecting? && run in t.cancellations
    ensures var after := Apply(t, move);
            && run in after.cancellations && after.cancellations[run].reason == t.cancellations[run].reason
            && (t.cancellations[run].delivered ==> after.cancellations[run].delivered)
  {
    hide Appended, WithEvidence, WithCancellation, Opened, Lookup;
  }

  lemma StepStaysClosed(s: System, step: Step, max: nat, run: Uid)
    requires Safe(s, max) && Closed(s.tables, run)
    ensures StaysClosed(s.tables, Next(s, step, max).tables, run)
  {
    hide Safe, Closed, Enabled, Apply, Allowed, StaysClosed, Sound;
    SafeSound(s, max);
    if Enabled(s, step) {
      var move := MoveOf(s, step, max);
      MoveStaysClosed(s.tables, move, run);
    } else {
      NothingMoves(s.tables);
      MoveStaysClosed(s.tables, Collecting([]), run);
    }
  }

  lemma {:induction false} RunStaysClosed(s: System, steps: seq<Step>, max: nat, run: Uid)
    requires Safe(s, max) && Closed(s.tables, run)
    ensures StaysClosed(s.tables, After(s, steps, max).tables, run)
  {
    hide Safe, Closed, Next;
    if steps != [] {
      var before, last := steps[..|steps| - 1], steps[|steps| - 1];
      RunStaysClosed(s, before, max, run);
      AfterSafe(s, before, max);
      StepStaysClosed(After(s, before, max), last, max, run);
    }
  }

  /** What is acknowledged stays so. */
  lemma AcknowledgedStays(s: System, steps: seq<Step>, max: nat, run: Uid)
    requires Safe(s, max) && Closed(s.tables, run) && Acknowledged(s, run)
    ensures Acknowledged(After(s, steps, max), run)
  {
    hide Safe, Closed, After, Settled;
    RunStaysClosed(s, steps, max, run);
    AfterSafe(s, steps, max);
    if run in After(s, steps, max).tables.cancellations {
      DeliveredSettled(After(s, steps, max), run, max);
    }
  }

  // ---------------------------------------------------------------- what the handlers promise

  /** Cancellation was asked for in `before`, which had the Run, and `after` is some time later. */
  ghost predicate Intended(before: Tables, after: System, run: Uid, reason: string)
    requires run in before.runs
  {
    && Closed(after.tables, run)
    && (run in after.tables.runs ==>
          && Terminal(after.tables.runs[run].log.phase)
          && (Terminal(before.runs[run].log.phase) ==>
                after.tables.runs[run].log.phase == before.runs[run].log.phase)
          && (!Terminal(before.runs[run].log.phase) ==>
                && after.tables.runs[run].log.phase == Phase.Cancelled && run in after.tables.cancellations
                && after.tables.cancellations[run].reason == reason))
    && (Delivered(after.tables, run) ==> Settled(after, run))
  }

  /** One delivery that nobody disturbs. */
  ghost predicate DeliversAlone(before: System, after: System, run: Uid, acknowledged: bool) {
    var t := before.tables;
    var known := run in t.cancellations;
    && (acknowledged <==>
          run in before.instances || (known && !t.cancellations[run].delivered && !StartLeft(t, run)))
    && after.tables == t.(cancellations := if known && acknowledged
                                           then t.cancellations[run := Cancellation(t.cancellations[run].reason, true)]
                                           else t.cancellations)
    && after.instances == (if run in before.instances
                           then before.instances[run := Instance(true, before.instances[run].finished)]
                           else before.instances)
    && after.holder == Free && after.loop == before.loop && after.retentions == before.retentions
  }

  /** What the request does to the tables: once per Run, and only while it is alive. */
  ghost predicate Requested(before: Tables, after: Tables, run: Uid, reason: string)
    requires run in before.runs
  {
    var alive := !Terminal(before.runs[run].log.phase);
    after == before.(cancellations := if alive then before.cancellations[run := Cancellation(reason, false)]
                                      else before.cancellations,
                     runs := if alive then before.runs[run := before.runs[run].(
                                      log := WithCancellation(before.runs[run].log, reason))]
                             else before.runs)
  }

  lemma ReconcileShape(s: System, h: nat, runs: seq<Uid>, max: nat)
    requires Enabled(s, BeginReconcile(h, runs))
    ensures Next(s, BeginReconcile(h, runs), max) ==
              s.(deliveries := s.deliveries[h := Delivery(Queueing, runs[0], runs[1..])])
  {
    hide Undelivered;
  }

  /** Acknowledging is what the handler's last call does, if it does anything. */
  lemma MarkedAcknowledges(s: System, h: nat, max: nat)
    requires Safe(s, max) && h in s.deliveries && (s.deliveries[h].at == Marking || s.deliveries[h].at == MarkingAbsent)
    ensures var run := s.deliveries[h].run;
            s.deliveries[h].at == Marking || MarkIfImpossible(s.tables, run).1 ==>
                Acknowledged(DeliveryNext(s, h, Good), run)
  {
    hide Sound, SlowOk, StartsOk, MutexOk, Active, LoopOk, StartLeft, Settled;
    var run := s.deliveries[h].run;
    MarkingSafe(s, h, max);
    var next := DeliveryNext(s, h, Good);
    if Delivered(next.tables, run) {
      DeliveredSettled(next, run, max);
    }
  }

  /** At some time during these steps a start command was left that could still create the instance. */
  ghost predicate Postponed(s: System, steps: seq<Step>, max: nat, run: Uid) {
    exists n :: 0 <= n <= |steps| && StartLeft(After(s, steps[..n], max).tables, run)
  }

  /** The whole of Cancel when nobody disturbs it. */
  ghost predicate CancelsAlone(before: System, after: System, run: Uid, reason: string, acknowledged: bool)
    requires run in before.tables.runs
  {
    exists requested ::
      && Requested(before.tables, requested, run, reason)
      && DeliversAlone(before.(tables := requested), after, run, acknowledged)
  }

  lemma RequestShape(t: Tables, run: Uid, reason: string)
    requires Sound(t)
    ensures RequestCancellation(t, run, reason).Some? <==> run in t.runs
    ensures run in t.runs ==>
              Requested(t, RequestCancellation(t, run, reason).value, run, reason)
  {
    hide Sound, WithCancellation;
    SoundPhase(t, run);
  }

  /** The request is on record, and stays so. */
  lemma RequestIntends(t: Tables, s: System, steps: seq<Step>, max: nat, run: Uid, reason: string)
    requires run in t.runs && Safe(s, max) && Requested(t, s.tables, run, reason) && Closed(s.tables, run)
    ensures Intended(t, After(s, steps, max), run, reason)
  {
    hide Safe, Closed, After, Settled, WithCancellation;
    RunStaysClosed(s, steps, max, run);
    AfterSafe(s, steps, max);
    CancellationEnds(t, run, reason);
    ClosedEnded(After(s, steps, max).tables, run);
    if Delivered(After(s, steps, max).tables, run) {
      DeliveredSettled(After(s, steps, max), run, max);
    }
  }

  lemma ClosedEnded(t: Tables, run: Uid)
    requires Closed(t, run)
    ensures run in t.runs ==> Terminal(t.runs[run].log.phase)
  {
  }

  /** The request itself: the tables, and the handler's record. */
  lemma BeginSafe(s: System, me: nat, run: Uid, reason: string, max: nat)
    requires Safe(s, max) && me !in s.deliveries && run in s.tables.runs
    ensures Enabled(s, BeginCancel(me, run, reason))
    ensures var next := Next(s, BeginCancel(me, run, reason), max);
            && Safe(next, max) && Requested(s.tables, next.tables, run, reason) && Closed(next.tables, run)
            && next == s.(tables := next.tables, deliveries := s.deliveries[me := Delivery(Queueing, run, [])])
  {
    hide Safe, Sound, RequestCancellation, Requested, Closed;
    SafeSound(s, max);
    RequestShape(s.tables, run, reason);
    RequestedCloses(s.tables, run, reason);
    StepSafe(s, BeginCancel(me, run, reason), max);
  }

  lemma ReconcileCloses(s: System, runs: seq<Uid>, max: nat)
    requires Safe(s, max) && Undelivered(s.tables, runs)
    ensures forall i :: 0 <= i < |runs| ==> Closed(s.tables, runs[i])
  {
    hide Safe, Sound, Closed;
    SafeSound(s, max);
    forall i | 0 <= i < |runs| ensures Closed(s.tables, runs[i]) {
      CancelledCloses(s.tables, runs[i]);
    }
  }

  /** If the last call does not acknowledge, there is nothing to acknowledge, or a start command is left. */
  lemma MarkingLeaves(s: System, me: nat, start: System, steps: seq<Step>, max: nat)
    requires Safe(s, max) && me in s.deliveries
    requires s.deliveries[me].at == MarkingAbsent || s.deliveries[me].at == Marking
    requires s == After(start, steps, max)
    ensures var run := s.deliveries[me].run;
            || Acknowledged(DeliveryNext(s, me, Good), run)
            || Postponed(start, steps + [DeliveryTurn(me, Good)], max, run)
  {
    hide Safe, After, StartLeft, Settled;
    var run := s.deliveries[me].run;
    var more := steps + [DeliveryTurn(me, Good)];
    assert more[..|steps|] == steps;
    MarkedAcknowledges(s, me, max);
    DeliverySafe(s, me, Good, max);
    if Delivered(DeliveryNext(s, me, Good).tables, run) {
      DeliveredSettled(DeliveryNext(s, me, Good), run, max);
    }
  }

  /** After one more Run has been gone through, what was acknowledged before still is. */
  lemma OneGone(start: System, earlier: seq<Step>, more: seq<Step>, max: nat, runs: seq<Uid>, n: nat, complete: bool)
    requires n < |runs| && Safe(After(start, earlier, max), max)
    requires forall i :: 0 <= i < |runs| ==> Closed(After(start, earlier, max).tables, runs[i])
    requires forall i :: 0 <= i < n ==>
               Acknowledged(After(start, earlier, max), runs[i]) || Postponed(start, earlier, max, runs[i])
    requires var after := After(After(start, earlier, max), more, max);
             complete ==> Acknowledged(after, runs[n]) || Postponed(After(start, earlier, max), more, max, runs[n])
    ensures var after := After(start, earlier + more, max);
            && (forall i :: 0 <= i < |runs| ==> Closed(after.tables, runs[i]))
            && (forall i :: 0 <= i < n ==>
                  Acknowledged(after, runs[i]) || Postponed(start, earlier + more, max, runs[i]))
            && (complete ==> Acknowledged(after, runs[n]) || Postponed(start, earlier + more, max, runs[n]))
  {
    hide Safe, Closed, After, Acknowledged, Postponed;
    AfterMore(start, earlier, more, max);
    forall i | 0 <= i < |runs| ensures Closed(After(start, earlier + more, max).tables, runs[i]) {
      RunStaysClosed(After(start, earlier, max), more, max, runs[i]);
    }
    forall i | 0 <= i < n
      ensures Acknowledged(After(start, earlier + more, max), runs[i]) || Postponed(start, earlier + more, max, runs[i])
    {
      if Acknowledged(After(start, earlier, max), runs[i]) {
        AcknowledgedStays(After(start, earlier, max), more, max, runs[i]);
      } else {
        PostponedEarlier(start, earlier, more, max, runs[i]);
      }
    }
    if complete && !Acknowledged(After(start, earlier + more, max), runs[n]) {
      PostponedLater(start, earlier, more, max, runs[n]);
    }
  }

  lemma PostponedEarlier(s: System, steps: seq<Step>, more: seq<Step>, max: nat, run: Uid)
    requires Postponed(s, steps, max, run)
    ensures Postponed(s, steps + more, max, run)
  {
    hide After, StartLeft;
    var n :| 0 <= n <= |steps| && StartLeft(After(s, steps[..n], max).tables, run);
    assert (steps + more)[..n] == steps[..n];
  }

  lemma PostponedLater(s: System, steps: seq<Step>, more: seq<Step>, max: nat, run: Uid)
    requires Postponed(After(s, steps, max), more, max, run)
    ensures Postponed(s, steps + more, max, run)
  {
    hide After, StartLeft;
    var n :| 0 <= n <= |more| && StartLeft(After(After(s, steps, max), more[..n], max).tables, run);
    AfterMore(s, steps, more[..n], max);
    assert (steps + more)[..|steps| + n] == steps + more[..n];
  }

  /** A delivery does not depend on what is recorded of the handlers. */
  lemma AloneFrom(before: System, other: System, after: System, run: Uid, acknowledged: bool)
    requires DeliversAlone(before, after, run, acknowledged)
    requires other.tables == before.tables && other.instances == before.instances && other.loop == before.loop
             && other.retentions == before.retentions
    ensures DeliversAlone(other, after, run, acknowledged) && after.holder == Free
  {
    hide StartLeft;
  }

  /** The last call of a delivery that nobody disturbed. */
  lemma MarkedAlone(found: System, last: System, me: nat, exists_: bool, max: nat)
    requires me in found.deliveries && found.deliveries[me].at == Finding
    requires exists_ == (found.deliveries[me].run in found.instances)
    requires last == if exists_
                     then DeliveryTo(Cancel(DeliveryTo(found, me, Cancelling, found.holder), found.deliveries[me].run),
                                     me, Marking, Free)
                     else DeliveryTo(found, me, MarkingAbsent, Free)
    ensures var run := found.deliveries[me].run;
            DeliversAlone(found.(holder := Free), DeliveryNext(last, me, Good), run,
                          exists_ || MarkIfImpossible(last.tables, run).1)
  {
    hide StartLeft;
  }

  /** One handler of cancellations; everybody else acts between its calls, unless a call is `quiet`. */
  class Handler {
    var s: System
    const max: nat
    const me: nat

    constructor (system: System, limit: nat, number: nat)
      requires Safe(system, limit)
      ensures s == system && max == limit && me == number
    {
      s, max, me := system, limit, number;
    }

    /** Everyone else. */
    method Others(quiet: bool) returns (ghost steps: seq<Step>)
      requires Safe(s, max)
      modifies this
      ensures Safe(s, max) && (quiet ==> s == old(s))
      ensures s == After(old(s), steps, max) && forall i :: 0 <= i < |steps| ==> !ByHandler(steps[i], me)
      ensures me in s.deliveries <==> me in old(s).deliveries
      ensures me in s.deliveries ==> s.deliveries[me] == old(s).deliveries[me]
    {
      hide Safe, Enabled, Next, After;
      steps := [];
      NoSteps(s, max);
      var left: nat := *;
      while left > 0 && !quiet
        invariant Safe(s, max) && (quiet ==> s == old(s))
        invariant s == After(old(s), steps, max) && forall i :: 0 <= i < |steps| ==> !ByHandler(steps[i], me)
        invariant me in s.deliveries <==> me in old(s).deliveries
        invariant me in s.deliveries ==> s.deliveries[me] == old(s).deliveries[me]
      {
        var step: Step := *;
        if !ByHandler(step, me) && Enabled(s, step) {
          OthersLeaveHandler(s, step, max, me);
          StepSafe(s, step, max);
          OneMoreStep(old(s), steps, step, max);
          s := Next(s, step, max);
          steps := steps + [step];
        }
        left := left - 1;
      }
    }

    method Turns(turn: Turn, ghost start: System, ghost steps0: seq<Step>) returns (ghost steps: seq<Step>)
      requires Safe(s, max) && DeliveryEnabled(s, me, turn) && s == After(start, steps0, max)
      modifies this
      ensures Safe(s, max) && s == DeliveryNext(old(s), me, turn)
      ensures s == After(start, steps, max) && steps == steps0 + [DeliveryTurn(me, turn)]
    {
      hide Safe, DeliveryNext, After;
      DeliverySafe(s, me, turn, max);
      OneMoreStep(start, steps0, DeliveryTurn(me, turn), max);
      s := DeliveryNext(s, me, turn);
      steps := steps0 + [DeliveryTurn(me, turn)];
    }

    /**
     * The API's Cancel: record the intent, then try to deliver it. `asked` is the state in which the request was made.
     * A Run that is there then is closed for good: it has the phase it ended in, or, if it was alive, it is cancelled
     * with this reason, and the cancellation is on record, to be delivered again if it is not marked delivered. When
     * Cancel reports it acknowledged, the workflow instance is cancelled, or is absent for good.
     */
    method ApiCancel(run: Uid, reason: string, quiet: bool)
      returns (found: bool, acknowledged: bool, ghost before: seq<Step>, ghost asked: System)
      requires Safe(s, max) && me !in s.deliveries
      modifies this
      ensures Safe(s, max) && me !in s.deliveries
      ensures asked == After(old(s), before, max) && (quiet ==> asked == old(s))
      ensures forall i :: 0 <= i < |before| ==> !ByHandler(before[i], me)
      ensures found <==> run in asked.tables.runs
      ensures !found ==> s == asked && !acknowledged
      ensures found ==> Intended(asked.tables, s, run, reason)
      ensures acknowledged ==> Acknowledged(s, run)
      ensures quiet && found && asked.holder == Free ==> CancelsAlone(asked, s, run, reason, acknowledged)
    {
      hide Safe, RequestCancellation, Acknowledged, Next, After, Closed, Intended, Requested, DeliversAlone;
      acknowledged := false;
      before := Others(quiet);
      asked := s;
      SafeSound(s, max);
      RequestShape(s.tables, run, reason);
      found := RequestCancellation(s.tables, run, reason).Some?;
      if !found {
        return;
      }
      BeginSafe(s, me, run, reason, max);
      s := Next(s, BeginCancel(me, run, reason), max);
      ghost var begun := s;
      var ok;
      ghost var steps;
      ok, acknowledged, steps := DeliverOne(quiet);
      if quiet && asked.holder == Free {
        AloneFrom(begun, asked.(tables := begun.tables), s, run, acknowledged);
      }
      RequestIntends(asked.tables, begun, steps, max, run, reason);
    }

    /** Adapter.Reconcile: redelivers what is undelivered, in order, stopping at the first failure. */
    method EngineReconcile(runs: seq<Uid>, quiet: bool) returns (complete: bool, ghost steps: seq<Step>)
      requires Safe(s, max) && me !in s.deliveries && Undelivered(s.tables, runs)
      modifies this
      ensures Safe(s, max) && me !in s.deliveries && s == After(old(s), steps, max)
      ensures complete ==>
                forall i :: 0 <= i < |runs| ==> Acknowledged(s, runs[i]) || Postponed(old(s), steps, max, runs[i])
      ensures quiet && old(s).holder == Free ==> complete
    {
      hide Safe, Next, DeliveryNext, After, Acknowledged, Closed, DeliversAlone, StartLeft, Postponed;
      steps := [];
      NoSteps(s, max);
      if runs == [] {
        return true, steps;
      }
      ReconcileCloses(s, runs, max);
      StepSafe(s, BeginReconcile(me, runs), max);
      ReconcileShape(s, me, runs, max);
      OneMoreStep(s, steps, BeginReconcile(me, runs), max);
      s := Next(s, BeginReconcile(me, runs), max);
      steps := [BeginReconcile(me, runs)];
      assert [] + steps == steps;
      complete := true;
      ghost var n := 0;
      while me in s.deliveries
        invariant Safe(s, max) && s == After(old(s), steps, max) && n <= |runs|
        invariant me in s.deliveries ==>
                    complete && n < |runs| && s.deliveries[me] == Delivery(Queueing, runs[n], runs[n + 1..])
        invariant me !in s.deliveries && complete ==> n == |runs|
        invariant forall i :: 0 <= i < |runs| ==> Closed(s.tables, runs[i])
        invariant forall i :: 0 <= i < n ==> Acknowledged(s, runs[i]) || Postponed(old(s), steps, max, runs[i])
        invariant quiet && old(s).holder == Free ==> complete && s.holder == Free
        decreases if me in s.deliveries then |s.deliveries[me].rest| + 1 else 0
      {
        ghost var before, earlier := s, steps;
        var acknowledged;
        ghost var more;
        complete, acknowledged, more := DeliverOne(quiet);
        if quiet && before.holder == Free {
          AloneFrom(before, before, s, runs[n], acknowledged);
        }
        steps := earlier + more;
        AfterMore(old(s), earlier, more, max);
        OneGone(old(s), earlier, more, max, runs, n, complete);
        if complete {
          n := n + 1;
        }
      }
    }

    /**
     * Adapter.Cancel for the handler's current Run, and the acknowledgement that fits what it found. The handler waits
     * for the lifecycle mutex while others take any number of steps. If it is still held after them, the handler ends
     * here with an error, where the source goes on waiting: that such a wait ends rests on the assumption that every
     * holder in turn gives the mutex back and that a waiter is served. What is promised needs no such assumption.
     */
    method DeliverOne(quiet: bool) returns (ok: bool, acknowledged: bool, ghost steps: seq<Step>)
      requires Safe(s, max) && me in s.deliveries && s.deliveries[me].at == Queueing
      modifies this
      ensures Safe(s, max) && s == After(old(s), steps, max)
      ensures acknowledged ==> ok && Acknowledged(s, old(s).deliveries[me].run)
      ensures ok ==> Acknowledged(s, old(s).deliveries[me].run)
                     || Postponed(old(s), steps, max, old(s).deliveries[me].run)
      ensures var rest := old(s).deliveries[me].rest;
              if me in s.deliveries then ok && rest != [] && s.deliveries[me] == Delivery(Queueing, rest[0], rest[1..])
              else ok ==> rest == []
      ensures quiet && old(s).holder == Free ==>
                ok && DeliversAlone(old(s), s, old(s).deliveries[me].run, acknowledged)
    {
      hide Safe, Acknowledged, Apply, After, DeliversAlone, Postponed, StartLeft;
      var d := s.deliveries[me];
      ghost var start := s;
      ok, acknowledged := false, false;
      steps := Others(quiet);
      var fails: bool := *;
      if s.holder != Free || (fails && !quiet) {
        steps := Turns(Quit, start, steps);
        return;
      }
      steps := Turns(Good, start, steps);
      ghost var found := s.(holder := Free);
      ok, acknowledged, steps := FindAndCancel(d.run, quiet, start, steps);
      if quiet {
        AloneFrom(found, start, s, d.run, acknowledged);
      }
    }

    /** The part under the mutex, and the acknowledgement. */
    method FindAndCancel(run: Uid, quiet: bool, ghost start: System, ghost steps0: seq<Step>)
      returns (ok: bool, acknowledged: bool, ghost steps: seq<Step>)
      requires Safe(s, max) && me in s.deliveries && s.deliveries[me].at == Finding && s.deliveries[me].run == run
      requires s == After(start, steps0, max)
      modifies this
      ensures Safe(s, max) && s == After(start, steps, max)
      ensures acknowledged ==> ok && Acknowledged(s, run)
      ensures ok ==> Acknowledged(s, run) || Postponed(start, steps, max, run)
      ensures var rest := old(s).deliveries[me].rest;
              if me in s.deliveries then ok && rest != [] && s.deliveries[me] == Delivery(Queueing, rest[0], rest[1..])
              else ok ==> rest == []
      ensures quiet ==> ok && DeliversAlone(old(s).(holder := Free), s, run, acknowledged)
    {
      hide Safe, Acknowledged, Apply, After, DeliversAlone, Postponed, StartLeft;
      ok, acknowledged := false, false;
      steps := OthersAfter(quiet, start, steps0);
      var exists_ := run in s.instances;
      steps := Turns(Good, start, steps);
      var fails: bool := *;
      if exists_ {
        steps := OthersAfter(quiet, start, steps);
        fails := fails && !quiet;
        steps := Turns(if fails then Bad else Good, start, steps);
        if fails {
          return;
        }
      }
      steps := OthersAfter(quiet, start, steps);
      fails := *;
      if fails && !quiet {
        steps := Turns(Quit, start, steps);
        return;
      }
      MarkedAcknowledges(s, me, max);
      MarkingLeaves(s, me, start, steps, max);
      ghost var last := s;
      ok, acknowledged := true, exists_ || MarkIfImpossible(s.tables, run).1;
      steps := Turns(Good, start, steps);
      if quiet {
        MarkedAlone(old(s), last, me, exists_, max);
      }
    }

    method OthersAfter(quiet: bool, ghost start: System, ghost steps0: seq<Step>) returns (ghost steps: seq<Step>)
      requires Safe(s, max) && s == After(start, steps0, max)
      modifies this
      ensures Safe(s, max) && s == After(start, steps, max) && (quiet ==> s == old(s))
      ensures me in s.deliveries <==> me in old(s).deliveries
      ensures me in s.deliveries ==> s.deliveries[me] == old(s).deliveries[me]
    {
      hide Safe, After;
      var more := Others(quiet);
      AfterMore(start, steps0, more, max);
      steps := steps0 + more;
    }
  }
}
