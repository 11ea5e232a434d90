/**
 * The control loop and the cancellation handlers as code: each store or engine call is one step of the protocol,
 * and between any two of them everyone else may take any number of steps.
 */
module Daemon {
  import opened Compiler
  import opened RunLog
  import opened Ledger
  import opened LedgerFacts
  import opened Permanence
  import opened Protocol
  import opened ProtocolFrame
  import opened ProtocolSafety
  import opened ProtocolSteps

  /** Dispatched commands are completed; a deferred one is back in the queue; an abandoned one is left claimed. */
  datatype Dispatch = Idle | Dispatched | Deferred | Abandoned

  predicate ByTheLoop(step: Step) {
    step.Claim? || step.LoopTurn? || step.Crash?
  }

  /** Steps of others leave the loop where it is. */
  lemma OthersLeaveLoop(s: System, step: Step, max: nat)
    requires Enabled(s, step) && !ByTheLoop(step)
    ensures Next(s, step, max).loop == s.loop
  {
    hide Apply, Collect, RequestCancellation, MarkIfImpossible, MarkDelivered, LoopNext, AllCollectable, Undelivered;
  }

  /** The loop comes to rest with its command in this state. */
  function Returned(s: System, state: CommandState): System
    requires s.loop.Working? && s.loop.id in s.tables.outbox
  {
    s.(loop := Resting, holder := if InSection(s.loop.at) then Free else s.holder,
       tables := s.tables.(outbox := s.tables.outbox[s.loop.id := s.tables.outbox[s.loop.id].(state := state)]))
  }

  /** Below the limit, or there already. */
  predicate Admitted(s: System, max: nat)
    requires s.loop.Working?
  {
    s.loop.run in s.tables.runs || |Active(s.tables) - {s.loop.run}| < max
  }

  /** The plan of a Run that is there is stored. */
  predicate PlanThere(s: System)
    requires s.loop.Working?
  {
    s.loop.run in s.tables.runs ==> s.tables.runs[s.loop.run].plan in s.tables.plans
  }

  /** Nothing stands in the way of the claimed start. */
  predicate Clear(s: System, max: nat)
    requires s.loop.Working? && s.loop.id in s.tables.outbox
  {
    s.tables.outbox[s.loop.id].plan in s.tables.plans && Admitted(s, max) && PlanThere(s)
  }

  /** The Run's row is there. */
  function RunOpened(s: System): System
    requires s.loop.Working? && s.loop.id in s.tables.outbox
  {
    var c, t := s.tables.outbox[s.loop.id], s.tables;
    if s.loop.run in t.runs then s
    else s.(tables := t.(plans := t.plans + {c.plan},
                         runs := t.runs[s.loop.run := RunRow(c.receipt, c.plan, Opened())]))
  }

  /** The Run's instance is there, unless the Run is cancelled. */
  function EngineStarted(s: System): System
    requires s.loop.Working?
  {
    (if s.loop.run in s.instances || IsCancelled(s.tables, s.loop.run) then s else Made(s, s.loop.run)).
    (loop := s.loop.(at := Finish))
  }

  function Launched(s: System): System
    requires s.loop.Working? && s.loop.id in s.tables.outbox
  {
    Returned(if s.loop.run in s.tables.cancellations then s else EngineStarted(s), CommandState.Completed)
  }

  /** The claimed start has gone through. */
  function Through(s: System): System
    requires s.loop.Working? && s.loop.id in s.tables.outbox
  {
    Launched(RunOpened(s))
  }

  /** None of this depends on where the loop stands before the section. */
  lemma ReturnedFrom(s: System, at: LoopAt, state: CommandState)
    requires s.loop.Working? && s.loop.id in s.tables.outbox && !InSection(s.loop.at) && !InSection(at)
    ensures Returned(s.(loop := s.loop.(at := at)), state) == Returned(s, state)
  {
  }

  lemma LaunchedFrom(s: System, at: LoopAt)
    requires s.loop.Working? && s.loop.id in s.tables.outbox && !InSection(s.loop.at) && !InSection(at)
    ensures Launched(s.(loop := s.loop.(at := at))) == Launched(s)
  {
    hide Returned, InSection, EngineStarted;
    var moved := s.(loop := s.loop.(at := at));
    ReturnedFrom(s, at, CommandState.Completed);
    StartedFrom(s, at);
  }

  lemma StartedFrom(s: System, at: LoopAt)
    requires s.loop.Working?
    ensures EngineStarted(s.(loop := s.loop.(at := at))) == EngineStarted(s)
  {
    hide IsCancelled, Made;
    MadeFrom(s, at);
  }

  lemma MadeFrom(s: System, at: LoopAt)
    requires s.loop.Working?
    ensures Made(s.(loop := s.loop.(at := at)), s.loop.run).(loop := s.loop.(at := Finish)) ==
              Made(s, s.loop.run).(loop := s.loop.(at := Finish))
  {
  }

  lemma ThroughFrom(s: System, at: LoopAt)
    requires s.loop.Working? && s.loop.id in s.tables.outbox && !InSection(s.loop.at) && !InSection(at)
    ensures Through(s.(loop := s.loop.(at := at))) == Through(s)
    ensures Launched(RunOpened(s).(loop := s.loop.(at := at))) == Through(s)
  {
    hide Launched, InSection;
    LaunchedFrom(RunOpened(s), at);
    assert RunOpened(s.(loop := s.loop.(at := at))) == RunOpened(s).(loop := s.loop.(at := at));
  }

  /**
   * What has become of a command that was dispatched without disturbance: a signal goes through; a start goes through
   * iff its plan is stored, and, if the Run is there, that Run's plan, and otherwise the limit of active Runs leaves
   * room. Then the command is completed, the Run is there, and so is its instance, unless it is cancelled; if not,
   * the command waits again. Nothing else has changed.
   */
  ghost predicate GoesThrough(before: System, after: System, id: nat, max: nat, result: Dispatch)
    requires id in before.tables.outbox
  {
    var t, c := before.tables, before.tables.outbox[id];
    var clear := c.starts ==>
      && c.plan in t.plans
      && if c.run in t.runs then t.runs[c.run].plan in t.plans
         else |set run | run in t.runs && !Terminal(t.runs[run].log.phase)| < max;
    var starts := clear && c.starts;
    && result == (if clear then Dispatched else Deferred) && after.loop == Resting && after.holder == Free
    && after.tables == t.(outbox := t.outbox[id := c.(state := if clear then CommandState.Completed else Waits)],
                          runs := if starts && c.run !in t.runs
                                  then t.runs[c.run := RunRow(c.receipt, c.plan, Opened())] else t.runs)
    && after.instances == (if starts && c.run !in before.instances && c.run !in t.cancellations
                           then before.instances[c.run := Instance(false, false)] else before.instances)
    && after.deliveries == before.deliveries && after.retentions == before.retentions && after.pruned == before.pruned
  }

  /**
   * In every method, `quiet` tells that during the call nobody else takes a step and nothing fails; what is promised
   * of a call that is not quiet holds of every call.
   */
  class Daemon {
    var s: System
    const max: nat

    constructor (limit: nat)
      ensures s == START && max == limit && Safe(s, max)
    {
      s, max := START, limit;
      StartSafe(limit);
    }

    /** Everyone but the control loop. */
    method Others(quiet: bool) returns (ghost steps: seq<Step>)
      requires Safe(s, max)
      modifies this
      ensures Safe(s, max) && s.loop == old(s.loop) && (quiet ==> s == old(s))
      ensures s == After(old(s), steps, max) && forall i :: 0 <= i < |steps| ==> !ByTheLoop(steps[i])
    {
      hide Safe, Enabled, Next, After;
      steps := [];
      NoSteps(s, max);
      var left: nat := *;
      while left > 0 && !quiet
        invariant Safe(s, max) && s.loop == old(s.loop) && (quiet ==> s == old(s))
        invariant s == After(old(s), steps, max) && forall i :: 0 <= i < |steps| ==> !ByTheLoop(steps[i])
      {
        var step: Step := *;
        if !ByTheLoop(step) && Enabled(s, step) {
          OthersLeaveLoop(s, step, max);
          StepSafe(s, step, max);
          OneMoreStep(old(s), steps, step, max);
          s := Next(s, step, max);
          steps := steps + [step];
        }
        left := left - 1;
      }
    }

    method Turns(turn: Turn)
      requires Safe(s, max) && LoopEnabled(s, turn)
      modifies this
      ensures Safe(s, max) && s == LoopNext(old(s), turn, max)
    {
      hide Safe, LoopNext;
      LoopSafe(s, turn, max);
      s := LoopNext(s, turn, max);
    }

    /** Whatever went wrong, the mutex is released and the command put back, unless that fails too. */
    method PutBack(quiet: bool) returns (result: Dispatch)
      requires Safe(s, max) && s.loop.Working? && s.loop.at != Finish && s.loop.at != Retry
      modifies this
      ensures Safe(s, max) && s.loop == Resting && (result == Deferred || result == Abandoned)
      ensures result == Deferred ==> old(s.loop).id in s.tables.outbox && s.tables.outbox[old(s.loop).id].state == Waits
      ensures quiet ==> old(s.loop).id in old(s).tables.outbox && result == Deferred && s == Returned(old(s), Waits)
    {
      hide Safe, LoopNext, GoodTurn;
      BadTurn(s, max);
      Turns(Bad);
      var _ := Others(quiet);
      RetryTurn(s, max);
      QuitTurn(s, max);
      var retried: bool := *;
      retried := retried || quiet;
      Turns(if retried then Good else Quit);
      result := if retried then Deferred else Abandoned;
    }

    /** Others take their steps; then the next call may fail, which puts the command back. */
    method Proceed(quiet: bool) returns (ok: bool, result: Dispatch)
      requires Safe(s, max) && s.loop.Working? && s.loop.at != Finish && s.loop.at != Retry
      modifies this
      ensures Safe(s, max) && (quiet ==> ok && s == old(s))
      ensures ok ==> s.loop == old(s.loop)
      ensures !ok ==> GivenUp(s, old(s.loop).id, result)
    {
      hide Safe;
      var _ := Others(quiet);
      ok, result := *, Idle;
      ok := ok || quiet;
      if !ok {
        result := PutBack(quiet);
      }
    }

    /**
     * ClaimNext and the dispatch it leads to. `looked` is the state in which the loop looked for a command: others may
     * have got there first. It claims the oldest one that is due and unfinished, and is idle iff there is none. If the
     * call is quiet and the mutex free, a signal goes through, and a start goes through exactly if it may.
     */
    method ReconcileOne(due: set<nat>, quiet: bool)
      returns (result: Dispatch, id: nat, ghost before: seq<Step>, ghost looked: System)
      requires Safe(s, max) && s.loop == Resting
      modifies this
      ensures Safe(s, max) && s.loop == Resting
      ensures looked == After(old(s), before, max) && (forall i :: 0 <= i < |before| ==> !ByTheLoop(before[i]))
      ensures quiet ==> looked == old(s)
      ensures result == Idle <==> forall i :: i in due ==> !Unfinished(looked.tables, i)
      ensures result == Idle ==> s == looked
      ensures result != Idle ==>
                && id in due && Unfinished(looked.tables, id)
                && forall i :: i in due && Unfinished(looked.tables, i) ==> id <= i
      ensures result == Dispatched ==> DispatchedNow(s, id)
      ensures result == Deferred ==> id in s.tables.outbox && s.tables.outbox[id].state == Waits
      ensures quiet && looked.holder == Free && result != Idle ==> GoesThrough(looked, s, id, max, result)
    {
      hide Safe, Enabled, DispatchedNow, After, Active, Through, Returned, GoesThrough, Clear;
      id := 0;
      before := Others(quiet);
      looked := s;
      var claimable := set i | i in due && i in s.tables.outbox && s.tables.outbox[i].state != CommandState.Completed;
      assert forall i :: i in due && Unfinished(s.tables, i) ==> i in claimable;
      if claimable == {} {
        return Idle, id, before, looked;
      }
      id := First(claimable);
      ClaimEnabled(s, id);
      StepSafe(s, Claim(id), max);
      ClaimShape(s, id, max);
      s := Next(s, Claim(id), max);
      if s.loop.at == Load {
        result := ReconcileStart(quiet);
      } else {
        result := ReconcileSignal(quiet);
      }
      if quiet && looked.holder == Free {
        ClaimGoesThrough(looked, s, id, max, result);
      }
    }

    /** The start of a Run, from the stored plan to the completed command. */
    method ReconcileStart(quiet: bool) returns (result: Dispatch)
      requires Safe(s, max) && s.loop.Working? && s.loop.at == Load
      modifies this
      ensures Safe(s, max) && s.loop == Resting && result != Idle
      ensures result == Dispatched ==> DispatchedNow(s, old(s.loop).id)
      ensures result == Deferred ==> old(s.loop).id in s.tables.outbox && s.tables.outbox[old(s.loop).id].state == Waits
      ensures quiet && old(s).holder == Free ==>
                && old(s.loop).id in old(s).tables.outbox
                && if Clear(old(s), max) then result == Dispatched && s == Through(old(s))
                   else result == Deferred && s == Returned(old(s), Waits)
    {
      hide Safe, DispatchedNow, LoopNext, GoodTurn, Through, Returned, After, Active, MoveTo, RunOpened, Launched,
           EngineStarted;
      var id, run := s.loop.id, s.loop.run;
      var ok, failure := ReadyToOpen(id, run, quiet);
      if !ok {
        return failure;
      }
      ok, failure := Proceed(quiet);
      if !ok {
        return failure;
      }
      result := OpenAndStart(id, run, quiet);
      if quiet && old(s).holder == Free {
        ThroughFrom(old(s), Open);
        ReturnedFrom(old(s), Open, Waits);
      }
    }

    /** The plan of the start is loaded and its Run admitted. */
    method ReadyToOpen(id: nat, run: Uid, quiet: bool) returns (ok: bool, failure: Dispatch)
      requires Safe(s, max) && s.loop == Working(Load, id, run)
      modifies this
      ensures Safe(s, max)
      ensures ok ==> s.loop == Working(Open, id, run)
      ensures !ok ==> GivenUp(s, id, failure)
      ensures quiet ==>
                && id in old(s).tables.outbox
                && ok == (old(s).tables.outbox[id].plan in old(s).tables.plans && Admitted(old(s), max))
                && if ok then s == old(s).(loop := Working(Open, id, run))
                   else failure == Deferred && s == Returned(old(s), Waits)
    {
      hide Safe, LoopNext, GoodTurn, Returned, After, Active, MoveTo;
      ok, failure := Proceed(quiet);
      if !ok {
        return;
      }
      LoopHolds(s, max);
      if s.tables.outbox[id].plan !in s.tables.plans {
        failure := PutBack(quiet);
        return false, failure;
      }
      LoadTurn(s, max);
      Turns(Good);
      ok, failure := AdmitRun(id, run, quiet);
      if quiet {
        ReturnedFrom(old(s), Check, Waits);
      }
    }

    /** A Run that is not there yet is admitted only below the limit of active Runs. */
    method AdmitRun(id: nat, run: Uid, quiet: bool) returns (ok: bool, failure: Dispatch)
      requires Safe(s, max) && s.loop == Working(Check, id, run)
      modifies this
      ensures Safe(s, max)
      ensures ok ==> s.loop == Working(Open, id, run)
      ensures !ok ==> GivenUp(s, id, failure)
      ensures quiet ==>
                && id in old(s).tables.outbox && ok == Admitted(old(s), max)
                && if ok then s == old(s).(loop := Working(Open, id, run))
                   else failure == Deferred && s == Returned(old(s), Waits)
    {
      hide Safe, LoopNext, GoodTurn, After, Active, Returned, MoveTo;
      LoopHolds(s, max);
      ok, failure := Proceed(quiet);
      if !ok {
        return;
      }
      var there := run in s.tables.runs;
      CheckTurn(s, max);
      Turns(Good);
      if !there {
        ok, failure := CountActive(id, run, quiet);
        if quiet {
          ReturnedFrom(old(s), Count, Waits);
        }
      }
    }

    method CountActive(id: nat, run: Uid, quiet: bool) returns (ok: bool, failure: Dispatch)
      requires Safe(s, max) && s.loop == Working(Count, id, run)
      modifies this
      ensures Safe(s, max)
      ensures ok ==> s.loop == Working(Open, id, run)
      ensures !ok ==> GivenUp(s, id, failure)
      ensures quiet ==>
                && id in old(s).tables.outbox && (ok <==> |Active(old(s).tables) - {run}| < max)
                && if ok then s == old(s).(loop := Working(Open, id, run))
                   else failure == Deferred && s == Returned(old(s), Waits)
    {
      hide Safe, LoopNext, GoodTurn, After, Active, Returned, MoveTo;
      LoopHolds(s, max);
      ok, failure := Proceed(quiet);
      if !ok {
        return;
      }
      if |Active(s.tables) - {run}| >= max {
        failure := PutBack(quiet);
        return false, failure;
      }
      CountTurn(s, max);
      Turns(Good);
    }

    /** EnsureRun, the cancellation check, the engine and the completion. */
    method OpenAndStart(id: nat, run: Uid, quiet: bool) returns (result: Dispatch)
      requires Safe(s, max) && s.loop == Working(Open, id, run)
      modifies this
      ensures Safe(s, max) && s.loop == Resting && result != Idle
      ensures result == Dispatched ==> DispatchedNow(s, id)
      ensures result == Deferred ==> id in s.tables.outbox && s.tables.outbox[id].state == Waits
      ensures quiet && old(s).holder == Free ==>
                && id in old(s).tables.outbox
                && if PlanThere(old(s)) then result == Dispatched && s == Through(old(s))
                   else result == Deferred && s == Returned(old(s), Waits)
    {
      hide Safe, DispatchedNow, LoopNext, GoodTurn, After, Through, Active, Launched;
      LoopHolds(s, max);
      OpenTurn(s, max);
      var created := run !in s.tables.runs;
      Turns(Good);
      var ok, failure := Proceed(quiet);
      if !ok {
        return failure;
      }
      if !created {
        var stored := PlanStored(id, run);
        if !stored {
          result := PutBack(quiet);
          return;
        }
        ok, failure := Proceed(quiet);
        if !ok {
          return failure;
        }
      }
      result := SuppressOrStart(id, run, quiet);
      if quiet && old(s).holder == Free && PlanThere(old(s)) {
        ThroughFrom(old(s), Hush);
      }
    }

    /** A start whose Run is cancelled is completed without the engine. */
    method SuppressOrStart(id: nat, run: Uid, quiet: bool) returns (result: Dispatch)
      requires Safe(s, max) && s.loop == Working(Hush, id, run)
      modifies this
      ensures Safe(s, max) && s.loop == Resting && result != Idle
      ensures result == Dispatched ==> DispatchedNow(s, id)
      ensures result == Deferred ==> id in s.tables.outbox && s.tables.outbox[id].state == Waits
      ensures quiet && old(s).holder == Free ==>
                id in old(s).tables.outbox && result == Dispatched && s == Launched(old(s))
    {
      hide Safe, DispatchedNow, LoopNext, GoodTurn, After, Active, EngineStarted, Returned, MoveTo, IsCancelled;
      LoopHolds(s, max);
      HushTurn(s, max);
      var cancelled := run in s.tables.cancellations;
      Turns(Good);
      if cancelled {
        return Dispatched;
      }
      var ok, failure := Proceed(quiet);
      if !ok {
        return failure;
      }
      ok, failure := EngineStart(id, run, quiet);
      if !ok {
        return failure;
      }
      result := CompleteOutbox(quiet);
      if quiet {
        StartedFrom(old(s), Enter);
      }
    }

    /** The plan of a Run that was there already. */
    method PlanStored(id: nat, run: Uid) returns (stored: bool)
      requires Safe(s, max) && s.loop == Working(Reload, id, run)
      modifies this
      ensures Safe(s, max) && s == old(s).(loop := Working(if stored then Hush else Reload, id, run))
      ensures stored <==> run in old(s).tables.runs && old(s).tables.runs[run].plan in old(s).tables.plans
    {
      hide Safe, LoopNext, GoodTurn;
      stored := run in s.tables.runs && s.tables.runs[run].plan in s.tables.plans;
      if stored {
        ReloadTurn(s, max);
        Turns(Good);
      }
    }

    /**
     * Others go on until the mutex is free, or the caller gives up waiting, which stands for a daemon that is shut
     * down: in the source the wait ends if every holder in turn gives the mutex back and the waiter is served.
     */
    method AwaitMutex(quiet: bool) returns (free: bool)
      requires Safe(s, max)
      modifies this
      ensures Safe(s, max) && s.loop == old(s.loop) && (free ==> s.holder == Free)
      ensures quiet ==> s == old(s) && (free <==> s.holder == Free)
    {
      hide Safe, After;
      var _ := Others(quiet);
      free := s.holder == Free;
    }

    /** Adapter.Start, under the lifecycle mutex. */
    method EngineStart(id: nat, run: Uid, quiet: bool) returns (ok: bool, failure: Dispatch)
      requires Safe(s, max) && s.loop == Working(Enter, id, run)
      modifies this
      ensures Safe(s, max)
      ensures ok ==> s.loop == Working(Finish, id, run)
      ensures !ok ==> GivenUp(s, id, failure)
      ensures quiet && old(s).holder == Free ==> ok && s == EngineStarted(old(s))
    {
      hide Safe, LoopNext, GoodTurn, Look, After;
      LoopHolds(s, max);
      var free := AwaitMutex(quiet);
      if !free {
        QuitTurn(s, max);
        Turns(Quit);
        return false, Abandoned;
      }
      EnterTurn(s, max);
      Turns(Good);
      ok, failure := Proceed(quiet);
      if !ok {
        return;
      }
      if run !in s.tables.runs {
        failure := PutBack(quiet);
        return false, failure;
      }
      InspectTurn(s, max);
      var cancelled := IsCancelled(s.tables, run);
      Turns(Good);
      if cancelled {
        return true, Idle;
      }
      ok, failure := Proceed(quiet);
      if !ok {
        return;
      }
      FindTurn(s, max);
      var exists_ := run in s.instances;
      Turns(Good);
      if exists_ {
        return true, Idle;
      }
      ok, failure := CreateInstance(id, run, quiet);
    }
    /** Creating the instance, and cancelling it at once if the Run was cancelled meanwhile. */
    method CreateInstance(id: nat, run: Uid, quiet: bool) returns (ok: bool, failure: Dispatch)
      requires Safe(s, max) && s.loop == Working(Create, id, run)
      modifies this
      ensures Safe(s, max)
      ensures ok ==> s.loop == Working(Finish, id, run)
      ensures !ok ==> GivenUp(s, id, failure)
      ensures quiet && !IsCancelled(old(s).tables, run) ==>
                ok && s == Made(old(s), run).(loop := Working(Finish, id, run), holder := Free)
    {
      hide Safe, LoopNext, GoodTurn, Look, After;
      LoopHolds(s, max);
      ok, failure := Proceed(quiet);
      if !ok {
        return;
      }
      var lost: bool := *;
      CreateTurn(s, max);
      if lost && !quiet {
        LostTurn(s, max);
        Turns(Lost);
        return true, Idle;
      }
      Turns(Good);
      ok, failure := Proceed(quiet);
      if !ok {
        return;
      }
      if run !in s.tables.runs {
        failure := PutBack(quiet);
        return false, failure;
      }
      RecheckTurn(s, max);
      var cancelled := IsCancelled(s.tables, run);
      Turns(Good);
      if !cancelled {
        return true, Idle;
      }
      ok, failure := Proceed(quiet);
      if !ok {
        return;
      }
      if run !in s.instances {
        failure := PutBack(quiet);
        return false, failure;
      }
      CancelTurn(s, max);
      Turns(Good);
    }

    method ReconcileSignal(quiet: bool) returns (result: Dispatch)
      requires Safe(s, max) && s.loop.Working? && s.loop.at == Send
      modifies this
      ensures Safe(s, max) && s.loop == Resting && result != Idle
      ensures result == Dispatched ==> DispatchedNow(s, old(s.loop).id)
      ensures result == Deferred ==> old(s.loop).id in s.tables.outbox && s.tables.outbox[old(s.loop).id].state == Waits
      ensures quiet ==>
                old(s.loop).id in old(s).tables.outbox && result == Dispatched
                && s == Returned(old(s), CommandState.Completed)
    {
      hide Safe, DispatchedNow, LoopNext, GoodTurn, After;
      var ok, failure := Proceed(quiet);
      if !ok {
        return failure;
      }
      SendTurn(s, max);
      Turns(Good);
      result := CompleteOutbox(quiet);
    }

    method CompleteOutbox(quiet: bool) returns (result: Dispatch)
      requires Safe(s, max) && s.loop.Working? && s.loop.at == Finish
      modifies this
      ensures Safe(s, max) && s.loop == Resting && (result == Dispatched || result == Abandoned)
      ensures result == Dispatched ==> DispatchedNow(s, old(s.loop).id)
      ensures quiet ==>
                old(s.loop).id in old(s).tables.outbox && result == Dispatched
                && s == Returned(old(s), CommandState.Completed)
    {
      hide Safe, DispatchedNow, LoopNext, After;
      var _ := Others(quiet);
      var fails: bool := *;
      if fails && !quiet {
        QuitTurn(s, max);
        Turns(Quit);
        return Abandoned;
      }
      FinishDispatches(s, max);
      Turns(Good);
      return Dispatched;
    }
  }

  function CommandSet(t: Tables, id: nat, state: CommandState): map<nat, Command>
    requires id in t.outbox
  {
    t.outbox[id := t.outbox[id].(state := state)]
  }

  lemma ClaimShape(s: System, id: nat, max: nat)
    requires Enabled(s, Claim(id))
    ensures id in s.tables.outbox
    ensures Next(s, Claim(id), max) == Claimed(s, id)
  {
  }

  /** What going through changes. */
  lemma ThroughShape(s: System)
    requires s.loop.Working? && s.loop.id in s.tables.outbox && !InSection(s.loop.at)
    requires s.loop.run in s.tables.runs ==>
               (s.loop.run in s.tables.cancellations <==> IsCancelled(s.tables, s.loop.run))
    ensures var after, t, run, c := Through(s), s.tables, s.loop.run, s.tables.outbox[s.loop.id];
            && after.loop == Resting && after.holder == s.holder
            && after.tables == t.(outbox := CommandSet(t, s.loop.id, CommandState.Completed),
                                  plans := if run in t.runs then t.plans else t.plans + {c.plan},
                                  runs := if run in t.runs then t.runs
                                          else t.runs[run := RunRow(c.receipt, c.plan, Opened())])
            && after.instances == (if run !in s.instances && run !in t.cancellations
                                   then s.instances[run := Instance(false, false)] else s.instances)
            && after.deliveries == s.deliveries && after.retentions == s.retentions && after.pruned == s.pruned
  {
    hide Active, Launched, IsCancelled;
    LaunchedShape(RunOpened(s));
    OpenedAlive(s);
  }

  lemma OpenedAlive(s: System)
    requires s.loop.Working? && s.loop.id in s.tables.outbox
    ensures IsCancelled(RunOpened(s).tables, s.loop.run) == IsCancelled(s.tables, s.loop.run)
    ensures s.loop.run !in s.tables.runs ==> !IsCancelled(s.tables, s.loop.run)
  {
    hide Active;
  }

  lemma LaunchedShape(s: System)
    requires s.loop.Working? && s.loop.id in s.tables.outbox && !InSection(s.loop.at)
    ensures var after, run := Launched(s), s.loop.run;
            && after.loop == Resting && after.holder == s.holder
            && after.tables == s.tables.(outbox := CommandSet(s.tables, s.loop.id, CommandState.Completed))
            && after.instances == (if run !in s.instances && run !in s.tables.cancellations
                                      && !IsCancelled(s.tables, run)
                                   then s.instances[run := Instance(false, false)] else s.instances)
            && after.deliveries == s.deliveries && after.retentions == s.retentions && after.pruned == s.pruned
  {
    hide Active, IsCancelled;
  }

  /** The state in which a command is claimed. */
  function Claimed(s: System, id: nat): System
    requires id in s.tables.outbox
  {
    s.(tables := s.tables.(outbox := CommandSet(s.tables, id, Inflight)),
       loop := Working(if s.tables.outbox[id].starts then Load else Send, id, s.tables.outbox[id].run))
  }

  lemma ClaimedReturns(s: System, id: nat, state: CommandState)
    requires id in s.tables.outbox && s.holder == Free
    ensures CommandSet(Claimed(s, id).tables, id, state) == CommandSet(s.tables, id, state)
    ensures Returned(Claimed(s, id), state) ==
              s.(tables := s.tables.(outbox := CommandSet(s.tables, id, state)), loop := Resting)
  {
    assert CommandSet(Claimed(s, id).tables, id, state) == CommandSet(s.tables, id, state);
  }

  lemma SignalGoes(s: System, id: nat, max: nat)
    requires id in s.tables.outbox && !s.tables.outbox[id].starts && s.holder == Free && s.loop == Resting
    ensures GoesThrough(s, Returned(Claimed(s, id), CommandState.Completed), id, max, Dispatched)
  {
    hide Returned, Claimed, Active;
    ClaimedReturns(s, id, CommandState.Completed);
  }

  lemma StartWaits(s: System, id: nat, max: nat)
    requires id in s.tables.outbox && s.tables.outbox[id].starts && s.holder == Free && s.loop == Resting
    requires !Clear(Claimed(s, id), max)
    ensures GoesThrough(s, Returned(Claimed(s, id), Waits), id, max, Deferred)
  {
    hide Returned, Active;
    ActiveMeans(s.tables);
    ClaimedReturns(s, id, Waits);
    ClaimKeeps(s.tables, Claimed(s, id).tables, s.tables.outbox[id].run);
  }

  lemma StartGoes(s: System, id: nat, max: nat)
    requires id in s.tables.outbox && s.tables.outbox[id].starts && s.holder == Free && s.loop == Resting
    requires s.tables.outbox[id].run in s.tables.cancellations <==> IsCancelled(s.tables, s.tables.outbox[id].run)
    requires Clear(Claimed(s, id), max)
    ensures GoesThrough(s, Through(Claimed(s, id)), id, max, Dispatched)
  {
    hide Through, Active, IsCancelled, Returned;
    ActiveMeans(s.tables);
    var t, c := s.tables, s.tables.outbox[id];
    ClaimKeeps(t, Claimed(s, id).tables, c.run);
    ThroughShape(Claimed(s, id));
    ClaimedReturns(s, id, CommandState.Completed);
    assert t.plans + {c.plan} == t.plans;
  }

  /** The claimed state's way through, in the terms of the state that was looked at. */
  lemma ClaimGoesThrough(looked: System, after: System, id: nat, max: nat, result: Dispatch)
    requires looked.loop == Resting && looked.holder == Free && Enabled(looked, Claim(id)) && Safe(looked, max)
    requires Next(looked, Claim(id), max) == Claimed(looked, id)
    requires if looked.tables.outbox[id].starts then
               if Clear(Claimed(looked, id), max) then result == Dispatched && after == Through(Claimed(looked, id))
               else result == Deferred && after == Returned(Claimed(looked, id), Waits)
             else result == Dispatched && after == Returned(Claimed(looked, id), CommandState.Completed)
    ensures GoesThrough(looked, after, id, max, result)
  {
    hide Safe, Through, Next, IsCancelled, Active, Clear, Claimed, Returned, Sound, GoesThrough;
    var c := looked.tables.outbox[id];
    SafeSound(looked, max);
    SoundPhase(looked.tables, c.run);
    ClaimedAt(looked, id);
    if !c.starts {
      SignalGoes(looked, id, max);
    } else if Clear(Claimed(looked, id), max) {
      StartGoes(looked, id, max);
    } else {
      StartWaits(looked, id, max);
    }
  }

  lemma ClaimedAt(s: System, id: nat)
    requires id in s.tables.outbox
    ensures Claimed(s, id).loop.Working? && Claimed(s, id).loop.id == id && id in Claimed(s, id).tables.outbox
    ensures !InSection(Claimed(s, id).loop.at)
  {
  }

  lemma ClaimKeeps(t: Tables, claimed: Tables, run: Uid)
    requires claimed.runs == t.runs
    ensures Active(claimed) == Active(t) && IsCancelled(claimed, run) == IsCancelled(t, run)
    ensures run !in t.runs ==> Active(t) - {run} == Active(t)
  {
  }

  predicate Unfinished(t: Tables, id: nat) {
    id in t.outbox && t.outbox[id].state != CommandState.Completed
  }

  ghost predicate GivenUp(s: System, id: nat, failure: Dispatch) {
    && s.loop == Resting && (failure == Deferred || failure == Abandoned)
    && (failure == Deferred ==> id in s.tables.outbox && s.tables.outbox[id].state == Waits)
  }

  /** The command is completed, and a start has its Run and its instance or a cancelled Run. */
  ghost predicate DispatchedNow(s: System, id: nat) {
    && id in s.tables.outbox && s.tables.outbox[id].state == CommandState.Completed
    && (s.tables.outbox[id].starts ==> s.tables.outbox[id].run in s.tables.runs && Started(s, s.tables.outbox[id].run))
  }

  /** The smallest of a non-empty set. */
  method First(ids: set<nat>) returns (id: nat)
    requires ids != {}
    ensures id in ids && forall i :: i in ids ==> id <= i
  {
    id :| id in ids;
    var left := ids - {id};
    while left != {}
      invariant id in ids && left <= ids && forall i :: i in ids && i !in left ==> id <= i
    {
      var i :| i in left;
      left := left - {i};
      if i < id {
        id := i;
      }
    }
  }

  lemma ClaimEnabled(s: System, id: nat)
    requires s.loop == Resting && id in s.tables.outbox && s.tables.outbox[id].state != CommandState.Completed
    ensures Enabled(s, Claim(id))
    ensures forall max: nat :: Next(s, Claim(id), max).loop ==
              Working(if s.tables.outbox[id].starts then Load else Send, id, s.tables.outbox[id].run)
  {
  }

  lemma FinishDispatches(s: System, max: nat)
    requires Safe(s, max) && s.loop.Working? && s.loop.at == Finish
    ensures var next := LoopNext(s, Good, max);
            && s.loop.id in s.tables.outbox && next == Returned(s, CommandState.Completed)
            && DispatchedNow(next, s.loop.id)
  {
    hide Look, EnsureRun, Suppress, Sound, SlowOk, StartsOk, MutexOk, Active;
    LoopHolds(s, max);
  }

  lemma BadTurn(s: System, max: nat)
    requires s.loop.Working? && s.loop.at != Finish && s.loop.at != Retry
    ensures LoopNext(s, Bad, max) == MoveTo(s, Retry)
  {
    hide GoodTurn;
  }

  lemma RetryTurn(s: System, max: nat)
    requires Safe(s, max) && s.loop.Working? && s.loop.at == Retry
    ensures s.loop.id in s.tables.outbox && LoopNext(s, Good, max) == Returned(s, Waits)
  {
    hide Safe, Active, IsCancelled, Look, EnsureRun, Suppress;
    LoopHolds(s, max);
  }

  lemma QuitTurn(s: System, max: nat)
    requires s.loop.Working?
    ensures LoopNext(s, Quit, max).loop == Resting
  {
    hide GoodTurn;
  }

  // ---------------------------------------------------------------- where each call leads

  lemma LoadTurn(s: System, max: nat)
    requires s.loop.Working? && s.loop.at == Load
    requires s.loop.id in s.tables.outbox && s.tables.outbox[s.loop.id].plan in s.tables.plans
    ensures LoopNext(s, Good, max) == s.(loop := s.loop.(at := Check))
  {
    hide Active, IsCancelled;
  }

  lemma CheckTurn(s: System, max: nat)
    requires s.loop.Working? && s.loop.at == Check
    ensures LoopNext(s, Good, max) == s.(loop := s.loop.(at := if s.loop.run in s.tables.runs then Open else Count))
  {
    hide Active, IsCancelled;
  }

  lemma CountTurn(s: System, max: nat)
    requires s.loop.Working? && s.loop.at == Count && |Active(s.tables) - {s.loop.run}| < max
    ensures LoopNext(s, Good, max) == s.(loop := s.loop.(at := Open))
  {
    hide Active, IsCancelled;
  }

  lemma ReloadTurn(s: System, max: nat)
    requires s.loop.Working? && s.loop.at == Reload
    requires s.loop.run in s.tables.runs && s.tables.runs[s.loop.run].plan in s.tables.plans
    ensures LoopNext(s, Good, max) == s.(loop := s.loop.(at := Hush))
  {
    hide Active, IsCancelled;
  }

  lemma EnterTurn(s: System, max: nat)
    requires s.loop.Working? && s.loop.at == Enter && s.holder == Free
    ensures LoopNext(s, Good, max) == MoveTo(s, Inspect)
  {
    hide Active, IsCancelled;
  }

  lemma InspectTurn(s: System, max: nat)
    requires s.loop.Working? && s.loop.at == Inspect && s.loop.run in s.tables.runs
    ensures LoopNext(s, Good, max) == MoveTo(s, if IsCancelled(s.tables, s.loop.run) then Finish else Find)
  {
    hide Active, IsCancelled;
  }

  lemma FindTurn(s: System, max: nat)
    requires s.loop.Working? && s.loop.at == Find
    ensures LoopNext(s, Good, max) == MoveTo(s, if s.loop.run in s.instances then Finish else Create)
  {
    hide Active, IsCancelled;
  }

  lemma RecheckTurn(s: System, max: nat)
    requires s.loop.Working? && s.loop.at == Recheck && s.loop.run in s.tables.runs
    ensures LoopNext(s, Good, max) == MoveTo(s, if IsCancelled(s.tables, s.loop.run) then CancelCreated else Finish)
  {
    hide Active, IsCancelled;
  }

  lemma SendTurn(s: System, max: nat)
    requires s.loop.Working? && s.loop.at == Send
    ensures LoopNext(s, Good, max) == MoveTo(s, Finish)
  {
    hide Active, IsCancelled;
  }

  lemma CreateTurn(s: System, max: nat)
    requires s.loop.Working? && s.loop.at == Create
    ensures LoopNext(s, Good, max) == MoveTo(Made(s, s.loop.run), Recheck)
  {
    hide Active;
  }

  lemma LostTurn(s: System, max: nat)
    requires s.loop.Working? && s.loop.at == Create
    ensures LoopNext(s, Lost, max) == MoveTo(Made(s, s.loop.run), Finish)
  {
    hide Active;
  }

  lemma CancelTurn(s: System, max: nat)
    requires s.loop.Working? && s.loop.at == CancelCreated && s.loop.run in s.instances
    ensures LoopNext(s, Good, max) == MoveTo(Cancel(s, s.loop.run), Finish)
  {
    hide Active;
  }

  lemma OpenTurn(s: System, max: nat)
    requires s.loop.Working? && s.loop.at == Open && s.loop.id in s.tables.outbox
             && s.tables.outbox[s.loop.id].run == s.loop.run
    ensures LoopNext(s, Good, max) == MoveTo(RunOpened(s), if s.loop.run in s.tables.runs then Reload else Hush)
  {
    hide Active;
  }

  /** Completing a start whose Run is cancelled. */
  lemma HushTurn(s: System, max: nat)
    requires Safe(s, max) && s.loop.Working? && s.loop.at == Hush
    ensures s.loop.id in s.tables.outbox
    ensures var next := LoopNext(s, Good, max);
            if s.loop.run in s.tables.cancellations then
              next == Returned(s, CommandState.Completed) && next.loop == Resting && DispatchedNow(next, s.loop.id)
            else next == s.(loop := s.loop.(at := Enter)) && !IsCancelled(s.tables, s.loop.run)
  {
    hide Sound, SlowOk, StartsOk, MutexOk, Active, Look, EnsureRun;
    SafeSound(s, max);
    SoundPhase(s.tables, s.loop.run);
    LoopHolds(s, max);
  }
}
