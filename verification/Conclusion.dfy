/** From the interpreter's outcome to the Run's log: which terminal event a Run gets, and that it gets one. */
module Conclusion {
  import opened Compiler
  import opened ComponentModel
  import opened Execution
  import opened Locality
  import opened Sequential
  import opened Independence
  import opened Interpreter
  import History
  import opened RunLog

  /** The phase an outcome is recorded as; an interrupted workflow records none. */
  function PhaseOf(outcome: History.Outcome): Phase
    requires !outcome.Interrupted?
  {
    match outcome
    case Succeeded => Phase.Succeeded
    case RunRejected => Phase.Rejected
    case RunFailed(_) => Phase.Failed
  }

  function EventOf(phase: Phase): string {
    match phase
    case Succeeded => "run.succeeded"
    case Rejected => "run.rejected"
    case _ => "run.failed"
  }

  /**
   * What is written to the log of a Run while it is interpreted: transitions of its nodes, evidence, an operator's
   * cancellation, and, at least once as activities are, the interpreter's own last word.
   */
  datatype Step =
    | Working(node: string, attempt: nat, eventType: string, phase: Phase)
    | Noting(node: string, attempt: nat, eventType: string)
    | Cancelling(reason: string)
    | Concluding(phase: Phase)

  predicate Proper(step: Step) {
    match step
    case Working(_, _, _, phase) => phase == Running || phase == Waiting
    case Concluding(phase) => phase == Phase.Succeeded || phase == Phase.Rejected || phase == Phase.Failed
    case _ => true
  }

  function Next(log: Log, step: Step): Log {
    match step
    case Working(node, attempt, eventType, phase) => Appended(log, node, attempt, eventType, phase)
    case Noting(node, attempt, eventType) => WithEvidence(log, node, attempt, eventType)
    case Cancelling(reason) => if Terminal(log.phase) then log else WithCancellation(log, reason)
    case Concluding(phase) => Appended(log, "", 0, EventOf(phase), phase)
  }

  ghost function After(log: Log, steps: seq<Step>): Log {
    if steps == [] then log else Next(After(log, steps[..|steps| - 1]), steps[|steps| - 1])
  }

  ghost predicate AllProper(steps: seq<Step>) {
    forall i :: 0 <= i < |steps| ==> Proper(steps[i])
  }

  /** What the first step that can end the Run writes. */
  ghost function LastWord(steps: seq<Step>): Option<What> {
    if steps == [] then None else
      var before, last := LastWord(steps[..|steps| - 1]), steps[|steps| - 1];
      if before.Some? then before
      else match last
        case Cancelling(reason) => Some(Stopped(reason))
        case Concluding(phase) => Some(Moved(EventOf(phase), phase))
        case _ => None
  }

  /** `what` is the one event that ends the Run. */
  ghost predicate OnlyEnd(events: seq<Event>, what: What) {
    exists k :: 0 <= k < |events| && events[k].what == what && EndsRun(what)
                && forall j :: 0 <= j < |events| && j != k ==> !EndsRun(events[j].what)
  }

  ghost predicate NoEnd(events: seq<Event>) {
    forall j :: 0 <= j < |events| ==> !EndsRun(events[j].what)
  }

  lemma OneMoreStep(log: Log, steps: seq<Step>, step: Step)
    ensures After(log, steps + [step]) == Next(After(log, steps), step)
    ensures AllProper(steps) && Proper(step) ==> AllProper(steps + [step])
  {
    assert (steps + [step])[..|steps|] == steps;
  }

  lemma NextProjected(log: Log, step: Step)
    requires Projected(log, log.phase == Phase.Cancelled) && Proper(step)
    ensures Projected(Next(log, step), Next(log, step).phase == Phase.Cancelled)
  {
    hide Projected, Appended, WithEvidence, WithCancellation;
    match step
    case Working(node, attempt, eventType, phase) =>
      AppendedProjected(log, log.phase == Phase.Cancelled, node, attempt, eventType, phase);
      AppendedMoves(log, node, attempt, eventType, phase);
    case Noting(node, attempt, eventType) =>
      EvidenceProjected(log, log.phase == Phase.Cancelled, node, attempt, eventType);
    case Cancelling(reason) =>
      if !Terminal(log.phase) {
        CancellationProjected(log, reason);
        CancellationMoves(log, reason);
      }
    case Concluding(phase) =>
      AppendedProjected(log, log.phase == Phase.Cancelled, "", 0, EventOf(phase), phase);
      AppendedMoves(log, "", 0, EventOf(phase), phase);
  }

  lemma AppendedMoves(log: Log, node: string, attempt: nat, eventType: string, phase: Phase)
    ensures Appended(log, node, attempt, eventType, phase).phase == if Terminal(log.phase) then log.phase else phase
    ensures Terminal(log.phase) ==> Appended(log, node, attempt, eventType, phase) == log
    ensures !Terminal(log.phase) ==>
              exists event :: Appended(log, node, attempt, eventType, phase).events == log.events + [event]
                              && event.what == Moved(eventType, phase)
  {
    var event := Event(MaxSequence(log.events) + 1, node, attempt, Moved(eventType, phase));
    assert !Terminal(log.phase) ==> Appended(log, node, attempt, eventType, phase).events == log.events + [event];
  }

  lemma CancellationMoves(log: Log, reason: string)
    ensures WithCancellation(log, reason).phase == Phase.Cancelled
    ensures exists event ::
              WithCancellation(log, reason).events == log.events + [event] && event.what == Stopped(reason)
  {
    var event := Event(MaxSequence(log.events) + 1, "", 0, Stopped(reason));
    assert WithCancellation(log, reason).events == log.events + [event];
  }

  lemma EvidenceMoves(log: Log, node: string, attempt: nat, eventType: string)
    ensures WithEvidence(log, node, attempt, eventType).phase == log.phase
    ensures exists event :: WithEvidence(log, node, attempt, eventType).events == log.events + [event]
                            && event.what == Evidence(eventType)
  {
    var event := Event(MaxSequence(log.events) + 1, node, attempt, Evidence(eventType));
    assert WithEvidence(log, node, attempt, eventType).events == log.events + [event];
  }

  lemma EndMore(events: seq<Event>, event: Event)
    ensures NoEnd(events) && !EndsRun(event.what) ==> NoEnd(events + [event])
    ensures NoEnd(events) && EndsRun(event.what) ==> OnlyEnd(events + [event], event.what)
    ensures forall what :: OnlyEnd(events, what) && !EndsRun(event.what) ==> OnlyEnd(events + [event], what)
  {
    var longer := events + [event];
    assert longer[|events|] == event;
    forall what | OnlyEnd(events, what) && !EndsRun(event.what) ensures OnlyEnd(longer, what) {
      var k :| 0 <= k < |events| && events[k].what == what && EndsRun(what)
               && forall j :: 0 <= j < |events| && j != k ==> !EndsRun(events[j].what);
      assert longer[k] == events[k];
    }
  }

  /** Where a log stands when `word` is the first thing to have ended the Run. */
  ghost predicate Stands(log: Log, word: Option<What>) {
    match word
    case None => !Terminal(log.phase) && NoEnd(log.events)
    case Some(what) => Terminal(log.phase) && log.phase == PhaseAfter(Running, what) && OnlyEnd(log.events, what)
  }

  function WordOf(step: Step): Option<What> {
    match step
    case Cancelling(reason) => Some(Stopped(reason))
    case Concluding(phase) => Some(Moved(EventOf(phase), phase))
    case _ => None
  }

  lemma StandsNext(log: Log, step: Step, word: Option<What>)
    requires Stands(log, word) && Proper(step)
    ensures Stands(Next(log, step), if word.Some? then word else WordOf(step))
  {
    hide Appended, WithEvidence, WithCancellation, NoEnd, OnlyEnd;
    match step
    case Working(node, attempt, eventType, phase) =>
      AppendedMoves(log, node, attempt, eventType, phase);
      EndAppended(log.events, Next(log, step).events);
    case Noting(node, attempt, eventType) =>
      EvidenceMoves(log, node, attempt, eventType);
      EndAppended(log.events, Next(log, step).events);
    case Cancelling(reason) =>
      CancellationMoves(log, reason);
      EndAppended(log.events, Next(log, step).events);
    case Concluding(phase) =>
      AppendedMoves(log, "", 0, EventOf(phase), phase);
      EndAppended(log.events, Next(log, step).events);
  }

  lemma EndAppended(events: seq<Event>, longer: seq<Event>)
    ensures forall event :: longer == events + [event] ==>
              && (NoEnd(events) && !EndsRun(event.what) ==> NoEnd(longer))
              && (NoEnd(events) && EndsRun(event.what) ==> OnlyEnd(longer, event.what))
              && (forall what :: OnlyEnd(events, what) && !EndsRun(event.what) ==> OnlyEnd(longer, what))
  {
    hide NoEnd, OnlyEnd;
    forall event | longer == events + [event]
      ensures NoEnd(events) && !EndsRun(event.what) ==> NoEnd(longer)
      ensures NoEnd(events) && EndsRun(event.what) ==> OnlyEnd(longer, event.what)
      ensures forall what :: OnlyEnd(events, what) && !EndsRun(event.what) ==> OnlyEnd(longer, what)
    {
      EndMore(events, event);
    }
  }

  /**
   * Whatever nodes, plugins, an operator and the interpreter write in whatever order, and however often the last word
   * is repeated: the Run is live until the first cancellation or last word, whichever comes first; that one is the one
   * terminal event its log ever gets; and the Run is in the phase it says.
   */
  lemma {:induction false} FirstWordEnds(log: Log, steps: seq<Step>)
    requires Projected(log, false) && !Terminal(log.phase) && AllProper(steps)
    ensures var after := After(log, steps);
            Projected(after, after.phase == Phase.Cancelled) && Stands(after, LastWord(steps))
  {
    hide Projected, Stands, Next, Proper;
    if steps == [] {
      LiveStands(log);
    } else {
      FirstWordEnds(log, steps[..|steps| - 1]);
      NextProjected(After(log, steps[..|steps| - 1]), steps[|steps| - 1]);
      StandsNext(After(log, steps[..|steps| - 1]), steps[|steps| - 1], LastWord(steps[..|steps| - 1]));
    }
  }

  lemma LiveStands(log: Log)
    requires Projected(log, false) && !Terminal(log.phase)
    ensures Stands(log, None) && log.phase != Phase.Cancelled
  {
    NoEndings(log.events);
  }

  lemma {:induction false} NoEndings(events: seq<Event>)
    requires Endings(events) == 0
    ensures NoEnd(events)
  {
    if events != [] {
      NoEndings(events[..|events| - 1]);
    }
  }

  /** The interpreter says one thing only. */
  ghost predicate Says(steps: seq<Step>, outcome: History.Outcome) {
    forall i :: 0 <= i < |steps| && steps[i].Concluding? ==> !outcome.Interrupted? && steps[i].phase == PhaseOf(outcome)
  }

  ghost predicate Said(steps: seq<Step>) {
    exists i :: 0 <= i < |steps| && steps[i].Concluding?
  }

  ghost predicate Cancels(steps: seq<Step>) {
    exists i :: 0 <= i < |steps| && steps[i].Cancelling?
  }

  lemma {:induction false} WordFacts(steps: seq<Step>, outcome: History.Outcome)
    requires Says(steps, outcome)
    ensures var word := LastWord(steps);
            && (word.Some? <==> Said(steps) || Cancels(steps))
            && (word.Some? && word.value.Stopped? ==> Cancels(steps))
            && (word.Some? && !word.value.Stopped? ==>
                  !outcome.Interrupted? && word.value == Moved(EventOf(PhaseOf(outcome)), PhaseOf(outcome)))
  {
    hide EventOf, PhaseOf;
    if steps != [] {
      var before, last := steps[..|steps| - 1], steps[|steps| - 1];
      assert forall i :: 0 <= i < |before| ==> before[i] == steps[i];
      WordFacts(before, outcome);
      assert Said(steps) <==> Said(before) || last.Concluding? by {
        if last.Concluding? {
          assert steps[|before|].Concluding?;
        }
        if Said(before) {
          var i :| 0 <= i < |before| && before[i].Concluding?;
          assert steps[i].Concluding?;
        }
      }
      assert Cancels(steps) <==> Cancels(before) || last.Cancelling? by {
        if last.Cancelling? {
          assert steps[|before|].Cancelling?;
        }
        if Cancels(before) {
          var i :| 0 <= i < |before| && before[i].Cancelling?;
          assert steps[i].Cancelling?;
        }
      }
    }
  }

  // ---------------------------------------------------------------- the workflow and the log together

  class Recorder {
    var log: Log

    constructor ()
      ensures log == Opened()
    {
      log := Opened();
    }

    /** Nodes, plugins and an operator write, any number of times. */
    method Others(quiet: bool, ghost start: Log, ghost steps0: seq<Step>) returns (ghost steps: seq<Step>)
      requires log == After(start, steps0) && AllProper(steps0)
      modifies this
      ensures log == After(start, steps) && AllProper(steps) && steps0 <= steps
      ensures forall i :: |steps0| <= i < |steps| ==> !steps[i].Concluding?
      ensures quiet ==> steps == steps0
    {
      hide After, AllProper, Appended, WithEvidence, WithCancellation;
      steps := steps0;
      var left: nat := *;
      while left > 0 && !quiet
        invariant log == After(start, steps) && AllProper(steps) && steps0 <= steps && (quiet ==> steps == steps0)
        invariant forall i :: |steps0| <= i < |steps| ==> !steps[i].Concluding?
      {
        var step: Step := *;
        if Proper(step) && !step.Concluding? {
          OneMoreStep(start, steps, step);
          log := Next(log, step);
          steps := steps + [step];
        }
        left := left - 1;
      }
    }

    /** An activity of the interpreter that records its last word. */
    method Record(phase: Phase)
      modifies this
      ensures log == Next(old(log), Concluding(phase))
    {
      log := Appended(log, "", 0, EventOf(phase), phase);
    }

    /**
     * A Run from its first event to its last. While the plan is interpreted the Run's log is written by others; then
     * the outcome is recorded, as often as the activity is delivered. A workflow is cancelled only after the operator's
     * request is on record. If it is `quiet`, nobody else writes to the log, and the outcome is recorded at least once.
     */
    method InterpretRun(plan: Plan, world: World, cancelledAfter: Option<nat>, quiet: bool)
      returns (outcome: History.Outcome, state: RunState, model: Option<Model>, ghost steps: seq<Step>)
      requires ValidPartition(plan) && Projected(log, false) && !Terminal(log.phase)
      modifies this
      ensures log == After(old(log), steps) && AllProper(steps) && Says(steps, outcome)
      ensures Projected(log, log.phase == Phase.Cancelled) && Stands(log, LastWord(steps))
      ensures Terminal(log.phase) <==> Said(steps) || Cancels(steps)
      ensures outcome.Interrupted? ==> log.phase == Phase.Cancelled
      ensures Said(steps) && !Cancels(steps) ==> Terminal(log.phase) && log.phase != Phase.Cancelled
      ensures Terminal(log.phase) && log.phase != Phase.Cancelled ==> EndsAs(log, outcome)
      ensures quiet && !outcome.Interrupted? ==> EndsAs(log, outcome)
      ensures Compiled(plan) ==> model.Some?
      ensures model.Some? ==> IsModelOf(plan, model.value)
      ensures model.Some? && ReadsAncestors(plan, world) && Terminal(log.phase) && log.phase != Phase.Cancelled ==>
                (log.phase == Phase.Succeeded <==> AllOk(SequentialRun(plan, model.value, world).results))
    {
      hide After, AllProper, Projected, Stands, Says, Said, Cancels, Compiled, IsModelOf, ReadsAncestors, SequentialRun,
           AllOk, LastWord, Appended, WithEvidence, WithCancellation;
      NoSteps(log);
      steps := Others(quiet, log, []);
      ghost var history;
      outcome, state, model, history := InterpreterWorkflow(plan, world, cancelledAfter);
      SaysNothing(steps, outcome);
      if outcome.Interrupted? {
        var reason: string := *;
        SaysMore(steps, [Cancelling(reason)], outcome);
        OneMoreStep(old(log), steps, Cancelling(reason));
        log := Next(log, Cancelling(reason));
        ghost var cancelled := steps + [Cancelling(reason)];
        steps := Others(quiet, old(log), cancelled);
        CancelsLast(cancelled, steps);
        SaysMore(cancelled, steps[|cancelled|..], outcome);
        assert steps == cancelled + steps[|cancelled|..];
      } else {
        var deliveries: nat := *;
        if quiet && deliveries <= 0 {
          deliveries := 1;
        }
        while deliveries > 0
          invariant log == After(old(log), steps) && AllProper(steps) && Says(steps, outcome)
          invariant quiet ==> !Cancels(steps) && (deliveries <= 0 ==> Said(steps))
        {
          steps := Speak(outcome, quiet, old(log), steps);
          deliveries := deliveries - 1;
        }
        if model.Some? && ReadsAncestors(plan, world) {
          DecidedBy(plan, model.value, world, history, outcome, state, cancelledAfter);
        }
      }
      FirstWordEnds(old(log), steps);
      WordFacts(steps, outcome);
      StandsSays(log, steps, outcome);
      if Terminal(log.phase) && log.phase != Phase.Cancelled {
        StandsEnds(log, steps, outcome);
      }
    }

    /** The last word is recorded once more, and then others write. */
    method Speak(outcome: History.Outcome, quiet: bool, ghost start: Log, ghost steps0: seq<Step>)
      returns (ghost steps: seq<Step>)
      requires log == After(start, steps0) && AllProper(steps0) && Says(steps0, outcome) && !outcome.Interrupted?
      modifies this
      ensures log == After(start, steps) && AllProper(steps) && Says(steps, outcome) && Said(steps)
      ensures quiet && !Cancels(steps0) ==> !Cancels(steps)
    {
      hide After, AllProper, Says, Next;
      ghost var word := Concluding(PhaseOf(outcome));
      OneMoreStep(start, steps0, word);
      Record(PhaseOf(outcome));
      steps := Others(quiet, start, steps0 + [word]);
      SaysMore(steps0, steps[|steps0|..], outcome);
      assert steps == steps0 + steps[|steps0|..] && steps[|steps0|] == (steps0 + [word])[|steps0|];
    }
  }

  /** The phase and the one terminal event of a Run that ended with this outcome. */
  ghost predicate EndsAs(log: Log, outcome: History.Outcome) {
    && (outcome.Succeeded? ==>
          log.phase == Phase.Succeeded && OnlyEnd(log.events, Moved("run.succeeded", Phase.Succeeded)))
    && (outcome.RunRejected? ==>
          log.phase == Phase.Rejected && OnlyEnd(log.events, Moved("run.rejected", Phase.Rejected)))
    && (outcome.RunFailed? ==> log.phase == Phase.Failed && OnlyEnd(log.events, Moved("run.failed", Phase.Failed)))
    && !outcome.Interrupted?
  }

  lemma StandsEnds(log: Log, steps: seq<Step>, outcome: History.Outcome)
    requires Says(steps, outcome) && Stands(log, LastWord(steps))
    requires Terminal(log.phase) && log.phase != Phase.Cancelled
    ensures EndsAs(log, outcome)
  {
    hide LastWord, OnlyEnd, NoEnd, Said, Cancels, Says;
    WordFacts(steps, outcome);
  }

  lemma NoSteps(log: Log)
    ensures After(log, []) == log && AllProper([]) && !Cancels([])
  {
  }

  lemma SaysNothing(steps: seq<Step>, outcome: History.Outcome)
    requires forall i :: 0 <= i < |steps| ==> !steps[i].Concluding?
    ensures Says(steps, outcome)
  {
  }

  lemma SaysMore(steps: seq<Step>, more: seq<Step>, outcome: History.Outcome)
    requires Says(steps, outcome)
    requires forall i :: 0 <= i < |more| && more[i].Concluding? ==>
               !outcome.Interrupted? && more[i].phase == PhaseOf(outcome)
    ensures Says(steps + more, outcome)
  {
  }

  lemma CancelsLast(steps: seq<Step>, more: seq<Step>)
    requires steps != [] && steps[|steps| - 1].Cancelling? && steps <= more
    ensures Cancels(more)
  {
    assert more[|steps| - 1].Cancelling?;
  }

  lemma StandsSays(log: Log, steps: seq<Step>, outcome: History.Outcome)
    requires Says(steps, outcome) && Stands(log, LastWord(steps))
    ensures Terminal(log.phase) <==> Said(steps) || Cancels(steps)
    ensures outcome.Interrupted? && Cancels(steps) ==> log.phase == Phase.Cancelled
    ensures Said(steps) && !Cancels(steps) ==> !outcome.Interrupted? && log.phase == PhaseOf(outcome)
    ensures Terminal(log.phase) && log.phase != Phase.Cancelled ==>
              !outcome.Interrupted? && log.phase == PhaseOf(outcome)
  {
    hide LastWord, NoEnd, OnlyEnd, Said, Cancels, Says;
    WordFacts(steps, outcome);
  }

  lemma DecidedBy(plan: Plan, m: Model, world: World, history: seq<History.Event>, outcome: History.Outcome,
                  state: RunState, cancelledAfter: Option<nat>)
    requires Ended(plan, m, world, history, outcome, state, cancelledAfter) && !outcome.Interrupted?
    requires ReadsAncestors(plan, world)
    ensures outcome.Succeeded? <==> AllOk(SequentialRun(plan, m, world).results)
  {
    hide ReadsAncestors, SequentialRun, AllOk, NoRejection;
  }
}
