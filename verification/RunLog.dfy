/** The event log of one Run and the phase it projects to. */
module RunLog {
  datatype Phase = Pending | Running | Waiting | Succeeded | Failed | Rejected | Cancelled

  /** Moved is a state transition, Evidence a plugin event recorded beside it, Stopped an operator's cancellation. */
  datatype What = Accepted | Moved(eventType: string, phase: Phase) | Evidence(eventType: string)
    | Stopped(reason: string)

  datatype Event = Event(sequence: nat, node: string, attempt: nat, what: What)

  datatype Log = Log(phase: Phase, events: seq<Event>)

  predicate Terminal(phase: Phase) {
    phase == Succeeded || phase == Failed || phase == Rejected || phase == Cancelled
  }

  /** The largest sequence stored, or zero for an empty log. */
  function MaxSequence(events: seq<Event>): nat {
    if events == [] then 0 else
      var rest := MaxSequence(events[..|events| - 1]);
      if events[|events| - 1].sequence > rest then events[|events| - 1].sequence else rest
  }

  function Opened(): Log {
    Log(Pending, [Event(1, "", 0, Accepted)])
  }

  /** A transition is dropped once the Run has ended. */
  function Appended(log: Log, node: string, attempt: nat, eventType: string, phase: Phase): Log {
    if Terminal(log.phase) then log
        else Log(phase, log.events + [Event(MaxSequence(log.events) + 1, node, attempt, Moved(eventType, phase))])
  }

  /** Evidence is recorded even after the Run has ended, and never moves the phase. */
  function WithEvidence(log: Log, node: string, attempt: nat, eventType: string): Log {
    Log(log.phase, log.events + [Event(MaxSequence(log.events) + 1, node, attempt, Evidence(eventType))])
  }

  function WithCancellation(log: Log, reason: string): Log {
    Log(Cancelled, log.events + [Event(MaxSequence(log.events) + 1, "", 0, Stopped(reason))])
  }

  // ---------------------------------------------------------------- what the log says

  /** The phase after an event. */
  function PhaseAfter(phase: Phase, what: What): Phase {
    match what
    case Accepted => Pending
    case Moved(_, next) => next
    case Evidence(_) => phase
    case Stopped(_) => Cancelled
  }

  function Replay(events: seq<Event>): Phase {
    if events == [] then Pending else PhaseAfter(Replay(events[..|events| - 1]), events[|events| - 1].what)
  }

  predicate EndsRun(what: What) {
    what.Stopped? || (what.Moved? && Terminal(what.phase))
  }

  ghost function Endings(events: seq<Event>): nat {
    if events == [] then 0 else Endings(events[..|events| - 1]) + if EndsRun(events[|events| - 1].what) then 1 else 0
  }

  ghost function Stops(events: seq<Event>): nat {
    if events == [] then 0 else Stops(events[..|events| - 1]) + if events[|events| - 1].what.Stopped? then 1 else 0
  }

  /**
   * The phase is the replay of the log, sequences are 1..n, there is one terminal event exactly when the phase is
   * terminal, and one cancellation event exactly when a cancellation is recorded, which is when the phase says so.
   */
  ghost predicate Projected(log: Log, cancelled: bool) {
    && log.events != [] && log.events[0].what == Accepted
    && (forall i :: 0 <= i < |log.events| ==> log.events[i].sequence == i + 1)
    && Replay(log.events) == log.phase
    && Endings(log.events) == (if Terminal(log.phase) then 1 else 0)
    && Stops(log.events) == (if cancelled then 1 else 0)
    && (cancelled <==> log.phase == Cancelled)
  }

  lemma {:induction false} SequencesCount(events: seq<Event>)
    requires forall i :: 0 <= i < |events| ==> events[i].sequence == i + 1
    ensures MaxSequence(events) == |events|
  {
    if events != [] {
      SequencesCount(events[..|events| - 1]);
    }
  }

  lemma OneMore(events: seq<Event>, event: Event)
    ensures var longer := events + [event];
            && Replay(longer) == PhaseAfter(Replay(events), event.what)
            && Endings(longer) == Endings(events) + (if EndsRun(event.what) then 1 else 0)
            && Stops(longer) == Stops(events) + if event.what.Stopped? then 1 else 0
  {
    assert (events + [event])[..|events|] == events;
  }

  lemma OpenedProjected()
    ensures Projected(Opened(), false)
  {
    OneMore([], Event(1, "", 0, Accepted));
    assert [] + [Event(1, "", 0, Accepted)] == [Event(1, "", 0, Accepted)];
  }

  /** Engine transitions keep the projection, provided only an operator cancels. */
  lemma AppendedProjected(log: Log, cancelled: bool, node: string, attempt: nat, eventType: string, phase: Phase)
    requires Projected(log, cancelled) && phase != Cancelled
    ensures Projected(Appended(log, node, attempt, eventType, phase), cancelled)
    ensures Terminal(log.phase) ==> Appended(log, node, attempt, eventType, phase) == log
  {
    SequencesCount(log.events);
    OneMore(log.events, Event(MaxSequence(log.events) + 1, node, attempt, Moved(eventType, phase)));
  }

  lemma EvidenceProjected(log: Log, cancelled: bool, node: string, attempt: nat, eventType: string)
    requires Projected(log, cancelled)
    ensures Projected(WithEvidence(log, node, attempt, eventType), cancelled)
    ensures WithEvidence(log, node, attempt, eventType).phase == log.phase
  {
    SequencesCount(log.events);
    OneMore(log.events, Event(MaxSequence(log.events) + 1, node, attempt, Evidence(eventType)));
  }

  lemma CancellationProjected(log: Log, reason: string)
    requires Projected(log, false) && !Terminal(log.phase)
    ensures Projected(WithCancellation(log, reason), true)
  {
    SequencesCount(log.events);
    OneMore(log.events, Event(MaxSequence(log.events) + 1, "", 0, Stopped(reason)));
  }
}
