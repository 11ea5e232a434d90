/** What a client shows of one Run, from its listings and its event stream, and when that is the server's phase. */
module RunView {
  import opened Compiler
  import opened RunLog

  const EVENT_LIMIT := 2000

  /** The phase a client reads off an event's type. */
  function PhaseFor(eventType: string): Option<Phase> {
    if eventType == "run.accepted" then Some(Pending)
    else if eventType in ["node.started", "node.completed", "node.failed", "node.skipped", "approval.approved",
        "event.received"] then Some(Running)
    else if eventType in ["approval.waiting", "event.waiting", "event.duplicate"] then Some(Waiting)
    else if eventType in ["approval.rejected", "run.rejected"] then Some(Rejected)
    else if eventType == "run.succeeded" then Some(Succeeded)
    else if eventType == "run.failed" then Some(Failed)
    else if eventType == "run.cancelled" then Some(Cancelled)
    else None
  }

  /** The type an event is sent under; that of evidence names the plugin. */
  function TypeOf(what: What): string {
    match what
    case Accepted => "run.accepted"
    case Moved(eventType, _) => eventType
    case Evidence(eventType) => "plugin." + eventType
    case Stopped(_) => "run.cancelled"
  }

  /** The transitions the engine writes, each with the phase it gives the Run. */
  predicate Spoken(what: What) {
    what.Moved? ==>
      || (what.eventType in ["node.started", "node.completed", "node.failed", "node.skipped", "approval.approved",
          "event.received"]
          && what.phase == Running)
      || (what.eventType == "approval.rejected" && what.phase == Running)
      || (what.eventType in ["approval.waiting", "event.waiting", "event.duplicate"] && what.phase == Waiting)
      || (what.eventType == "run.succeeded" && what.phase == Succeeded)
      || (what.eventType == "run.failed" && what.phase == Failed)
      || (what.eventType == "run.rejected" && what.phase == Rejected)
  }

  predicate IsRefusal(what: What) {
    what.Moved? && what.eventType == "approval.rejected"
  }

  /** Evidence carries no phase, and only the rejection of an approval is read differently than it is written. */
  lemma ReadsAsWritten(what: What, phase: Phase)
    requires Spoken(what)
    ensures what.Evidence? ==> PhaseFor(TypeOf(what)).None?
    ensures !what.Evidence? ==>
              PhaseFor(TypeOf(what)) == Some(if IsRefusal(what) then Rejected else PhaseAfter(phase, what))
  {
    hide PhaseFor;
    match what
    case Accepted => FixedTypes();
    case Stopped(_) => FixedTypes();
    case Evidence(eventType) => EvidenceUnread(eventType);
    case Moved(eventType, next) =>
      FixedTypes();
      if next == Running && eventType != "approval.rejected" {
        RunningRead(eventType);
      } else if next == Waiting {
        WaitingRead(eventType);
      }
  }

  lemma FixedTypes()
    ensures PhaseFor("run.accepted") == Some(Pending) && PhaseFor("run.cancelled") == Some(Cancelled)
    ensures PhaseFor("approval.rejected") == Some(Rejected) && PhaseFor("run.rejected") == Some(Rejected)
    ensures PhaseFor("run.succeeded") == Some(Succeeded) && PhaseFor("run.failed") == Some(Failed)
  {
  }

  lemma RunningRead(eventType: string)
    requires eventType in ["node.started", "node.completed", "node.failed", "node.skipped", "approval.approved",
                           "event.received"]
    ensures PhaseFor(eventType) == Some(Running)
  {
  }

  lemma WaitingRead(eventType: string)
    requires eventType in ["approval.waiting", "event.waiting", "event.duplicate"]
    ensures PhaseFor(eventType) == Some(Waiting)
  {
  }

  lemma EvidenceUnread(eventType: string)
    ensures PhaseFor("plugin." + eventType).None?
  {
    assert ("plugin." + eventType)[0] == 'p';
  }

  // ---------------------------------------------------------------- the client

  /**
   * The newest event applied, when the Run was last touched, the events kept, and whether the phase was read off an
   * event.
   */
  datatype View = View(phase: Phase, sequence: nat, stamp: nat, events: seq<Event>, fromEvent: bool)

  /** The summary a listing gives of a Run: its phase, and the event that touched it last. */
  datatype Summary = Summary(phase: Phase, stamp: nat)

  function LastOnes(events: seq<Event>): (kept: seq<Event>)
    ensures |kept| <= EVENT_LIMIT
  {
    if |events| > EVENT_LIMIT then events[|events| - EVENT_LIMIT..] else events
  }

  function Received(v: View, event: Event): View {
    if event.sequence <= v.sequence then v else
      var read := PhaseFor(TypeOf(event.what));
      View(if read.Some? then read.value else v.phase, event.sequence, event.sequence, LastOnes(v.events + [event]),
          read.Some? || v.fromEvent)
  }

  /** A listing is taken over unless the client has seen something later. */
  function Relisted(v: View, summary: Summary): View {
    if v.stamp > summary.stamp then v else v.(phase := summary.phase, stamp := summary.stamp, fromEvent := false)
  }

  class RunModel {
    var phase: Phase
    var sequence: nat
    var stamp: nat
    var events: seq<Event>
    ghost var fromEvent: bool

    constructor (summary: Summary)
      ensures Contents() == View(summary.phase, 0, summary.stamp, [], false)
    {
      phase, sequence, stamp, events, fromEvent := summary.phase, 0, summary.stamp, [], false;
    }

    ghost function Contents(): View
      reads this
    {
      View(phase, sequence, stamp, events, fromEvent)
    }

    method ApplyRunEvent(event: Event) returns (applied: bool)
      modifies this
      ensures Contents() == Received(old(Contents()), event)
      ensures applied <==> event.sequence > old(sequence)
    {
      if event.sequence <= sequence {
        return false;
      }
      sequence := event.sequence;
      events := events + [event];
      if |events| > EVENT_LIMIT {
        events := events[|events| - EVENT_LIMIT..];
      }
      var read := PhaseFor(TypeOf(event.what));
      if read.Some? {
        phase, fromEvent := read.value, true;
      }
      stamp := event.sequence;
      return true;
    }

    method ReplaceRun(summary: Summary)
      modifies this
      ensures Contents() == Relisted(old(Contents()), summary)
    {
      if stamp <= summary.stamp {
        phase, stamp, fromEvent := summary.phase, summary.stamp, false;
      }
    }
  }

  // ---------------------------------------------------------------- the server and the client together

  /** How many events there are up to the last transition. */
  function LastMove(events: seq<Event>): (n: nat)
    ensures n <= |events|
  {
    if events == [] then 0
    else if events[|events| - 1].what.Evidence? then LastMove(events[..|events| - 1])
    else |events|
  }

  /** How many events there are up to the last one that touched the Run; evidence of an ended Run does not. */
  function Touched(events: seq<Event>): (n: nat)
    ensures n <= |events|
  {
    if events == [] then 0
    else if events[|events| - 1].what.Evidence?
        && Terminal(Replay(events[..|events| - 1])) then Touched(events[..|events| - 1])
    else |events|
  }

  /** What a listing said when the log had its first n events. */
  function Summarised(events: seq<Event>): Summary {
    Summary(Replay(events), Touched(events))
  }

  datatype Live = Live(events: seq<Event>, view: View)

  /** The server logs; the stream hands over the next event or one from before; a listing of any age arrives. */
  datatype Step = Write(node: string, attempt: nat, what: What) | Arrive(position: nat) | List(age: nat)

  predicate Enabled(l: Live, step: Step) {
    match step
    case Write(_, _, what) => Spoken(what) && !what.Accepted? && (what.Evidence? || !Terminal(Replay(l.events)))
    case Arrive(position) => position <= l.view.sequence && position < |l.events|
    case List(age) => age <= |l.events|
  }

  function Next(l: Live, step: Step): Live
    requires Enabled(l, step)
  {
    match step
    case Write(node, attempt, what) => l.(events := l.events + [Event(|l.events| + 1, node, attempt, what)])
    case Arrive(position) => l.(view := Received(l.view, l.events[position]))
    case List(age) => l.(view := Relisted(l.view, Summarised(l.events[..age])))
  }

  /** The client first learns of the Run from a listing. */
  ghost predicate IsStart(l: Live) {
    && Written(l.events)
    && exists age :: 0 < age <= |l.events| && l.view ==
        View(Replay(l.events[..age]), 0, Touched(l.events[..age]), [], false)
  }

  ghost predicate IsRun(states: seq<Live>, steps: seq<Step>) {
    && |states| == |steps| + 1 && IsStart(states[0])
    && forall i :: 0 <= i < |steps| ==> Enabled(states[i], steps[i]) && states[i + 1] == Next(states[i], steps[i])
  }

  // ---------------------------------------------------------------- what every step keeps

  /** The last of these events that carries a phase is the rejection of an approval. */
  predicate EndsInRefusal(events: seq<Event>) {
    LastMove(events) > 0 && IsRefusal(events[LastMove(events) - 1].what)
  }

  /** The events a client reads off the phase `Rejected` where the server says `Running`. */
  function Reading(events: seq<Event>): Phase {
    if EndsInRefusal(events) then Rejected else Replay(events)
  }

  ghost predicate Written(events: seq<Event>) {
    && events != [] && events[0].what.Accepted?
    && forall i :: 0 <= i < |events| ==> events[i].sequence == i + 1 && Spoken(events[i].what)
  }

  /** The client's phase was read off the events it has applied, or comes from a listing after their last transition. */
  ghost predicate Sourced(events: seq<Event>, v: View)
    requires v.sequence <= |events|
  {
    if v.fromEvent then v.phase == Reading(events[..v.sequence]) else ListedSince(events, v)
  }

  ghost predicate ListedSince(events: seq<Event>, v: View)
    requires v.sequence <= |events|
  {
    exists n :: LastMove(events[..v.sequence]) <= n <= |events| && v.phase == Replay(events[..n])
  }

  ghost predicate Coherent(l: Live) {
    && Written(l.events) && l.view.sequence <= |l.events|
    && LastMove(l.events[..l.view.sequence]) <= l.view.stamp
    && l.view.events == LastOnes(l.events[..l.view.sequence])
    && Sourced(l.events, l.view)
  }

  lemma OneMoreMove(events: seq<Event>, event: Event)
    ensures LastMove(events + [event]) == if event.what.Evidence? then LastMove(events) else |events| + 1
    ensures EndsInRefusal(events + [event]) <==>
              if event.what.Evidence? then EndsInRefusal(events) else IsRefusal(event.what)
    ensures Replay(events + [event]) == PhaseAfter(Replay(events), event.what)
    ensures event.what.Evidence? ==> Reading(events + [event]) == Reading(events)
  {
    assert (events + [event])[..|events|] == events;
  }

  /** Evidence does not move the phase, so it is what it was at the last transition. */
  lemma {:induction false} ReplayAtMove(events: seq<Event>, n: nat)
    requires LastMove(events) <= n <= |events|
    ensures Replay(events[..n]) == Replay(events)
    ensures EndsInRefusal(events) && events[LastMove(events) - 1].what.phase == Running ==> Replay(events) == Running
  {
    if n == |events| {
      assert events[..n] == events;
    }
    if events != [] && events[|events| - 1].what.Evidence? {
      var init := events[..|events| - 1];
      if n < |events| {
        assert init[..n] == events[..n];
        ReplayAtMove(init, n);
      } else {
        ReplayAtMove(init, |init|);
      }
    }
  }

  lemma KeptMore(events: seq<Event>, event: Event)
    ensures LastOnes(LastOnes(events) + [event]) == LastOnes(events + [event])
  {
  }

  lemma LogCoherent(l: Live, step: Step)
    requires Coherent(l) && step.Write? && Enabled(l, step)
    ensures Coherent(Next(l, step))
  {
    hide Replay, LastMove, EndsInRefusal, Terminal;
    var after, seen := Next(l, step), l.view.sequence;
    assert after.events[..seen] == l.events[..seen];
    if !l.view.fromEvent {
      var n :| LastMove(l.events[..seen]) <= n <= |l.events| && l.view.phase == Replay(l.events[..n]);
      assert after.events[..n] == l.events[..n];
    }
  }

  lemma ArriveCoherent(l: Live, position: nat)
    requires Coherent(l) && Enabled(l, Arrive(position))
    ensures Coherent(Next(l, Arrive(position)))
  {
    hide Replay, LastMove, EndsInRefusal, PhaseFor, Spoken, LastOnes, IsRefusal;
    var seen := l.view.sequence;
    if position == seen {
      var event, before := l.events[seen], l.events[..seen];
      assert l.events[..seen + 1] == before + [event];
      OneMoreMove(before, event);
      ReadsAsWritten(event.what, Replay(before));
      KeptMore(before, event);
    }
  }

  lemma ListCoherent(l: Live, age: nat)
    requires Coherent(l) && Enabled(l, List(age))
    ensures Coherent(Next(l, List(age)))
  {
    hide Replay, LastMove, EndsInRefusal, Touched;
    var after, summary := Next(l, List(age)), Summarised(l.events[..age]);
    assert summary.stamp <= age;
    if l.view.stamp <= summary.stamp {
      assert LastMove(l.events[..l.view.sequence]) <= age && after.view.phase == Replay(l.events[..age]);
    }
  }

  lemma StartCoherent(l: Live)
    requires IsStart(l)
    ensures Coherent(l)
  {
    var age :| 0 < age <= |l.events| && l.view == View(Replay(l.events[..age]), 0, Touched(l.events[..age]), [], false);
    assert l.events[..0] == [];
    hide Replay;
    assert LastMove(l.events[..0]) <= age;
  }

  lemma {:induction false} AlwaysCoherent(states: seq<Live>, steps: seq<Step>, i: nat)
    requires IsRun(states, steps) && i <= |steps|
    ensures Coherent(states[i])
  {
    hide Coherent, Next, Enabled, IsStart;
    if i == 0 {
      StartCoherent(states[0]);
    } else {
      AlwaysCoherent(states, steps, i - 1);
      match steps[i - 1]
      case Write(_, _, _) => LogCoherent(states[i - 1], steps[i - 1]);
      case Arrive(position) => ArriveCoherent(states[i - 1], position);
      case List(age) => ListCoherent(states[i - 1], age);
    }
  }

  // ---------------------------------------------------------------- theorems over runs

  /**
   * Over every run, a client that has applied all events shows the server's phase, except exactly when the last
   * transition is the rejection of an approval and no listing has come since.
   */
  lemma ShownPhase(states: seq<Live>, steps: seq<Step>, i: nat)
    requires IsRun(states, steps) && i <= |steps| && states[i].view.sequence == |states[i].events|
    ensures var l := states[i]; l.view.phase == Replay(l.events) <==> !(l.view.fromEvent && EndsInRefusal(l.events))
  {
    hide IsStart, Enabled, Next, Replay, LastMove, LastOnes, Spoken;
    AlwaysCoherent(states, steps, i);
    var l := states[i];
    assert l.events[..|l.events|] == l.events;
    ReplayAtMove(l.events, |l.events|);
    RefusalRuns(l.events);
    if !l.view.fromEvent {
      var n :| LastMove(l.events) <= n <= |l.events| && l.view.phase == Replay(l.events[..n]);
      ReplayAtMove(l.events, n);
    }
  }

  /** The server writes a rejected approval as a transition to `Running`. */
  lemma RefusalRuns(events: seq<Event>)
    requires Written(events)
    ensures EndsInRefusal(events) ==> events[LastMove(events) - 1].what.phase == Running
  {
  }

  /** Once the Run has ended and all events have arrived, the client agrees with the server. */
  lemma EndedAgrees(states: seq<Live>, steps: seq<Step>, i: nat)
    requires IsRun(states, steps) && i <= |steps| && states[i].view.sequence == |states[i].events|
    requires Terminal(Replay(states[i].events))
    ensures states[i].view.phase == Replay(states[i].events)
  {
    hide IsStart, Enabled, Next, Replay, LastMove, LastOnes, Spoken, EndsInRefusal;
    AlwaysCoherent(states, steps, i);
    RefusalRuns(states[i].events);
    ShownPhase(states, steps, i);
    ReplayAtMove(states[i].events, |states[i].events|);
  }

  /** The client keeps the events it has applied: all of them up to two thousand, and then the last two thousand. */
  lemma KeepsLast(states: seq<Live>, steps: seq<Step>, i: nat)
    requires IsRun(states, steps) && i <= |steps|
    ensures states[i].view.sequence <= |states[i].events|
    ensures var v, kept := states[i].view, |states[i].view.events|;
            kept == (if v.sequence <= 2000 then v.sequence else 2000)
            && v.events == states[i].events[v.sequence - kept..v.sequence]
  {
    hide IsStart, Next, Enabled, Sourced, LastMove, Written;
    AlwaysCoherent(states, steps, i);
    assert EVENT_LIMIT == 2000;
  }

  /** The next event is always applied, and one seen before changes nothing. */
  lemma ArrivesOnce(l: Live, position: nat)
    requires Coherent(l) && Enabled(l, Arrive(position))
    ensures position < l.view.sequence ==> Next(l, Arrive(position)) == l
    ensures position == l.view.sequence ==> Next(l, Arrive(position)).view.sequence == position + 1
  {
    hide LastMove, PhaseFor, EndsInRefusal;
  }

  /** A view that was touched later than the server's summary says was touched by an event it has applied. */
  ghost predicate Stamped(l: Live) {
    l.view.stamp <= l.view.sequence || l.view.stamp <= Touched(l.events)
  }

  lemma {:induction false} TouchedGrows(events: seq<Event>, n: nat)
    requires n <= |events|
    ensures Touched(events[..n]) <= Touched(events)
  {
    if n < |events| {
      assert events[..|events| - 1][..n] == events[..n];
      TouchedGrows(events[..|events| - 1], n);
    } else {
      assert events[..n] == events;
    }
  }

  lemma {:induction false} AlwaysStamped(states: seq<Live>, steps: seq<Step>, i: nat)
    requires IsRun(states, steps) && i <= |steps|
    ensures Stamped(states[i])
  {
    hide Touched, LastOnes, PhaseFor, Replay, Spoken;
    if i == 0 {
      var l := states[0];
      var age :| 0 < age <= |l.events| && l.view.stamp == Touched(l.events[..age]);
      TouchedGrows(l.events, age);
    } else {
      AlwaysStamped(states, steps, i - 1);
      AlwaysCoherent(states, steps, i - 1);
      var l := states[i - 1];
      match steps[i - 1]
      case Write(_, _, _) =>
        assert states[i].events[..|l.events|] == l.events;
        TouchedGrows(states[i].events, |l.events|);
      case Arrive(_) =>
      case List(age) => TouchedGrows(l.events, age);
    }
  }

  /** Past the last event that touched the Run there is only evidence, and the Run has ended. */
  lemma {:induction false} UntouchedTail(events: seq<Event>)
    ensures LastMove(events) <= Touched(events)
    ensures Touched(events) < |events| ==> Terminal(Replay(events))
  {
    if events != [] && events[|events| - 1].what.Evidence? {
      UntouchedTail(events[..|events| - 1]);
    }
  }

  /**
   * Over every run, a listing of the log as it now is leaves the client with the server's phase, whether it is taken
   * over or not.
   */
  lemma ListingAgrees(states: seq<Live>, steps: seq<Step>, i: nat)
    requires IsRun(states, steps) && i <= |steps|
    ensures Next(states[i], List(|states[i].events|)).view.phase == Replay(states[i].events)
  {
    hide IsStart, Enabled, Replay, LastMove, Touched, EndsInRefusal, LastOnes, Spoken, Terminal;
    var l := states[i];
    AlwaysCoherent(states, steps, i);
    AlwaysStamped(states, steps, i);
    assert l.events[..|l.events|] == l.events;
    UntouchedTail(l.events);
    if l.view.stamp > Touched(l.events) {
      PastMoves(l);
    }
  }

  /** A client past the last transition of an ended Run shows its phase. */
  lemma PastMoves(l: Live)
    requires Coherent(l) && LastMove(l.events) <= l.view.sequence && Terminal(Replay(l.events))
    ensures l.view.phase == Replay(l.events)
  {
    hide LastOnes, Spoken, Replay, PhaseFor, LastMove, EndsInRefusal;
    var v := l.view;
    MoveSeen(l.events, v.sequence);
    RefusalRuns(l.events);
    ReplayAtMove(l.events, v.sequence);
    if !v.fromEvent {
      var n :| LastMove(l.events) <= n <= |l.events| && v.phase == Replay(l.events[..n]);
      ReplayAtMove(l.events, n);
    }
  }

  lemma {:induction false} MoveSeen(events: seq<Event>, n: nat)
    requires LastMove(events) <= n <= |events|
    ensures LastMove(events[..n]) == LastMove(events)
    ensures EndsInRefusal(events[..n]) == EndsInRefusal(events)
  {
    if n == |events| {
      assert events[..n] == events;
    } else {
      assert events[..|events| - 1][..n] == events[..n];
      MoveSeen(events[..|events| - 1], n);
    }
  }

  /** From any point at which an approval can be rejected, the client comes to show `Rejected` for a running Run. */
  lemma RefusalMisread(l: Live, node: string)
    requires Coherent(l) && l.view.sequence == |l.events| && !Terminal(Replay(l.events))
    ensures var refusal := Write(node, 1, Moved("approval.rejected", Running));
            Enabled(l, refusal) && Enabled(Next(l, refusal), Arrive(|l.events|))
    ensures var after := Next(Next(l, Write(node, 1, Moved("approval.rejected", Running))), Arrive(|l.events|));
            after.view.phase == Rejected && Replay(after.events) == Running && after.view.sequence == |after.events|
  {
    var event := Event(|l.events| + 1, node, 1, Moved("approval.rejected", Running));
    OneMoreMove(l.events, event);
    ReadsAsWritten(event.what, Running);
    hide Replay, LastMove, LastOnes, PhaseFor;
  }
}
