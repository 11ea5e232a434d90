/** What a rejected Run can still become: the components running when the rejection arrives decide. */
module Rejection {
  import opened Graphs
  import opened Ordering
  import opened Tarjan
  import opened Compiler
  import opened Kahn
  import opened ComponentModel
  import opened Execution
  import opened ExecutionFacts
  import opened Sequential
  import opened History

  /** The first error among the completions in the buffer. */
  ghost function Buffered(sent: seq<nat>, flight: map<nat, ComponentResult>): string {
    if sent == [] then ""
    else if sent[0] in flight && flight[sent[0]].error != "" then flight[sent[0]].error
    else Buffered(sent[1..], flight)
  }

  /** The first error received, or else the first that will be. */
  ghost function Coming(log: seq<Event>, play: Play): string {
    if FirstError(log) != "" then FirstError(log) else Buffered(play.sent, play.flight)
  }

  /** The components in flight that have not sent their completion. */
  ghost function Running(play: Play): set<nat> {
    play.flight.Keys - Elements(play.sent)
  }

  /** The buffer holds completions of components in flight, each once. */
  ghost predicate Lined(play: Play) {
    NoDuplicates(play.sent) && forall c :: c in play.sent ==> c in play.flight
  }

  lemma {:induction false} BufferedSame(sent: seq<nat>, one: map<nat, ComponentResult>, two: map<nat, ComponentResult>)
    requires forall c :: c in sent ==> c in one && c in two && one[c] == two[c]
    ensures Buffered(sent, one) == Buffered(sent, two)
  {
    if sent != [] {
      BufferedSame(sent[1..], one, two);
    }
  }

  lemma {:induction false} BufferedMore(sent: seq<nat>, flight: map<nat, ComponentResult>, c: nat)
    requires c in flight
    ensures Buffered(sent + [c], flight) == if Buffered(sent, flight) != "" then Buffered(sent, flight)
            else flight[c].error
  {
    var longer := sent + [c];
    if sent == [] {
      assert longer[1..] == [] && longer[0] == c;
    } else {
      assert longer[0] == sent[0] && longer[1..] == sent[1..] + [c];
      BufferedMore(sent[1..], flight, c);
    }
  }

  lemma LinedStep(plan: Plan, m: Model, world: World, play: Play, event: Event)
    requires Lined(play) && Permitted(plan, m, play, event)
    ensures Lined(Played(plan, m, world, play, event))
  {
    hide Due, Merged, Ok, FirstReady;
    if event.Finished? {
      HeadDistinct(play.sent);
    }
  }

  lemma {:induction false} HistoryLined(plan: Plan, m: Model, world: World, log: seq<Event>)
    requires IsHistory(plan, m, world, log)
    ensures Lined(Playback(plan, m, world, log))
  {
    hide Lined, Permitted, Played;
    if log == [] {
      NothingLined();
    } else {
      HistoryLined(plan, m, world, log[..|log| - 1]);
      LinedStep(plan, m, world, Playback(plan, m, world, log[..|log| - 1]), log[|log| - 1]);
    }
  }

  lemma NothingLined()
    ensures Lined(OPENING)
  {
  }

  /** A completion that is sent may carry the first error to come. */
  lemma ComingSend(plan: Plan, m: Model, world: World, log: seq<Event>, play: Play, c: nat, r: ComponentResult)
    requires Lined(play) && Permitted(plan, m, play, Sent(c, r))
    ensures var next := Played(plan, m, world, play, Sent(c, r));
            && Coming(log + [Sent(c, r)], next) == (if Coming(log, play) == "" then r.error else Coming(log, play))
            && Running(next) == Running(play) - {c} && c in Running(play)
  {
    hide FirstError, NoDuplicates, Played, Buffered;
    OneMoreJudged(log, Sent(c, r));
    PlayedSend(plan, m, world, play, c, r);
    var next := Played(plan, m, world, play, Sent(c, r));
    BufferedSame(play.sent, play.flight, next.flight);
    BufferedMore(play.sent, next.flight, c);
    assert Elements(next.sent) == Elements(play.sent) + {c};
  }

  /** Taking the first completion out of the buffer. */
  lemma TakeFirst(sent: seq<nat>, flight: map<nat, ComponentResult>)
    requires NoDuplicates(sent) && sent != [] && forall c :: c in sent ==> c in flight
    requires sent[0] in flight
    ensures Buffered(sent, flight) ==
              if flight[sent[0]].error != "" then flight[sent[0]].error
              else Buffered(sent[1..], flight - {sent[0]})
    ensures (flight - {sent[0]}).Keys - Elements(sent[1..]) == flight.Keys - Elements(sent)
  {
    HeadDistinct(sent);
    hide NoDuplicates;
    TakeOne(flight, sent[0]);
    assert Elements(sent) == Elements(sent[1..]) + {sent[0]};
    BufferedSame(sent[1..], flight, flight - {sent[0]});
  }

  /** Receiving a completion takes its error from the buffer to the log. */
  lemma ComingReceive(plan: Plan, m: Model, world: World, log: seq<Event>, play: Play, c: nat, r: ComponentResult)
    requires Lined(play) && Permitted(plan, m, play, Finished(c, r))
    ensures var next := Played(plan, m, world, play, Finished(c, r));
            Coming(log + [Finished(c, r)], next) == Coming(log, play) && Running(next) == Running(play)
  {
    hide FirstError, NoDuplicates, Merged, Ok, Buffered, Elements;
    OneMoreJudged(log, Finished(c, r));
    TakeFirst(play.sent, play.flight);
  }

  lemma ComingStep(plan: Plan, m: Model, world: World, log: seq<Event>, play: Play, event: Event)
    requires Lined(play) && play.stopped && Permitted(plan, m, play, event)
    ensures var next := Played(plan, m, world, play, event);
            && Coming(log + [event], next) ==
                 (if event.Sent? && Coming(log, play) == "" then event.result.error else Coming(log, play))
            && Running(next) == if event.Sent? then Running(play) - {event.index} else Running(play)
    ensures event.Sent? ==> event.index in Running(play)
  {
    hide Coming, Running, Lined, Played, FirstReady;
    match event
    case Sent(c, r) => ComingSend(plan, m, world, log, play, c, r);
    case Finished(c, r) => ComingReceive(plan, m, world, log, play, c, r);
  }

  /** An error that is coming stays the first, and with nobody running none can come any more. */
  lemma {:induction false} ComingDecides(plan: Plan, m: Model, world: World, log: seq<Event>, rest: seq<Event>)
    requires IsHistory(plan, m, world, log + rest) && Playback(plan, m, world, log).stopped
    ensures Playback(plan, m, world, log + rest).stopped && IsHistory(plan, m, world, log)
    ensures var play, later := Playback(plan, m, world, log), Playback(plan, m, world, log + rest);
            && (Coming(log, play) != "" ==> Coming(log + rest, later) == Coming(log, play))
            && (Running(play) == {} ==> Running(later) == {} && Coming(log + rest, later) == Coming(log, play))
    decreases |rest|
  {
    hide Coming, Running, Playback, IsHistory, Permitted, Lined;
    if rest == [] {
      assert log + rest == log;
    } else {
      var before, last := rest[..|rest| - 1], rest[|rest| - 1];
      assert log + rest == (log + before) + [last];
      OneMoreEvent(plan, m, world, log + before, last);
      ComingDecides(plan, m, world, log, before);
      var play := Playback(plan, m, world, log + before);
      HistoryLined(plan, m, world, log + before);
      ComingStep(plan, m, world, log + before, play, last);
      StoppedStays(plan, m, world, play, last);
    }
  }

  /** What is coming has come when nothing is in flight. */
  lemma OverHasCome(m: Model, log: seq<Event>, play: Play)
    requires Lined(play) && IsOver(m, play)
    ensures Coming(log, play) == FirstError(log)
  {
    hide FirstError, NoDuplicates;
    assert forall i :: 0 <= i < |play.sent| ==> play.sent[i] in play.flight;
  }

  /** From a point where admission has stopped, the buffer is received and whoever is still running sends r. */
  lemma {:induction false} DrainWith(plan: Plan, m: Model, world: World, log: seq<Event>, r: ComponentResult)
    returns (rest: seq<Event>)
    requires IsHistory(plan, m, world, log) && Playback(plan, m, world, log).stopped
    ensures IsHistory(plan, m, world, log + rest) && IsOver(m, Playback(plan, m, world, log + rest))
    ensures SomeRejected(log) ==> SomeRejected(log + rest)
    ensures var play := Playback(plan, m, world, log);
            FirstError(log + rest) ==
              if Coming(log, play) != "" then Coming(log, play) else if Running(play) != {} then r.error else ""
    decreases |Playback(plan, m, world, log).flight|, |Running(Playback(plan, m, world, log))|
  {
    hide FirstError, SomeRejected, Playback, IsHistory, Coming, Lined, Elements;
    var play := Playback(plan, m, world, log);
    HistoryLined(plan, m, world, log);
    if play.flight == map[] {
      rest := [];
      assert log + rest == log;
      OverHasCome(m, log, play);
    } else {
      var event := NextSendOrReceive(plan, m, play, r);
      OneMoreEvent(plan, m, world, log, event);
      OneMoreJudged(log, event);
      StoppedStays(plan, m, world, play, event);
      ComingStep(plan, m, world, log, play, event);
      FewerLeft(plan, m, world, play, event);
      var more := DrainWith(plan, m, world, log + [event], r);
      rest := [event] + more;
      assert log + rest == log + [event] + more;
    }
  }

  lemma NextSendOrReceive(plan: Plan, m: Model, play: Play, r: ComponentResult) returns (event: Event)
    requires Lined(play) && play.stopped && play.flight != map[]
    ensures Permitted(plan, m, play, event) && !event.Started?
    ensures event.Sent? ==> event.result == r && play.sent == []
  {
    hide NoDuplicates;
    if play.sent != [] {
      assert play.sent[0] in play.sent;
      event := Finished(play.sent[0], play.flight[play.sent[0]]);
    } else {
      var c :| c in play.flight;
      event := Sent(c, r);
    }
  }

  lemma FewerLeft(plan: Plan, m: Model, world: World, play: Play, event: Event)
    requires Lined(play) && Permitted(plan, m, play, event) && !event.Started?
    ensures var next := Played(plan, m, world, play, event);
            if event.Sent? then |next.flight| == |play.flight| && |Running(next)| < |Running(play)|
            else |next.flight| < |play.flight|
  {
    hide Merged, Ok, NoDuplicates;
    match event
    case Sent(c, r) =>
      PlayedSend(plan, m, world, play, c, r);
      var next := Played(plan, m, world, play, event);
      assert Elements(next.sent) == Elements(play.sent) + {c};
      assert Running(next) == Running(play) - {c};
    case Finished(c, r) => TakeOne(play.flight, c);
  }

  /** A history that goes on from `log` and ends. */
  ghost predicate EndsAs(plan: Plan, m: Model, world: World, log: seq<Event>, rest: seq<Event>, outcome: Outcome) {
    && IsHistory(plan, m, world, log + rest) && IsOver(m, Playback(plan, m, world, log + rest))
    && Judge(log + rest) == outcome
  }

  /**
   * At a point where a rejection has stopped admission and no error was received, what the Run can still end as is
   * fixed by the buffer and by who is running. It can end as rejected exactly if no completion in the buffer carries
   * an error. It can end as failed with some text exactly if that is the first error in the buffer, or, when there is
   * none, if some component is still running: cancelled, it may end with any error, and the error is what is reported.
   */
  lemma RejectionMayFail(plan: Plan, m: Model, world: World, log: seq<Event>, error: string)
    requires IsHistory(plan, m, world, log) && SomeRejected(log) && FirstError(log) == "" && error != ""
    requires Playback(plan, m, world, log).stopped
    ensures var play := Playback(plan, m, world, log);
            (exists rest :: EndsAs(plan, m, world, log, rest, RunRejected)) <==> Buffered(play.sent, play.flight) == ""
    ensures var play := Playback(plan, m, world, log);
            var fixed := Buffered(play.sent, play.flight);
            (exists rest :: EndsAs(plan, m, world, log, rest, RunFailed(error))) <==>
              if fixed != "" then error == fixed else Running(play) != {}
  {
    hide IsHistory, Playback, FirstError, SomeRejected, Running, Buffered, IsOver;
    var play := Playback(plan, m, world, log);
    var quiet := DrainWith(plan, m, world, log, NOTHING);
    assert EndsAs(plan, m, world, log, quiet, Judge(log + quiet));
    var loud := DrainWith(plan, m, world, log, NOTHING.(error := error));
    assert EndsAs(plan, m, world, log, loud, Judge(log + loud));
    forall rest, outcome | EndsAs(plan, m, world, log, rest, outcome)
      ensures outcome == RunRejected ==> Buffered(play.sent, play.flight) == ""
      ensures outcome == RunFailed(error) ==>
                if Buffered(play.sent, play.flight) != "" then error == Buffered(play.sent, play.flight)
                else Running(play) != {}
    {
      ComingDecides(plan, m, world, log, rest);
      HistoryLined(plan, m, world, log + rest);
      OverHasCome(m, log + rest, Playback(plan, m, world, log + rest));
    }
  }

  // ---------------------------------------------------------------- an input on which it happens

  const TWO_APPROVALS := Plan("two-approvals", 1, 2, [PlanNode("a", "approval", 0), PlanNode("b", "approval", 0)], [],
      [["a"], ["b"]])

  const TWO_APPROVALS_MODEL :=
    Model(map["a" := PlanNode("a", "approval", 0), "b" := PlanNode("b", "approval", 0)], map[], map["a" := 0, "b" := 1],
          [Component(["a"], [], [], false, 1), Component(["b"], [], [], false, 1)], [0, 1])

  /** Someone rejects the approval of "a". */
  const A_IS_REJECTED := World((id: NodeId, iteration: nat, visible: map<NodeId, Json>) => Success("{}", [],
      id == "a"), (id: NodeId) => "")

  lemma TwoApprovalsModel()
    ensures IsModelOf(TWO_APPROVALS, TWO_APPROVALS_MODEL)
  {
    hide NodesOf, Grouped, CoversPlan, ComponentsLinked, Condensation, Topological, LeastReadyFirst, StrLess,
         IterationCap, OutgoingOf;
    TwoNodes();
    TwoGroups();
    NothingLinked();
    TwoCaps();
    NothingLeaves();
    TwoInOrder();
    hide Endpoints, GroupsOf, HeadsOf;
  }

  lemma TwoNodes()
    ensures NodesOf(TWO_APPROVALS, TWO_APPROVALS_MODEL.nodes)
  {
    var plan := TWO_APPROVALS;
    assert plan.nodes[0] in plan.nodes && plan.nodes[1] in plan.nodes;
  }

  lemma TwoGroups()
    ensures Grouped(GroupsOf(TWO_APPROVALS_MODEL.components), TWO_APPROVALS_MODEL.componentByNode)
    ensures CoversPlan(TWO_APPROVALS, GroupsOf(TWO_APPROVALS_MODEL.components))
  {
    hide Grouped, CoversPlan;
    assert GroupsOf(TWO_APPROVALS_MODEL.components) == [["a"], ["b"]];
    OneEach();
    BothCovered();
  }

  lemma OneEach()
    ensures Grouped([["a"], ["b"]], TWO_APPROVALS_MODEL.componentByNode)
  {
    hide StrLess;
  }

  lemma BothCovered()
    ensures CoversPlan(TWO_APPROVALS, [["a"], ["b"]])
  {
    var groups := [["a"], ["b"]];
    assert Union(groups) == {"a", "b"} by {
      assert groups[0] in groups && groups[1] in groups && "a" in groups[0] && "b" in groups[1];
    }
    TwoNodes();
  }

  lemma NothingLinked()
    ensures Endpoints(TWO_APPROVALS.edges, TWO_APPROVALS_MODEL.componentByNode, 0)
    ensures Condensation(TWO_APPROVALS.edges, TWO_APPROVALS_MODEL.componentByNode, 0) == {}
    ensures ComponentsLinked(TWO_APPROVALS.edges, TWO_APPROVALS_MODEL.componentByNode, 0,
              TWO_APPROVALS_MODEL.components)
  {
    var condensation := Condensation(TWO_APPROVALS.edges, TWO_APPROVALS_MODEL.componentByNode, 0);
    assert condensation == {};
  }

  lemma TwoCaps()
    ensures IterationCap(TWO_APPROVALS_MODEL.nodes, ["a"], 1) && IterationCap(TWO_APPROVALS_MODEL.nodes, ["b"], 1)
  {
  }

  lemma NothingLeaves()
    ensures forall id :: OutgoingOf(TWO_APPROVALS.edges, id, Outgoing(TWO_APPROVALS_MODEL.outgoing, id))
  {
  }

  lemma TwoInOrder()
    ensures Topological({}, TWO_APPROVALS_MODEL.order)
    ensures LeastReadyFirst({}, HeadsOf(GroupsOf(TWO_APPROVALS_MODEL.components)), TWO_APPROVALS_MODEL.order)
  {
    var heads, order := HeadsOf(GroupsOf(TWO_APPROVALS_MODEL.components)), TWO_APPROVALS_MODEL.order;
    assert heads == ["a", "b"];
    assert StrLess("a", "b") && !StrLess("b", "a") && !StrLess("a", "a") && !StrLess("b", "b");
    hide StrLess;
    assert order[..1] == [0] && 0 in Elements(order[..1]);
  }

  /** One approval may start, then the other, and then the rejection of the first may arrive. */
  lemma RejectionArrives() returns (log: seq<Event>)
    ensures var play := Playback(TWO_APPROVALS, TWO_APPROVALS_MODEL, A_IS_REJECTED, log);
            && IsHistory(TWO_APPROVALS, TWO_APPROVALS_MODEL, A_IS_REJECTED, log)
            && play.stopped && Running(play) != {} && Buffered(play.sent, play.flight) == ""
            && SomeRejected(log) && FirstError(log) == ""
  {
    hide IsHistory, Playback, Due, FirstReady, FirstError, SomeRejected, Merged;
    var plan, m, world := TWO_APPROVALS, TWO_APPROVALS_MODEL, A_IS_REJECTED;
    var due := Due(plan, m, world, 0, OPENING.state);
    Nothing(plan, m, world);
    StartOne(0, {});
    OneMoreEvent(plan, m, world, [], Started(0));
    OneMoreJudged([], Started(0));
    log := [] + [Started(0)];
    StartOne(1, {0});
    assert Playback(plan, m, world, log) == Play(OPENING.state, map[0 := due], [], map[0 := OPENING.state], false);
    assert map[0 := OPENING.state].Keys == {0};
    OneMoreEvent(plan, m, world, log, Started(1));
    OneMoreJudged(log, Started(1));
    log := log + [Started(1)];
    AIsRejected();
    OneMoreEvent(plan, m, world, log, Sent(0, due));
    OneMoreJudged(log, Sent(0, due));
    log := log + [Sent(0, due)];
    OneMoreEvent(plan, m, world, log, Finished(0, due));
    OneMoreJudged(log, Finished(0, due));
    log := log + [Finished(0, due)];
    var play := Playback(plan, m, world, log);
    assert 1 in play.flight && play.sent == [] && Elements(play.sent) == {};
    assert 1 in Running(play);
  }

  lemma Nothing(plan: Plan, m: Model, world: World)
    ensures IsHistory(plan, m, world, []) && Playback(plan, m, world, []) == OPENING && FirstError([]) == ""
            && !SomeRejected([])
  {
  }

  lemma StartOne(c: nat, started: set<nat>)
    requires c <= 1 && started == if c == 0 then {} else {0}
    ensures FirstReady(TWO_APPROVALS_MODEL, started, {}, c)
  {
    assert IsReadyNow(TWO_APPROVALS_MODEL, started, {}, TWO_APPROVALS_MODEL.order[c]);
  }

  lemma AIsRejected()
    ensures var due := Due(TWO_APPROVALS, TWO_APPROVALS_MODEL, A_IS_REJECTED, 0, OPENING.state);
            due.rejected && due.error == ""
  {
    TwoApprovalsModel();
    ModelUsable(TWO_APPROVALS, TWO_APPROVALS_MODEL, 0);
    hide IsModelOf, Usable, EntersInside;
  }

  /**
   * Two approvals side by side: "a" is rejected while "b" waits. If cancelling "b" gives an error, the Run is
   * reported as failed with the text of that error; if "b" ends quietly, it is reported as rejected.
   */
  lemma RejectedYetFailed(error: string)
    requires error != ""
    ensures exists log ::
              && IsHistory(TWO_APPROVALS, TWO_APPROVALS_MODEL, A_IS_REJECTED, log) && SomeRejected(log)
              && IsOver(TWO_APPROVALS_MODEL, Playback(TWO_APPROVALS, TWO_APPROVALS_MODEL, A_IS_REJECTED, log))
              && Judge(log) == RunFailed(error)
    ensures exists log ::
              && IsHistory(TWO_APPROVALS, TWO_APPROVALS_MODEL, A_IS_REJECTED, log) && SomeRejected(log)
              && IsOver(TWO_APPROVALS_MODEL, Playback(TWO_APPROVALS, TWO_APPROVALS_MODEL, A_IS_REJECTED, log))
              && Judge(log) == RunRejected
  {
    hide IsHistory, Playback, IsOver, SomeRejected, Judge, FirstError, Running, Buffered;
    var log := RejectionArrives();
    RejectionMayFail(TWO_APPROVALS, TWO_APPROVALS_MODEL, A_IS_REJECTED, log, error);
    var loud :| EndsAs(TWO_APPROVALS, TWO_APPROVALS_MODEL, A_IS_REJECTED, log, loud, RunFailed(error));
    var quiet :| EndsAs(TWO_APPROVALS, TWO_APPROVALS_MODEL, A_IS_REJECTED, log, quiet, RunRejected);
    StaysRejected(log, loud);
    StaysRejected(log, quiet);
  }

  lemma StaysRejected(log: seq<Event>, rest: seq<Event>)
    requires SomeRejected(log)
    ensures SomeRejected(log + rest)
  {
    var i :| 0 <= i < |log| && log[i].Finished? && log[i].result.error == "" && log[i].result.rejected;
    assert (log + rest)[i] == log[i];
  }
}
