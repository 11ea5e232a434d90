/**
 * Reconciling one schedule Trigger: each store call of a pass is a transaction of its own, and between any two of
 * them the resource may be applied anew, the Trigger switched on or off, a Run may end, or the daemon may crash.
 */
module Schedule {
  import opened Compiler
  import opened Ordering

  /** Instants are integers; an occurrence is an instant under one generation of the Trigger. */
  datatype Occurrence = Occurrence(generation: nat, instant: int)

  datatype Row = Row(generation: nat, enabled: bool, cursor: int)

  /** `receipts` tells whether an accepted occurrence is still active; `accepted` lists acceptances in order. */
  datatype Trigger = Trigger(row: Option<Row>, receipts: map<Occurrence, bool>, skips: map<Occurrence, string>,
                             accepted: seq<Occurrence>)

  const NEW := Trigger(None, map[], map[], [])

  /** What a pass works with: the Trigger as it was listed, the time, and whether the Flow can be started. */
  datatype Pass = Pass(generation: nat, enabled: bool, now: int, deadline: int, forbid: bool, acceptable: bool)

  datatype Outcome = Done | Disabled | Stale | Exceeded | NotAccepted | Crashed

  const MAX_CATCHUP_SCAN := 10000

  /** The instants of a schedule: `next` is the first one after a time, so none lies between. */
  ghost predicate IsSchedule(next: int -> int) {
    forall t :: next(t) > t && forall u :: t <= u < next(t) ==> next(u) == next(t)
  }

  function Due(next: int -> int, cursor: int, now: int, limit: nat): (r: (int, nat))
    decreases limit
  {
    if limit == 0 || next(cursor) > now then (cursor, 0) else
      var (last, count) := Due(next, next(cursor), now, limit - 1);
      (last, count + 1)
  }

  // ---------------------------------------------------------------- the store's transactions

  /** A newer generation resets the cursor; an older one is refused. */
  function Ensured(t: Trigger, generation: nat, enabled: bool, at: int): Option<Trigger> {
    if t.row.None? || t.row.value.generation < generation then Some(t.(row := Some(Row(generation, enabled, at))))
    else if t.row.value.generation > generation then None
    else Some(t)
  }

  /** The cursor is written whatever generation the row has by now. */
  function Advanced(t: Trigger, cursor: int): Trigger {
    if t.row.Some? then t.(row := Some(t.row.value.(cursor := cursor))) else t
  }

  function Skipped(t: Trigger, occurrence: Occurrence, reason: string): Trigger {
    if occurrence in t.skips then t else t.(skips := t.skips[occurrence := reason])
  }

  predicate AnyActive(t: Trigger) {
    exists occurrence :: occurrence in t.receipts && t.receipts[occurrence]
  }

  /** Acceptance checks the generation and the switch again, in its own transaction. */
  predicate Current(t: Trigger, pass: Pass) {
    pass.acceptable && t.row.Some? && t.row.value.generation == pass.generation && t.row.value.enabled
  }

  function Accepted(t: Trigger, occurrence: Occurrence): Trigger {
    if occurrence in t.receipts then t
    else t.(receipts := t.receipts[occurrence := true], accepted := t.accepted + [occurrence])
  }

  // ---------------------------------------------------------------- the pass, step by step

  /** Where the controller is; `last` is the instant it selected. */
  datatype Stage =
    | Resting
    | Selected(pass: Pass, last: int)
    | Checking(pass: Pass, last: int)
    | Skipping(pass: Pass, last: int)
    | Accepting(pass: Pass, last: int)
    | Advancing(pass: Pass, last: int)

  datatype System = System(t: Trigger, stage: Stage)

  const START := System(NEW, Resting)

  /** The row is ensured and the due instants are scanned from the cursor it has; the last of them is selected. */
  function Begun(t: Trigger, next: int -> int, pass: Pass): (Trigger, Stage, Outcome) {
    var ensured := Ensured(t, pass.generation, pass.enabled, pass.now);
    if ensured.None? then (t, Resting, Stale)
    else if !ensured.value.row.value.enabled then (ensured.value, Resting, Disabled)
    else
      var (last, count) := Due(next, ensured.value.row.value.cursor, pass.now, MAX_CATCHUP_SCAN);
      if count == MAX_CATCHUP_SCAN && next(last) <= pass.now then (ensured.value, Resting, Exceeded)
      else if count == 0 then (ensured.value, Resting, Done)
      else (ensured.value, Selected(pass, last), Done)
  }

  /** The next store call of a pass that has selected an instant. */
  function Turned(t: Trigger, stage: Stage): (Trigger, Stage)
    requires !stage.Resting?
  {
    var pass, last := stage.pass, stage.last;
    var occurrence := Occurrence(pass.generation, last);
    match stage
    case Selected(_, _) =>
      if pass.now - last > pass.deadline then (Skipped(t, occurrence, "misfire-deadline"), Advancing(pass, last))
      else if occurrence in t.receipts then (t, Advancing(pass, last))
      else (t, if pass.forbid then Checking(pass, last) else Accepting(pass, last))
    case Checking(_, _) => (t, if AnyActive(t) then Skipping(pass, last) else Accepting(pass, last))
    case Skipping(_, _) => (Skipped(t, occurrence, "concurrency-forbid"), Advancing(pass, last))
    case Accepting(_, _) => if Current(t, pass) then (Accepted(t, occurrence), Advancing(pass, last)) else (t, Resting)
    case Advancing(_, _) => (Advanced(t, last), Resting)
  }

  /** The controller begins a pass or takes its next turn; the daemon crashes; others write in between. */
  datatype Step =
    | Begin(pass: Pass)
    | Turn
    | Crash
    | Ensure(generation: nat, enabled: bool, at: int)
    | SetEnabled(enabled: bool)
    | RunEnds(occurrence: Occurrence)

  predicate Enabled(s: System, step: Step) {
    match step
    case Begin(_) => s.stage.Resting?
    case Turn => !s.stage.Resting?
    case _ => true
  }

  function Next(s: System, next: int -> int, step: Step): System
    requires Enabled(s, step)
  {
    match step
    case Begin(pass) => var (t, stage, _) := Begun(s.t, next, pass); System(t, stage)
    case Turn => var (t, stage) := Turned(s.t, s.stage); System(t, stage)
    case Crash => s.(stage := Resting)
    case Ensure(generation, enabled, at) =>
      var ensured := Ensured(s.t, generation, enabled, at);
      if ensured.Some? then s.(t := ensured.value) else s
    case SetEnabled(enabled) =>
      if s.t.row.Some? then s.(t := s.t.(row := Some(s.t.row.value.(enabled := enabled)))) else s
    case RunEnds(o) => if o in s.t.receipts then s.(t := s.t.(receipts := s.t.receipts[o := false])) else s
  }

  ghost predicate IsRun(states: seq<System>, steps: seq<Step>, next: int -> int) {
    && |states| == |steps| + 1 && states[0] == START
    && forall i :: 0 <= i < |steps| ==> Enabled(states[i], steps[i]) && states[i + 1] == Next(states[i], next, steps[i])
  }

  // ---------------------------------------------------------------- the scan

  /** The scan ends at the last instant not after `now`, if the limit allows. */
  lemma {:induction false} DueFacts(next: int -> int, cursor: int, now: int, limit: nat)
    requires IsSchedule(next)
    ensures var (last, count) := Due(next, cursor, now, limit);
            && count <= limit && last >= cursor && (count == 0 <==> last == cursor)
            && (count > 0 ==> last <= now) && (count < limit ==> next(last) > now)
    decreases limit
  {
    if limit > 0 && next(cursor) <= now {
      DueFacts(next, next(cursor), now, limit - 1);
    }
  }

  /** Every instant the pass skips over lies before the one it selects. */
  lemma {:induction false} DueSelectsLast(next: int -> int, cursor: int, now: int, limit: nat, t: int)
    requires IsSchedule(next) && Due(next, cursor, now, limit).1 < limit
    requires cursor <= t && next(t) <= now
    ensures next(t) <= Due(next, cursor, now, limit).0
    decreases limit
  {
    if t < next(cursor) {
      assert next(t) == next(cursor);
      DueFacts(next, next(cursor), now, limit - 1);
    } else {
      DueSelectsLast(next, next(cursor), now, limit - 1, t);
    }
  }

  /** The same when the scan used its whole limit and nothing was left. */
  lemma {:induction false} DueSelectsFull(next: int -> int, cursor: int, now: int, limit: nat, t: int)
    requires IsSchedule(next) && next(Due(next, cursor, now, limit).0) > now
    requires cursor <= t && next(t) <= now
    ensures next(t) <= Due(next, cursor, now, limit).0
    decreases limit
  {
    if limit == 0 {
      StepOver(next, cursor, t);
    } else if t < next(cursor) {
      assert next(t) == next(cursor);
      DueFacts(next, next(cursor), now, limit - 1);
    } else {
      DueSelectsFull(next, next(cursor), now, limit - 1, t);
    }
  }

  lemma StepOver(next: int -> int, s: int, t: int)
    requires IsSchedule(next) && s <= t
    ensures next(s) <= next(t)
  {
    if t < next(s) {
      assert next(t) == next(s);
    }
  }

  // ---------------------------------------------------------------- what every step keeps

  /** Every acceptance is on record, and none was made twice. */
  ghost predicate Recorded(t: Trigger) {
    NoDuplicates(t.accepted) && forall o :: o in t.receipts <==> o in t.accepted
  }

  /** Generations are accepted in order, and none that the row does not have yet. */
  ghost predicate InGenerations(t: Trigger) {
    && (forall i, j :: 0 <= i < j < |t.accepted| ==> t.accepted[i].generation <= t.accepted[j].generation)
    && (forall o :: o in t.accepted ==> t.row.Some? && o.generation <= t.row.value.generation)
  }

  /**
   * What the controller knows of the instant it selected: it is the last one not after now, and it lies beyond the
   * cursor of the row as long as the row still has the generation of the pass.
   */
  ghost predicate Knows(t: Trigger, next: int -> int, stage: Stage) {
    stage.Resting? ||
    (&& stage.last <= stage.pass.now < next(stage.last)
     && t.row.Some? && stage.pass.generation <= t.row.value.generation
     && (t.row.value.generation == stage.pass.generation ==> t.row.value.cursor < stage.last)
     && (stage.Checking? || stage.Skipping? || stage.Accepting? ==> stage.pass.now <= stage.last + stage.pass.deadline)
     && (stage.Accepting? && stage.pass.forbid ==> !AnyActive(t)))
  }

  ghost predicate Safe(s: System, next: int -> int) {
    Recorded(s.t) && InGenerations(s.t) && Knows(s.t, next, s.stage)
  }

  lemma AcceptedKeeps(t: Trigger, o: Occurrence)
    requires Recorded(t) && InGenerations(t) && t.row.Some? && o.generation == t.row.value.generation
    ensures Recorded(Accepted(t, o)) && InGenerations(Accepted(t, o))
  {
    if o !in t.receipts {
      var after := Accepted(t, o);
      assert forall x :: x in after.accepted <==> x in t.accepted || x == o;
    }
  }

  /** A pass goes on only with the last due instant, on a row of its own generation that is switched on. */
  lemma BegunFacts(t: Trigger, next: int -> int, pass: Pass)
    requires IsSchedule(next)
    ensures var (begun, stage, outcome) := Begun(t, next, pass);
            && begun.accepted == t.accepted && begun.receipts == t.receipts
            && (t.row.Some? ==> begun.row.Some? && begun.row.value.generation >= t.row.value.generation)
            && (t.row.Some? && begun.row.value.generation == t.row.value.generation ==>
                  begun.row.value.cursor == t.row.value.cursor)
            && (stage.Resting? || stage == Selected(pass, stage.last))
            && (stage.Selected? ==>
                  && begun.row.Some? && begun.row.value.generation == pass.generation && begun.row.value.enabled
                  && begun.row.value.cursor < stage.last <= pass.now < next(stage.last))
            && (outcome == Done && stage.Resting? ==>
                  begun.row.Some? && begun.row.value.generation == pass.generation
                      && next(begun.row.value.cursor) > pass.now)
  {
    hide Due, IsSchedule;
    var ensured := Ensured(t, pass.generation, pass.enabled, pass.now);
    if ensured.Some? {
      var cursor := ensured.value.row.value.cursor;
      DueFacts(next, cursor, pass.now, MAX_CATCHUP_SCAN);
      var (last, count) := Due(next, cursor, pass.now, MAX_CATCHUP_SCAN);
      assert count > 0 ==> last <= pass.now;
    }
  }

  lemma BeginSafe(s: System, next: int -> int, pass: Pass)
    requires IsSchedule(next) && Safe(s, next) && s.stage.Resting?
    ensures Safe(Next(s, next, Begin(pass)), next)
  {
    hide IsSchedule, Begun, Recorded, InGenerations, AnyActive;
    BegunFacts(s.t, next, pass);
    SameAcceptances(s.t, Begun(s.t, next, pass).0);
  }

  lemma TurnSafe(s: System, next: int -> int)
    requires Safe(s, next) && !s.stage.Resting?
    ensures Safe(Next(s, next, Turn), next)
  {
    hide Recorded, InGenerations, AnyActive, Accepted;
    var pass, last := s.stage.pass, s.stage.last;
    if s.stage.Accepting? && Current(s.t, pass) {
      AcceptedKeeps(s.t, Occurrence(pass.generation, last));
      AcceptedRow(s.t, Occurrence(pass.generation, last));
    } else {
      SameAcceptances(s.t, Next(s, next, Turn).t);
    }
  }

  lemma AcceptedRow(t: Trigger, o: Occurrence)
    ensures Accepted(t, o).row == t.row
  {
  }

  /** The acceptances stay in order as long as the row's generation does not go back. */
  lemma SameAcceptances(t: Trigger, after: Trigger)
    requires Recorded(t) && InGenerations(t) && after.accepted == t.accepted && after.receipts.Keys == t.receipts.Keys
    requires t.row.Some? ==> after.row.Some? && after.row.value.generation >= t.row.value.generation
    ensures Recorded(after) && InGenerations(after)
  {
    forall o ensures o in after.receipts <==> o in after.accepted {
      assert o in after.receipts.Keys <==> o in t.receipts.Keys;
    }
  }

  lemma OtherSafe(s: System, next: int -> int, step: Step)
    requires Safe(s, next) && !step.Begin? && !step.Turn?
    ensures Safe(Next(s, next, step), next)
  {
    hide Recorded, InGenerations;
    var after := Next(s, next, step);
    assert after.t.receipts.Keys == s.t.receipts.Keys;
    SameAcceptances(s.t, after.t);
  }

  lemma StepSafe(s: System, next: int -> int, step: Step)
    requires IsSchedule(next) && Safe(s, next) && Enabled(s, step)
    ensures Safe(Next(s, next, step), next)
  {
    hide IsSchedule, Safe, Next;
    match step
    case Begin(pass) => BeginSafe(s, next, pass);
    case Turn => TurnSafe(s, next);
    case _ => OtherSafe(s, next, step);
  }

  lemma {:induction false} AlwaysSafe(states: seq<System>, steps: seq<Step>, next: int -> int, i: nat)
    requires IsRun(states, steps, next) && IsSchedule(next) && i <= |steps|
    ensures Safe(states[i], next)
  {
    hide IsSchedule, Next, Safe, Enabled;
    if i == 0 {
      NothingYet(next);
    } else {
      AlwaysSafe(states, steps, next, i - 1);
      StepSafe(states[i - 1], next, steps[i - 1]);
    }
  }

  lemma NothingYet(next: int -> int)
    ensures Safe(START, next)
  {
  }

  // ---------------------------------------------------------------- theorems over runs

  /**
   * Over any run, crashes and interleaved writes included, no occurrence is accepted twice, and once one of a newer
   * generation is accepted none of an older one is.
   */
  lemma NeverTwice(states: seq<System>, steps: seq<Step>, next: int -> int, i: nat)
    requires IsRun(states, steps, next) && IsSchedule(next) && i <= |steps|
    ensures NoDuplicates(states[i].t.accepted)
    ensures forall a, b :: 0 <= a < b < |states[i].t.accepted| ==>
              states[i].t.accepted[a].generation <= states[i].t.accepted[b].generation
  {
    hide IsSchedule, IsRun;
    AlwaysSafe(states, steps, next, i);
  }

  /** One occurrence is accepted, of the row's own generation, while the Trigger is switched on. */
  ghost predicate AcceptsNow(t: Trigger, after: Trigger, pass: Pass, o: Occurrence) {
    && after.accepted == t.accepted + [o] && o !in t.accepted
    && t.row.Some? && t.row.value.enabled && o.generation == t.row.value.generation == pass.generation
    && o.instant <= pass.now <= o.instant + pass.deadline
  }

  /**
   * Over any run, a step accepts nothing, or it is a pass accepting one new occurrence that is due and not past its
   * deadline, of the generation the row has at that moment, and only while the Trigger is switched on.
   */
  lemma AcceptsCurrent(states: seq<System>, steps: seq<Step>, next: int -> int, i: nat)
    requires IsRun(states, steps, next) && IsSchedule(next) && i < |steps|
    ensures var before, after := states[i], states[i + 1].t;
            || after.accepted == before.t.accepted
            || (steps[i].Turn? && before.stage.Accepting?
                && AcceptsNow(before.t, after, before.stage.pass,
                              Occurrence(before.stage.pass.generation, before.stage.last)))
  {
    hide IsSchedule, Due, AnyActive, InGenerations;
    AlwaysSafe(states, steps, next, i);
    if steps[i].Begin? {
      EnsuredKeeps(states[i].t, steps[i].pass);
    }
  }

  lemma EnsuredKeeps(t: Trigger, pass: Pass)
    ensures forall next :: Begun(t, next, pass).0.accepted == t.accepted
  {
    hide Due;
  }

  /** The cursor is further back than it was, under the same generation. */
  ghost predicate GoesBack(t: Trigger, after: Trigger) {
    && t.row.Some? && after.row.Some? && after.row.value.generation == t.row.value.generation
    && after.row.value.cursor < t.row.value.cursor
  }

  /** A pass advances the cursor of a row that has got a newer generation meanwhile, and a cursor beyond its own. */
  ghost predicate StaleAdvance(s: System, step: Step) {
    && step.Turn? && s.stage.Advancing? && s.t.row.Some?
    && s.t.row.value.generation > s.stage.pass.generation && s.t.row.value.cursor > s.stage.last
  }

  lemma StepMoves(s: System, next: int -> int, step: Step)
    requires Safe(s, next) && Enabled(s, step) && s.t.row.Some?
    ensures var after := Next(s, next, step).t;
            after.row.Some? && after.row.value.generation >= s.t.row.value.generation
    ensures GoesBack(s.t, Next(s, next, step).t) <==> StaleAdvance(s, step)
  {
    hide Recorded, InGenerations, AnyActive, Due;
  }

  /** The cursor goes back within a generation exactly where such a stale advance happens. */
  lemma CursorGoesBack(states: seq<System>, steps: seq<Step>, next: int -> int, i: nat)
    requires IsRun(states, steps, next) && IsSchedule(next) && i < |steps|
    ensures GoesBack(states[i].t, states[i + 1].t) <==> StaleAdvance(states[i], steps[i])
  {
    hide IsSchedule, Safe, Next, StaleAdvance;
    AlwaysSafe(states, steps, next, i);
    if states[i].t.row.Some? {
      StepMoves(states[i], next, steps[i]);
    } else {
      NoStaleAdvance(states[i], steps[i]);
    }
  }

  lemma NoStaleAdvance(s: System, step: Step)
    requires s.t.row.None?
    ensures !StaleAdvance(s, step)
  {
  }

  ghost predicate NoneStale(states: seq<System>, steps: seq<Step>, i: nat, j: nat) {
    j <= |steps| <= |states| && forall k :: i <= k < j ==> !StaleAdvance(states[k], steps[k])
  }

  /** Without one, the cursor never moves back within a generation, and the generation never does. */
  lemma {:induction false} CursorAdvances(states: seq<System>, steps: seq<Step>, next: int -> int, i: nat, j: nat)
    requires IsRun(states, steps, next) && IsSchedule(next) && i <= j && NoneStale(states, steps, i, j)
             && states[i].t.row.Some?
    ensures states[j].t.row.Some? && states[j].t.row.value.generation >= states[i].t.row.value.generation
    ensures states[j].t.row.value.generation == states[i].t.row.value.generation ==>
              states[j].t.row.value.cursor >= states[i].t.row.value.cursor
    decreases j
  {
    hide IsSchedule, Next, Safe, StaleAdvance, Enabled;
    if i < j {
      CursorAdvances(states, steps, next, i, j - 1);
      AlwaysSafe(states, steps, next, j - 1);
      StepMoves(states[j - 1], next, steps[j - 1]);
    }
  }

  /** Whoever wrote in between, a pass that advances a row of its own generation leaves no due instant behind. */
  lemma AdvanceCatchesUp(states: seq<System>, steps: seq<Step>, next: int -> int, i: nat)
    requires IsRun(states, steps, next) && IsSchedule(next) && i < |steps| && steps[i].Turn?
             && states[i].stage.Advancing?
    requires states[i].t.row.Some? && states[i].t.row.value.generation == states[i].stage.pass.generation
    ensures var row, pass := states[i + 1].t.row, states[i].stage.pass;
            row.Some? && row.value.generation == pass.generation
                && row.value.cursor <= pass.now < next(row.value.cursor)
    ensures states[i + 1].t.row.value.cursor > states[i].t.row.value.cursor
  {
    hide IsSchedule, Recorded, InGenerations, AnyActive, Due;
    AlwaysSafe(states, steps, next, i);
  }

  /** An occurrence of the row's generation is accepted only beyond the cursor. */
  lemma StepAccepts(s: System, next: int -> int, step: Step)
    requires Safe(s, next) && Enabled(s, step)
    ensures var accepted := Next(s, next, step).t.accepted;
            || accepted == s.t.accepted
            || (&& s.stage.Accepting? && step.Turn?
                && accepted == s.t.accepted + [Occurrence(s.stage.pass.generation, s.stage.last)]
                && s.t.row.Some? && s.t.row.value.enabled && s.t.row.value.generation == s.stage.pass.generation
                && s.t.row.value.cursor < s.stage.last <= s.stage.pass.now <= s.stage.last + s.stage.pass.deadline
                && (s.stage.pass.forbid ==> !AnyActive(s.t)))
  {
    hide Recorded, InGenerations, AnyActive, Due;
  }

  /**
   * Without a stale advance since some point, what is accepted from there on under the generation of then lies beyond
   * the cursor of then: nothing is caught up from before a generation began.
   */
  lemma {:induction false} AcceptedBeyond(states: seq<System>, steps: seq<Step>, next: int -> int, i: nat, j: nat,
                                          k: nat)
    requires IsRun(states, steps, next) && IsSchedule(next) && i <= j && NoneStale(states, steps, i, j)
             && states[i].t.row.Some?
    requires |states[i].t.accepted| <= k < |states[j].t.accepted|
    requires states[j].t.accepted[k].generation == states[i].t.row.value.generation
    ensures states[j].t.accepted[k].instant > states[i].t.row.value.cursor
    decreases j
  {
    hide IsSchedule, Next, Safe, StaleAdvance, Enabled, AnyActive;
    AlwaysSafe(states, steps, next, j - 1);
    StepAccepts(states[j - 1], next, steps[j - 1]);
    if k < |states[j - 1].t.accepted| {
      AcceptedBeyond(states, steps, next, i, j - 1, k);
    } else {
      CursorAdvances(states, steps, next, i, j - 1);
    }
  }

  ghost predicate AllForbid(steps: seq<Step>) {
    forall i :: 0 <= i < |steps| && steps[i].Begin? ==> steps[i].pass.forbid
  }

  /** At most one accepted occurrence is still active. */
  ghost predicate OneActive(t: Trigger) {
    forall a, b :: a in t.receipts && b in t.receipts && t.receipts[a] && t.receipts[b] ==> a == b
  }

  lemma StepOneActive(s: System, next: int -> int, step: Step)
    requires Safe(s, next) && Enabled(s, step) && OneActive(s.t)
    requires step.Begin? ==> step.pass.forbid
    requires !s.stage.Resting? ==> s.stage.pass.forbid
    ensures OneActive(Next(s, next, step).t)
    ensures var stage := Next(s, next, step).stage; !stage.Resting? ==> stage.pass.forbid
  {
    hide Recorded, InGenerations, Due;
  }

  /** If concurrency is forbidden throughout, then over any run at most one accepted occurrence is active at a time. */
  lemma {:induction false} ForbidKeepsOne(states: seq<System>, steps: seq<Step>, next: int -> int, i: nat)
    requires IsRun(states, steps, next) && IsSchedule(next) && AllForbid(steps) && i <= |steps|
    ensures OneActive(states[i].t)
    ensures !states[i].stage.Resting? ==> states[i].stage.pass.forbid
  {
    hide IsSchedule, Next, Safe, Enabled, OneActive;
    if i == 0 {
      NoneActive();
    } else {
      ForbidKeepsOne(states, steps, next, i - 1);
      AlwaysSafe(states, steps, next, i - 1);
      StepOneActive(states[i - 1], next, steps[i - 1]);
    }
  }

  lemma NoneActive()
    ensures OneActive(NEW)
  {
  }

  // ---------------------------------------------------------------- a run in which the cursor goes back

  /** One instant per unit of time. */
  function EverySecond(): int -> int {
    (t: int) => t + 1
  }

  lemma {:induction false} DueWithin(cursor: int, now: int, limit: nat)
    requires cursor <= now < cursor + limit
    ensures Due(EverySecond(), cursor, now, limit) == (now, now - cursor)
    decreases limit
  {
    if cursor < now {
      DueWithin(cursor + 1, now, limit - 1);
    }
  }

  const FIRST := Pass(1, true, 5, 60, false, true)
  const SECOND := Pass(2, true, 6, 60, false, true)

  /** The tables with one generation's row and the occurrences accepted so far, all of them still active. */
  function Holding(row: Row, accepted: seq<Occurrence>): Trigger {
    Trigger(Some(row), map o | o in accepted :: true, map[], accepted)
  }

  const STALE_STEPS :=
    [Ensure(1, true, 0), Begin(FIRST), Turn, Turn, Ensure(2, true, 7), Turn, Begin(SECOND), Turn, Turn]

  const STALE_STATES :=
    [START,
     System(Holding(Row(1, true, 0), []), Resting),
     System(Holding(Row(1, true, 0), []), Selected(FIRST, 5)),
     System(Holding(Row(1, true, 0), []), Accepting(FIRST, 5)),
     System(Holding(Row(1, true, 0), [Occurrence(1, 5)]), Advancing(FIRST, 5)),
     System(Holding(Row(2, true, 7), [Occurrence(1, 5)]), Advancing(FIRST, 5)),
     System(Holding(Row(2, true, 5), [Occurrence(1, 5)]), Resting),
     System(Holding(Row(2, true, 5), [Occurrence(1, 5)]), Selected(SECOND, 6)),
     System(Holding(Row(2, true, 5), [Occurrence(1, 5)]), Accepting(SECOND, 6)),
     System(Holding(Row(2, true, 5), [Occurrence(1, 5), Occurrence(2, 6)]), Advancing(SECOND, 6))]

  lemma HoldingMore(row: Row, accepted: seq<Occurrence>, o: Occurrence)
    requires o !in accepted
    ensures Accepted(Holding(row, accepted), o) == Holding(row, accepted + [o])
    ensures Holding(row, accepted).row == Some(row) && o !in Holding(row, accepted).receipts
    ensures forall other :: Holding(row, accepted).(row := Some(other)) == Holding(other, accepted)
  {
    assert forall x :: x in accepted + [o] <==> x in accepted || x == o;
  }

  /** A pass selects the instant of its own time and accepts it. */
  lemma PassAccepts(row: Row, accepted: seq<Occurrence>, pass: Pass)
    requires row.enabled && row.generation == pass.generation && row.cursor < pass.now < row.cursor + MAX_CATCHUP_SCAN
    requires pass.deadline >= 0 && !pass.forbid && pass.acceptable
             && Occurrence(pass.generation, pass.now) !in accepted
    ensures var t, o := Holding(row, accepted), Occurrence(pass.generation, pass.now);
            && Begun(t, EverySecond(), pass) == (t, Selected(pass, pass.now), Done)
            && Turned(t, Selected(pass, pass.now)) == (t, Accepting(pass, pass.now))
            && Turned(t, Accepting(pass, pass.now)) == (Holding(row, accepted + [o]), Advancing(pass, pass.now))
  {
    hide Due, AnyActive, Holding, Accepted;
    DueWithin(row.cursor, pass.now, MAX_CATCHUP_SCAN);
    HoldingMore(row, accepted, Occurrence(pass.generation, pass.now));
  }

  lemma StaleStep(i: nat)
    requires i < 9
    ensures Enabled(STALE_STATES[i], STALE_STEPS[i])
    ensures STALE_STATES[i + 1] == Next(STALE_STATES[i], EverySecond(), STALE_STEPS[i])
  {
    hide Begun, Turned, Holding, AnyActive;
    if 1 <= i < 4 {
      PassAccepts(Row(1, true, 0), [], FIRST);
      assert [] + [Occurrence(1, 5)] == [Occurrence(1, 5)];
    } else if i >= 6 {
      PassAccepts(Row(2, true, 5), [Occurrence(1, 5)], SECOND);
      assert [Occurrence(1, 5)] + [Occurrence(2, 6)] == [Occurrence(1, 5), Occurrence(2, 6)];
    } else {
      OtherStaleStep(i);
    }
  }

  lemma OtherStaleStep(i: nat)
    requires i == 0 || i == 4 || i == 5
    ensures Enabled(STALE_STATES[i], STALE_STEPS[i])
    ensures STALE_STATES[i + 1] == Next(STALE_STATES[i], EverySecond(), STALE_STEPS[i])
  {
    hide Begun, AnyActive, Accepted;
  }

  /**
   * Generation 1 is applied at 0. A pass at 5 accepts instant 5; before it advances the cursor, the Trigger is applied
   * anew at 7; the advance puts generation 2 back to 5, and the next pass, for the tick at 6, accepts an instant of
   * generation 2 from before that generation began.
   */
  lemma StaleAdvanceHappens()
    ensures IsSchedule(EverySecond()) && IsRun(STALE_STATES, STALE_STEPS, EverySecond())
    ensures STALE_STATES[5].t.row == Some(Row(2, true, 7)) && GoesBack(STALE_STATES[5].t, STALE_STATES[6].t)
    ensures Occurrence(2, 6) in STALE_STATES[9].t.accepted
  {
    hide Next, Enabled;
    forall i | 0 <= i < |STALE_STEPS| ensures Enabled(STALE_STATES[i], STALE_STEPS[i])
           && STALE_STATES[i + 1] == Next(STALE_STATES[i], EverySecond(), STALE_STEPS[i]) {
      StaleStep(i);
    }
  }

}
