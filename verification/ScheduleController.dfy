/** The controller's pass over a schedule Trigger: in one go if nobody disturbs it, and as the code that runs. */
module ScheduleController {
  import opened Compiler
  import opened Schedule

  // ---------------------------------------------------------------- a pass that nobody disturbs

  /** What happens to the selected occurrence, and whether the cursor is advanced. */
  function Decided(t: Trigger, pass: Pass, selected: int): (Trigger, bool) {
    var occurrence := Occurrence(pass.generation, selected);
    if pass.now - selected > pass.deadline then (Skipped(t, occurrence, "misfire-deadline"), true)
    else if occurrence in t.receipts then (t, true)
    else if pass.forbid && AnyActive(t) then (Skipped(t, occurrence, "concurrency-forbid"), true)
    else if !pass.acceptable then (t, false)
    else (Accepted(t, occurrence), true)
  }

  function Reconciled(t: Trigger, next: int -> int, pass: Pass): (Trigger, Outcome) {
    var (begun, stage, outcome) := Begun(t, next, pass);
    if stage.Resting? then (begun, outcome)
    else
      var (decided, ok) := Decided(begun, pass, stage.last);
      if ok then (Advanced(decided, stage.last), Done) else (begun, NotAccepted)
  }

  function Rank(stage: Stage): nat {
    match stage
    case Resting => 0
    case Advancing(_, _) => 1
    case Skipping(_, _) => 2
    case Accepting(_, _) => 2
    case Checking(_, _) => 3
    case Selected(_, _) => 4
  }

  /** The controller's turns alone, until it rests. */
  function Driven(t: Trigger, stage: Stage): Trigger
    decreases Rank(stage)
  {
    if stage.Resting? then t else var (after, later) := Turned(t, stage); Driven(after, later)
  }

  /** The row is the one the pass has ensured. */
  ghost predicate Undisturbed(t: Trigger, pass: Pass) {
    t.row.Some? && t.row.value.generation == pass.generation && t.row.value.enabled
  }

  lemma DrivenFrom(t: Trigger, pass: Pass, last: int)
    requires Undisturbed(t, pass)
    ensures Driven(t, Selected(pass, last)) ==
              (var (decided, ok) := Decided(t, pass, last); if ok then Advanced(decided, last) else t)
  {
    hide AnyActive, Skipped, Accepted, Advanced;
    var occurrence := Occurrence(pass.generation, last);
    forall x ensures Driven(x, Advancing(pass, last)) == Advanced(x, last) {
      assert Turned(x, Advancing(pass, last)) == (Advanced(x, last), Resting);
    }
    assert Driven(t, Accepting(pass, last)) == if pass.acceptable then Advanced(Accepted(t, occurrence), last) else t;
    assert Driven(t, Skipping(pass, last)) == Advanced(Skipped(t, occurrence, "concurrency-forbid"), last);
    assert Driven(t, Checking(pass, last)) ==
        Driven(t, if AnyActive(t) then Skipping(pass, last) else Accepting(pass, last));
  }

  /** Nobody else writing, the turns of a pass amount to the pass in one go. */
  lemma AloneIsAtomic(t: Trigger, next: int -> int, pass: Pass)
    requires IsSchedule(next)
    ensures var (begun, stage, _) := Begun(t, next, pass); Driven(begun, stage) == Reconciled(t, next, pass).0
  {
    hide Begun, Decided, Advanced;
    BegunFacts(t, next, pass);
    var (begun, stage, _) := Begun(t, next, pass);
    if stage.Selected? {
      DrivenFrom(begun, pass, stage.last);
    }
  }

  /** One new occurrence was accepted, within its deadline and not beside an active one if that is forbidden. */
  ghost predicate Accepts(before: Trigger, after: Trigger, pass: Pass) {
    exists instant ::
      var o := Occurrence(pass.generation, instant);
      && after.accepted == before.accepted + [o]
      && o !in before.receipts && after.receipts == before.receipts[o := true]
      && instant <= pass.now <= instant + pass.deadline
      && (pass.forbid ==> !AnyActive(before))
  }

  lemma DecidedFacts(t: Trigger, pass: Pass, selected: int)
    requires selected <= pass.now
    ensures var (after, ok) := Decided(t, pass, selected);
            && after.row == t.row && (!ok ==> after == t)
            && ((after.accepted == t.accepted && after.receipts == t.receipts) || Accepts(t, after, pass))
  {
    hide AnyActive;
    var o := Occurrence(pass.generation, selected);
    var (after, ok) := Decided(t, pass, selected);
    if o !in t.receipts && o in after.receipts {
      assert after.accepted == t.accepted + [Occurrence(pass.generation, selected)];
    }
  }

  lemma SameAcceptance(before: Trigger, after: Trigger, other: Trigger, pass: Pass)
    requires Accepts(before, after, pass) && other.accepted == after.accepted && other.receipts == after.receipts
    ensures Accepts(before, other, pass)
  {
    hide AnyActive;
  }

  lemma SameStart(before: Trigger, other: Trigger, after: Trigger, pass: Pass)
    requires Accepts(before, after, pass) && other.accepted == before.accepted && other.receipts == before.receipts
    ensures Accepts(other, after, pass)
  {
  }

  /**
   * A pass accepts nothing, or one new occurrence that is due, not past its deadline, and, when concurrency is
   * forbidden, only while no earlier one is active. It never moves the cursor back within a generation, and when it
   * completes on an enabled Trigger the next instant is still to come.
   */
  lemma PassFacts(t: Trigger, next: int -> int, pass: Pass)
    requires IsSchedule(next)
    ensures var (after, outcome) := Reconciled(t, next, pass);
            && ((after.accepted == t.accepted && after.receipts == t.receipts) || Accepts(t, after, pass))
            && (t.row.Some? ==> after.row.Some? && after.row.value.generation >= t.row.value.generation)
            && (t.row.Some? && after.row.value.generation == t.row.value.generation ==>
                  after.row.value.cursor >= t.row.value.cursor)
            && (outcome == Done ==>
                  after.row.Some? && after.row.value.generation == pass.generation
                      && next(after.row.value.cursor) > pass.now)
  {
    hide Begun, Decided, Accepts;
    BegunFacts(t, next, pass);
    var (begun, stage, _) := Begun(t, next, pass);
    if stage.Selected? {
      DecidedFacts(begun, pass, stage.last);
      var decided := Decided(begun, pass, stage.last).0;
      if Accepts(begun, decided, pass) {
        SameStart(begun, t, decided, pass);
        SameAcceptance(t, decided, Advanced(decided, stage.last), pass);
      }
    }
  }

  /** A completed pass leaves no due instant behind its cursor: all but the last were passed over. */
  lemma CatchesUpOnce(t: Trigger, next: int -> int, pass: Pass, instant: int)
    requires IsSchedule(next) && Reconciled(t, next, pass).1 == Done
    requires t.row.Some? && t.row.value.generation == pass.generation
    requires t.row.value.cursor <= instant && next(instant) <= pass.now
    ensures next(instant) <= Reconciled(t, next, pass).0.row.value.cursor <= pass.now
  {
    hide Due;
    var cursor := t.row.value.cursor;
    DueFacts(next, cursor, pass.now, MAX_CATCHUP_SCAN);
    var (last, count) := Due(next, cursor, pass.now, MAX_CATCHUP_SCAN);
    if count < MAX_CATCHUP_SCAN {
      DueSelectsLast(next, cursor, pass.now, MAX_CATCHUP_SCAN, instant);
    } else {
      DueSelectsFull(next, cursor, pass.now, MAX_CATCHUP_SCAN, instant);
    }
  }

  // ---------------------------------------------------------------- what an undisturbed pass does

  ghost predicate Instant(next: int -> int, i: int) {
    exists t :: next(t) == i
  }

  /** The instants of the schedule after `cursor` and up to now. */
  ghost function DueSet(next: int -> int, cursor: int, now: int): set<int> {
    set i: int | cursor < i <= now && Instant(next, i)
  }

  lemma NoneDue(next: int -> int, cursor: int, now: int)
    requires IsSchedule(next) && next(cursor) > now
    ensures DueSet(next, cursor, now) == {}
  {
    forall i ensures i !in DueSet(next, cursor, now) {
      if cursor < i && Instant(next, i) {
        var t :| next(t) == i;
        StepOrder(next, cursor, t);
      }
    }
  }

  lemma StepOrder(next: int -> int, s: int, t: int)
    requires IsSchedule(next) && s < next(t)
    ensures next(s) <= next(t)
  {
    if t < s {
      assert next(s) == next(t);
    } else {
      StepOver(next, s, t);
    }
  }

  lemma OneDue(next: int -> int, cursor: int, now: int)
    requires IsSchedule(next) && next(cursor) <= now
    ensures DueSet(next, cursor, now) == DueSet(next, next(cursor), now) + {next(cursor)}
    ensures next(cursor) !in DueSet(next, next(cursor), now)
  {
    forall i ensures i in DueSet(next, cursor, now) <==> i in DueSet(next, next(cursor), now) || i == next(cursor) {
      if i in DueSet(next, cursor, now) {
        var t :| next(t) == i;
        StepOrder(next, cursor, t);
      }
    }
  }

  /** The scan counts the due instants as far as its limit goes, and ends at the last if it has seen all. */
  lemma {:induction false} DueCounts(next: int -> int, cursor: int, now: int, limit: nat)
    requires IsSchedule(next)
    ensures var (last, count) := Due(next, cursor, now, limit);
            && (if |DueSet(next, cursor, now)| <= limit then count == |DueSet(next, cursor, now)| else count == limit)
            && (count == limit && next(last) <= now <==> |DueSet(next, cursor, now)| > limit)
            && (|DueSet(next, cursor, now)| <= limit ==> forall i :: i in DueSet(next, cursor, now) ==> i <= last)
            && (count > 0 ==> last in DueSet(next, cursor, now))
    decreases limit
  {
    hide DueSet;
    if next(cursor) > now {
      NoneDue(next, cursor, now);
    } else {
      OneDue(next, cursor, now);
      if limit > 0 {
        DueCounts(next, next(cursor), now, limit - 1);
        DueFacts(next, next(cursor), now, limit - 1);
      }
    }
  }

  /** An occurrence is recorded as skipped, with the first reason. */
  ghost predicate Skips(t: Trigger, after: Trigger, o: Occurrence, reason: string, cursor: int) {
    t.row.Some? && after == t.(skips := if o in t.skips then t.skips else t.skips[o := reason],
                               row := Some(t.row.value.(cursor := cursor)))
  }

  /**
   * What becomes of the last due instant, on a row of the pass's generation: it is skipped when it is past its
   * deadline, or when an earlier one is still active and concurrency is forbidden; passed over when it was accepted
   * before; accepted otherwise, if the Flow can be started. The cursor stands at it, unless it should have been
   * accepted and could not.
   */
  ghost predicate Settles(t: Trigger, pass: Pass, last: int, after: Trigger, outcome: Outcome) {
    var o := Occurrence(pass.generation, last);
    && t.row.Some?
    && if pass.now - last > pass.deadline then outcome == Done && Skips(t, after, o, "misfire-deadline", last)
       else if o in t.receipts then outcome == Done && after == t.(row := Some(t.row.value.(cursor := last)))
       else if pass.forbid && exists other :: other in t.receipts && t.receipts[other] then
         outcome == Done && Skips(t, after, o, "concurrency-forbid", last)
       else if !pass.acceptable then outcome == NotAccepted && after == t
       else
         && outcome == Done
         && after == t.(receipts := t.receipts[o := true], accepted := t.accepted + [o],
                        row := Some(t.row.value.(cursor := last)))
  }

  /** The row the pass works on, if it is not stale: its own generation's, made anew if there is none. */
  function RowFor(t: Trigger, pass: Pass): Row {
    if t.row.None? || t.row.value.generation < pass.generation then Row(pass.generation, pass.enabled, pass.now)
    else t.row.value
  }

  /** A pass that nobody disturbs, from the tables before to the tables after. */
  ghost predicate Passes(t: Trigger, next: int -> int, pass: Pass, after: Trigger, outcome: Outcome) {
    var row := RowFor(t, pass);
    var begun, due := t.(row := Some(row)), DueSet(next, row.cursor, pass.now);
    if t.row.Some? && t.row.value.generation > pass.generation then outcome == Stale && after == t
    else if !row.enabled then outcome == Disabled && after == begun
    else if |due| > 10000 then outcome == Exceeded && after == begun
    else if due == {} then outcome == Done && after == begun
    else exists last ::
           last in due && (forall i :: i in due ==> i <= last) && Settles(begun, pass, last, after, outcome)
  }

  lemma DecidedSettles(t: Trigger, pass: Pass, last: int)
    requires t.row.Some?
    ensures var (decided, ok) := Decided(t, pass, last);
            Settles(t, pass, last, if ok then Advanced(decided, last) else t, if ok then Done else NotAccepted)
  {
  }

  lemma PassDoes(t: Trigger, next: int -> int, pass: Pass)
    requires IsSchedule(next)
    ensures var (after, outcome) := Reconciled(t, next, pass); Passes(t, next, pass, after, outcome)
  {
    hide IsSchedule, Due, Decided, Settles, DueSet, Advanced;
    var row := RowFor(t, pass);
    DueCounts(next, row.cursor, pass.now, MAX_CATCHUP_SCAN);
    var (last, count) := Due(next, row.cursor, pass.now, MAX_CATCHUP_SCAN);
    DecidedSettles(t.(row := Some(row)), pass, last);
    assert t.row.Some? && t.row.value.generation == pass.generation ==> t.(row := Some(row)) == t;
  }

  function Before(start: int, due: seq<int>, i: nat): int
    requires i <= |due|
  {
    if i == 0 then start else due[i - 1]
  }

  /** The instants that follow each other from `start` on, none later than now. */
  ghost predicate Consecutive(next: int -> int, start: int, due: seq<int>, now: int) {
    forall i :: 0 <= i < |due| ==> due[i] == next(Before(start, due, i)) && due[i] <= now
  }

  lemma NoneYet(next: int -> int, start: int, now: int)
    ensures Consecutive(next, start, [], now)
  {
  }

  lemma OneMoreDue(next: int -> int, start: int, due: seq<int>, now: int)
    requires Consecutive(next, start, due, now)
    ensures next(Before(start, due, |due|)) <= now ==>
              Consecutive(next, start, due + [next(Before(start, due, |due|))], now)
  {
    var longer := due + [next(Before(start, due, |due|))];
    assert forall i :: 0 <= i <= |due| ==> Before(start, longer, i) == Before(start, due, i);
    assert forall i :: 0 <= i < |due| ==> longer[i] == due[i];
  }

  // ---------------------------------------------------------------- the controller

  /** From position n on only the controller has taken steps, and it did not crash. */
  ghost predicate Alone(steps: seq<Step>, n: nat) {
    forall i :: n <= i < |steps| ==> steps[i].Begin? || steps[i].Turn?
  }

  lemma AloneBefore(steps: seq<Step>, more: seq<Step>, n: nat)
    requires steps <= more && n <= |steps|
    ensures Alone(more, n) <==> Alone(steps, n) && Alone(more, |steps|)
  {
    assert forall i :: 0 <= i < |steps| ==> steps[i] == more[i];
  }

  /**
   * The store's tables and the controller's pass over them; `stage` is where the pass is, the ghost fields are the run
   * of the system so far.
   */
  class Controller {
    const next: int -> int
    var row: Option<Row>
    var receipts: map<Occurrence, bool>
    var skips: map<Occurrence, string>
    var accepted: seq<Occurrence>
    var stage: Stage
    ghost var states: seq<System>
    ghost var steps: seq<Step>

    ghost predicate Valid()
      reads this
    {
      IsRun(states, steps, next) && states[|steps|] == System(Contents(), stage)
    }

    function Contents(): Trigger
      reads this
    {
      Trigger(row, receipts, skips, accepted)
    }

    constructor (schedule: int -> int)
      ensures Valid() && Contents() == NEW && stage == Resting && next == schedule
    {
      next := schedule;
      row, receipts, skips, accepted := None, map[], map[], [];
      stage, states, steps := Resting, [START], [];
    }

    /** What has just been read or written is one step of the system. */
    method Log(ghost step: Step, ghost before: System, later: Stage)
      requires IsRun(states, steps, next) && states[|steps|] == before
      requires Enabled(before, step) && Next(before, next, step) == System(Contents(), later)
      modifies this`stage, this`states, this`steps
      ensures Valid() && stage == later && steps == old(steps) + [step]
    {
      hide Next, Enabled;
      stage, states, steps := later, states + [System(Contents(), later)], steps + [step];
    }

    // -------------------------------------------------------------- the store

    method EnsureTriggerState(generation: nat, enabled: bool, at: int) returns (state: Option<Row>)
      modifies this`row
      ensures state.Some? <==> Ensured(old(Contents()), generation, enabled, at).Some?
      ensures state.Some? ==> Contents() == Ensured(old(Contents()), generation, enabled, at).value && row == state
      ensures state.None? ==> Contents() == old(Contents())
    {
      if row.Some? && row.value.generation > generation {
        return None;
      }
      if row.None? || row.value.generation != generation {
        row := Some(Row(generation, enabled, at));
      }
      return row;
    }

    method SetTriggerEnabled(enabled: bool)
      modifies this`row
      ensures Contents() == old(if row.Some? then Contents().(row := Some(row.value.(enabled := enabled)))
                else Contents())
    {
      if row.Some? {
        row := Some(row.value.(enabled := enabled));
      }
    }

    method RecordTriggerSkip(occurrence: Occurrence, reason: string)
      modifies this`skips
      ensures Contents() == Skipped(old(Contents()), occurrence, reason)
    {
      if occurrence !in skips {
        skips := skips[occurrence := reason];
      }
    }

    method AdvanceTriggerCursor(cursor: int)
      modifies this`row
      ensures Contents() == Advanced(old(Contents()), cursor)
    {
      if row.Some? {
        row := Some(row.value.(cursor := cursor));
      }
    }

    method AcceptTrigger(pass: Pass, occurrence: Occurrence) returns (ok: bool)
      modifies this`receipts, this`accepted
      ensures ok == Current(old(Contents()), pass)
      ensures Contents() == if ok then Accepted(old(Contents()), occurrence) else old(Contents())
    {
      if !pass.acceptable || row.None? || row.value.generation != pass.generation || !row.value.enabled {
        return false;
      }
      if occurrence !in receipts {
        receipts := receipts[occurrence := true];
        accepted := accepted + [occurrence];
      }
      return true;
    }

    // -------------------------------------------------------------- everyone else

    /** The resource is applied, the Trigger switched, a Run ends: any number of times, in any order. */
    method Others(quiet: bool)
      requires Valid()
      modifies this
      ensures Valid() && stage == old(stage) && accepted == old(accepted) && old(steps) <= steps
      ensures quiet ==> steps == old(steps)
      ensures Alone(steps, |old(steps)|) ==> Contents() == old(Contents())
    {
      hide IsRun;
      var left: nat := *;
      while left > 0 && !quiet
        invariant Valid() && stage == old(stage) && accepted == old(accepted) && old(steps) <= steps
        invariant quiet ==> steps == old(steps)
        invariant Alone(steps, |old(steps)|) ==> Contents() == old(Contents())
      {
        var which: nat, generation: nat, enabled: bool, at: int, occurrence: Occurrence := *, *, *, *, *;
        OneOther(which, generation, enabled, at, occurrence);
        assert !Alone(steps, |old(steps)|) by {
          assert !steps[|steps| - 1].Begin? && !steps[|steps| - 1].Turn?;
        }
        left := left - 1;
      }
    }

    method OneOther(which: nat, generation: nat, enabled: bool, at: int, occurrence: Occurrence)
      requires Valid()
      modifies this
      ensures Valid() && stage == old(stage) && accepted == old(accepted)
      ensures |steps| == |old(steps)| + 1 && old(steps) <= steps && !steps[|old(steps)|].Begin?
              && !steps[|old(steps)|].Turn?
    {
      hide IsRun;
      ghost var before := System(Contents(), stage);
      if which == 0 {
        var _ := EnsureTriggerState(generation, enabled, at);
        Log(Ensure(generation, enabled, at), before, stage);
      } else if which == 1 {
        SetTriggerEnabled(enabled);
        Log(SetEnabled(enabled), before, stage);
      } else {
        if occurrence in receipts {
          receipts := receipts[occurrence := false];
        }
        Log(RunEnds(occurrence), before, stage);
      }
    }

    /** Between two calls of a pass: everyone else writes, and the daemon may crash, unless it is quiet. */
    method Pause(quiet: bool) returns (crashed: bool)
      requires Valid()
      modifies this
      ensures Valid() && stage == (if crashed then Resting else old(stage)) && accepted == old(accepted)
              && old(steps) <= steps
      ensures Alone(steps, |old(steps)|) ==> !crashed && Contents() == old(Contents())
      ensures quiet ==> Alone(steps, |old(steps)|)
    {
      hide IsRun;
      Others(quiet);
      crashed := *;
      crashed := crashed && !quiet;
      if crashed {
        ghost var earlier := steps;
        Log(Crash, System(Contents(), stage), Resting);
        assert steps[|earlier|] == Crash;
      }
    }

    // -------------------------------------------------------------- the pass

    /** The scan: every due instant up to the limit. */
    method Scan(start: int, now: int) returns (last: int, due: seq<int>)
      ensures (last, |due|) == Due(next, start, now, MAX_CATCHUP_SCAN)
      ensures last == Before(start, due, |due|)
      ensures Consecutive(next, start, due, now)
      ensures |due| == 10000 || (|due| < 10000 && next(last) > now)
    {
      hide Consecutive;
      var cursor := start;
      due := [];
      assert Consecutive(next, start, due, now) by {
        NoneYet(next, start, now);
      }
      while |due| < MAX_CATCHUP_SCAN
        invariant |due| <= MAX_CATCHUP_SCAN
        invariant cursor == Before(start, due, |due|)
        invariant Consecutive(next, start, due, now)
        invariant var (l, c) := Due(next, cursor, now, MAX_CATCHUP_SCAN - |due|);
                  Due(next, start, now, MAX_CATCHUP_SCAN) == (l, c + |due|)
      {
        var instant := next(cursor);
        if instant > now {
          break;
        }
        OneMoreDue(next, start, due, now);
        due := due + [instant];
        cursor := instant;
      }
      last := cursor;
    }

    /** One call of a pass that has selected an instant: looking it up, unless it is past its deadline. */
    method LookUp(pass: Pass, selected: int, quiet: bool) returns (crashed: bool)
      requires Valid() && stage == Selected(pass, selected)
      modifies this
      ensures Valid() && old(steps) <= steps && accepted == old(accepted)
      ensures if crashed then stage == Resting
              else stage in {Advancing(pass, selected), Checking(pass, selected), Accepting(pass, selected)}
      ensures stage.Checking? || stage.Accepting? ==> pass.now - selected <= pass.deadline
      ensures Alone(steps, |old(steps)|) ==> !crashed && (Contents(), stage) == old(Turned(Contents(), stage))
      ensures quiet ==> Alone(steps, |old(steps)|)
    {
      hide IsRun;
      var occurrence := Occurrence(pass.generation, selected);
      crashed := Pause(quiet);
      if crashed {
        return;
      }
      ghost var before, earlier := System(Contents(), stage), steps;
      if pass.now - selected > pass.deadline {
        RecordTriggerSkip(occurrence, "misfire-deadline");
        Log(Turn, before, Advancing(pass, selected));
      } else if occurrence in receipts {
        Log(Turn, before, Advancing(pass, selected));
      } else {
        Log(Turn, before, if pass.forbid then Checking(pass, selected) else Accepting(pass, selected));
      }
      AloneBefore(earlier, steps, |old(steps)|);
    }

    method CheckActive(pass: Pass, selected: int, quiet: bool) returns (crashed: bool)
      requires Valid() && stage == Checking(pass, selected)
      modifies this
      ensures Valid() && old(steps) <= steps && accepted == old(accepted)
      ensures if crashed then stage == Resting else stage in {Skipping(pass, selected), Accepting(pass, selected)}
      ensures Alone(steps, |old(steps)|) ==> !crashed && (Contents(), stage) == old(Turned(Contents(), stage))
      ensures quiet ==> Alone(steps, |old(steps)|)
    {
      hide IsRun;
      crashed := Pause(quiet);
      if !crashed {
        ghost var before, earlier := System(Contents(), stage), steps;
        var active := AnyActive(Contents());
        Log(Turn, before, if active then Skipping(pass, selected) else Accepting(pass, selected));
        AloneBefore(earlier, steps, |old(steps)|);
      }
    }

    method SkipActive(pass: Pass, selected: int, quiet: bool) returns (crashed: bool)
      requires Valid() && stage == Skipping(pass, selected)
      modifies this
      ensures Valid() && old(steps) <= steps && accepted == old(accepted)
      ensures stage == if crashed then Resting else Advancing(pass, selected)
      ensures Alone(steps, |old(steps)|) ==> !crashed && (Contents(), stage) == old(Turned(Contents(), stage))
      ensures quiet ==> Alone(steps, |old(steps)|)
    {
      hide IsRun;
      crashed := Pause(quiet);
      if !crashed {
        ghost var before, earlier := System(Contents(), stage), steps;
        RecordTriggerSkip(Occurrence(pass.generation, selected), "concurrency-forbid");
        Log(Turn, before, Advancing(pass, selected));
        AloneBefore(earlier, steps, |old(steps)|);
      }
    }

    method Accept(pass: Pass, selected: int, quiet: bool) returns (crashed: bool)
      requires Valid() && stage == Accepting(pass, selected)
      modifies this
      ensures Valid() && old(steps) <= steps
      ensures accepted == old(accepted) || accepted == old(accepted) + [Occurrence(pass.generation, selected)]
      ensures stage in {Resting, Advancing(pass, selected)} && (crashed ==> stage == Resting)
      ensures Alone(steps, |old(steps)|) ==> !crashed && (Contents(), stage) == old(Turned(Contents(), stage))
      ensures quiet ==> Alone(steps, |old(steps)|)
    {
      hide IsRun;
      crashed := Pause(quiet);
      if !crashed {
        ghost var before, earlier := System(Contents(), stage), steps;
        var ok := AcceptTrigger(pass, Occurrence(pass.generation, selected));
        Log(Turn, before, if ok then Advancing(pass, selected) else Resting);
        AloneBefore(earlier, steps, |old(steps)|);
      }
    }

    method Advance(pass: Pass, selected: int, quiet: bool) returns (crashed: bool)
      requires Valid() && stage == Advancing(pass, selected)
      modifies this
      ensures Valid() && old(steps) <= steps && accepted == old(accepted) && stage == Resting
      ensures Alone(steps, |old(steps)|) ==> !crashed && Contents() == old(Advanced(Contents(), selected))
      ensures quiet ==> Alone(steps, |old(steps)|)
    {
      hide IsRun;
      crashed := Pause(quiet);
      if !crashed {
        ghost var before, earlier := System(Contents(), stage), steps;
        AdvanceTriggerCursor(selected);
        Log(Turn, before, Resting);
        AloneBefore(earlier, steps, |old(steps)|);
      }
    }

    /** From the selected instant to the decision about it. */
    method Decide(pass: Pass, selected: int, quiet: bool) returns (crashed: bool)
      requires Valid() && stage == Selected(pass, selected)
      modifies this
      ensures Valid() && old(steps) <= steps
      ensures stage in {Resting, Advancing(pass, selected)} && (crashed ==> stage == Resting)
      ensures accepted == old(accepted) ||
              (accepted == old(accepted) + [Occurrence(pass.generation, selected)]
                  && pass.now - selected <= pass.deadline)
      ensures Alone(steps, |old(steps)|) && old(Undisturbed(Contents(), pass)) ==>
                !crashed && (Contents(), stage != Resting) == old(Decided(Contents(), pass, selected))
      ensures quiet ==> Alone(steps, |old(steps)|)
    {
      hide IsRun, AnyActive, Alone, Accepted, Skipped;
      crashed := LookUp(pass, selected, quiet);
      if stage == Checking(pass, selected) {
        ghost var earlier := steps;
        crashed := CheckActive(pass, selected, quiet);
        AloneBefore(earlier, steps, |old(steps)|);
      }
      if stage == Skipping(pass, selected) {
        ghost var earlier := steps;
        crashed := SkipActive(pass, selected, quiet);
        AloneBefore(earlier, steps, |old(steps)|);
      } else if stage == Accepting(pass, selected) {
        ghost var earlier := steps;
        crashed := Accept(pass, selected, quiet);
        AloneBefore(earlier, steps, |old(steps)|);
      }
    }

    /** The first call of a pass, and the scan from the cursor it finds: an early end, or the instant selected. */
    method BeginPass(pass: Pass) returns (outcome: Outcome, last: int)
      requires Valid() && stage == Resting
      modifies this
      ensures Valid() && accepted == old(accepted) && steps == old(steps) + [Begin(pass)]
      ensures Alone(steps, |old(steps)|)
      ensures (Contents(), stage, outcome) == Begun(old(Contents()), next, pass)
      ensures stage == Resting || stage == Selected(pass, last)
    {
      hide IsRun, Due;
      ghost var before := System(Contents(), stage);
      last := pass.now;
      var later := Resting;
      var state := EnsureTriggerState(pass.generation, pass.enabled, pass.now);
      if state.None? {
        outcome := Stale;
      } else if !state.value.enabled {
        outcome := Disabled;
      } else {
        var due: seq<int>;
        last, due := Scan(state.value.cursor, pass.now);
        if |due| == MAX_CATCHUP_SCAN && next(last) <= pass.now {
          outcome := Exceeded;
        } else if |due| == 0 {
          outcome := Done;
        } else {
          outcome, later := Done, Selected(pass, due[|due| - 1]);
        }
      }
      Log(Begin(pass), before, later);
    }

    /**
     * One pass over the Trigger, with everyone else writing and crashes possible between any two calls. It is a
     * stretch of a run of the system and accepts at most one occurrence, due and within its deadline. With nobody else
     * writing and no crash, as when it is `quiet`, it is the pass in one go.
     */
    method ReconcileSchedule(pass: Pass, quiet: bool) returns (outcome: Outcome)
      requires Valid() && stage == Resting && IsSchedule(next)
      modifies this
      ensures Valid() && stage == Resting && old(steps) <= steps
      ensures accepted == old(accepted) ||
              exists instant :: accepted == old(accepted) + [Occurrence(pass.generation, instant)]
                  && instant <= pass.now <= instant + pass.deadline
      ensures Alone(steps, |old(steps)|) ==> (Contents(), outcome) == Reconciled(old(Contents()), next, pass)
      ensures quiet ==> Alone(steps, |old(steps)|) && Passes(old(Contents()), next, pass, Contents(), outcome)
    {
      hide IsRun, Begun, Decided, IsSchedule, Alone, Passes;
      var last: int;
      BegunFacts(Contents(), next, pass);
      PassDoes(Contents(), next, pass);
      outcome, last := BeginPass(pass);
      AloneBefore(old(steps), steps, |old(steps)|);
      if stage == Resting {
        return;
      }
      DecidedFacts(Contents(), pass, last);
      ghost var earlier := steps;
      var crashed := Decide(pass, last, quiet);
      AloneBefore(earlier, steps, |old(steps)|);
      if stage == Resting {
        return if crashed then Crashed else NotAccepted;
      }
      earlier := steps;
      crashed := Advance(pass, last, quiet);
      AloneBefore(earlier, steps, |old(steps)|);
      outcome := if crashed then Crashed else Done;
    }
  }
}
