/** What no later transaction can undo: receipts, finished starts, ended Runs. */
module Permanence {
  import opened Compiler
  import opened RunLog
  import opened Ledger
  import opened LedgerFacts

  /** No start command of the Run is left to dispatch. */
  ghost predicate StartOver(t: Tables, run: Uid) {
    run < t.nextUid && !StartLeft(t, run)
  }

  /** The Run is not alive and can never become so. */
  ghost predicate Closed(t: Tables, run: Uid) {
    && run < t.nextUid && !Alive(t, run)
    && (run !in t.runs ==> forall id :: id in t.outbox ==> !IsStart(t, id, run))
  }

  /** The Run has ended, if it is still there, and cannot be started again: what retention may prune. */
  ghost predicate Retired(t: Tables, run: Uid) {
    StartOver(t, run) && !Alive(t, run)
  }

  /** Facts about one Run and one occurrence that hold from now on if they hold now. */
  ghost predicate Lasting(before: Tables, after: Tables, run: Uid, key: Key) {
    && (Lookup(before, key).Some? ==> Lookup(after, key) == Lookup(before, key))
    && (StartOver(before, run) ==> StartOver(after, run))
    && (Closed(before, run) ==> Closed(after, run))
    && (Retired(before, run) ==> Retired(after, run))
    && (Closed(before, run) && run !in before.cancellations ==> run !in after.cancellations)
    && (Closed(before, run) && run in before.runs && run in after.runs ==>
          after.runs[run].log.phase == before.runs[run].log.phase)
    && (Closed(before, run) && run !in before.runs ==> run !in after.runs)
  }

  lemma LookupLasts(t: Tables, move: Move, key: Key)
    requires OneRecord(t) && !move.Collecting? && Lookup(t, key).Some?
    ensures Lookup(Apply(t, move), key) == Lookup(t, key)
  {
  }

  lemma StartOverLasts(t: Tables, move: Move, run: Uid)
    requires Issued(t) && Allowed(t, move) && !move.Collecting? && StartOver(t, run)
    ensures StartOver(Apply(t, move), run)
  {
    hide Appended, WithEvidence, WithCancellation, Opened, Terminal, Lookup;
    var next := Apply(t, move);
    forall id | id in next.outbox && IsStart(next, id, run) ensures next.outbox[id].state == CommandState.Completed {
      assert IsStart(t, id, run) ==> t.outbox[id].state == CommandState.Completed;
    }
  }

  lemma ClosedLasts(t: Tables, move: Move, run: Uid)
    requires Issued(t) && Allowed(t, move) && !move.Collecting? && Closed(t, run)
    ensures var next := Apply(t, move);
            && Closed(next, run) && (run in next.runs <==> run in t.runs)
            && (run in next.runs ==> next.runs[run].log.phase == t.runs[run].log.phase)
  {
    hide Apply, Allowed;
    if run in t.runs {
      EndedLasts(t, move, run);
    } else {
      AbsentLasts(t, move, run);
    }
  }

  lemma EndedLasts(t: Tables, move: Move, run: Uid)
    requires Issued(t) && Allowed(t, move) && !move.Collecting? && Closed(t, run) && run in t.runs
    ensures var next := Apply(t, move);
            Closed(next, run) && run in next.runs && next.runs[run].log.phase == t.runs[run].log.phase
  {
    hide Opened, Issued, Allowed;
  }

  lemma AbsentLasts(t: Tables, move: Move, run: Uid)
    requires Issued(t) && Allowed(t, move) && !move.Collecting? && Closed(t, run) && run !in t.runs
    ensures Closed(Apply(t, move), run) && run !in Apply(t, move).runs
  {
    hide Opened, Appended, WithEvidence, WithCancellation;
  }

  lemma ClosedUncancelled(t: Tables, move: Move, run: Uid)
    requires Projections(t) && Allowed(t, move) && !move.Collecting? && Closed(t, run) && run !in t.cancellations
    ensures run !in Apply(t, move).cancellations
  {
    hide Opened, Appended, WithEvidence, WithCancellation;
    if run in t.runs {
      PhaseFollowsCancellation(t.runs[run].log, run in t.cancellations);
    }
    hide Projected, Projections;
  }

  lemma RetiredClosed(t: Tables, run: Uid)
    requires Retired(t, run) && RunsBacked(t)
    ensures Closed(t, run)
  {
    assert forall id :: id in t.outbox && IsStart(t, id, run) ==> t.outbox[id].state == CommandState.Completed;
  }

  lemma MoveLasts(t: Tables, move: Move, run: Uid, key: Key)
    requires Sound(t) && Allowed(t, move) && !move.Collecting?
    ensures Lasting(t, Apply(t, move), run, key)
  {
    hide OneRecord, Issued, OneCommand, Backed, RunsBacked, Projections, Apply, Allowed, StartOver, Closed, Lookup,
         Alive;
    if Lookup(t, key).Some? {
      LookupLasts(t, move, key);
    }
    if StartOver(t, run) {
      StartOverLasts(t, move, run);
    }
    if Closed(t, run) {
      ClosedLasts(t, move, run);
      if run !in t.cancellations {
        ClosedUncancelled(t, move, run);
      }
    }
    if Retired(t, run) {
      RetiredClosed(t, run);
      ClosedLasts(t, move, run);
      ClosedNotAlive(Apply(t, move), run);
    }
  }

  lemma ClosedNotAlive(t: Tables, run: Uid)
    requires Closed(t, run)
    ensures !Alive(t, run)
  {
  }

  lemma RemovedLasts(t: Tables, removed: Uid, run: Uid, key: Key)
    requires Sound(t) && removed in t.runs && Collectable(t, removed)
    ensures Lasting(t, Removed(t, removed), run, key)
  {
    hide Issued, OneCommand, Backed, RunsBacked, Projections;
    var next := Removed(t, removed);
    if StartOver(t, run) {
      forall id | id in next.outbox && IsStart(next, id, run) ensures next.outbox[id].state == CommandState.Completed {
        assert IsStart(t, id, run) ==> t.outbox[id].state == CommandState.Completed;
      }
    }
    assert run in next.runs ==> next.runs[run] == t.runs[run];
    assert forall id :: id in next.outbox ==>
        id in t.outbox && next.outbox[id] == t.outbox[id] && next.outbox[id].run != removed;
  }

  lemma {:induction false} CollectLasts(t: Tables, runs: seq<Uid>, run: Uid, key: Key)
    requires Sound(t)
    ensures Collect(t, runs).Some? ==> Lasting(t, Collect(t, runs).value, run, key)
    decreases |runs|
  {
    hide Sound, Removed, Lookup, StartOver, Closed, Retired, Collectable;
    if runs != [] {
      if runs[0] !in t.runs {
        CollectLasts(t, runs[1..], run, key);
      } else if Collectable(t, runs[0]) {
        RemovedSound(t, runs[0]);
        RemovedLasts(t, runs[0], run, key);
        CollectLasts(Removed(t, runs[0]), runs[1..], run, key);
      }
    }
  }

  lemma ApplyLasts(t: Tables, move: Move, run: Uid, key: Key)
    requires Sound(t) && Allowed(t, move)
    ensures Lasting(t, Apply(t, move), run, key)
  {
    hide Sound, StartOver, Closed, Retired, Lookup, Allowed;
    if move.Collecting? {
      CollectLasts(t, move.runs, run, key);
    } else {
      MoveLasts(t, move, run, key);
    }
  }

  // ---------------------------------------------------------------- runs of transactions

  ghost function ApplyAll(t: Tables, moves: seq<Move>): Tables {
    if moves == [] then t else Apply(ApplyAll(t, moves[..|moves| - 1]), moves[|moves| - 1])
  }

  ghost predicate AllowedAll(t: Tables, moves: seq<Move>) {
    moves == [] || (AllowedAll(t, moves[..|moves| - 1])
        && Allowed(ApplyAll(t, moves[..|moves| - 1]), moves[|moves| - 1]))
  }

  lemma {:induction false} RunSound(t: Tables, moves: seq<Move>)
    requires Sound(t) && AllowedAll(t, moves)
    ensures Sound(ApplyAll(t, moves))
  {
    hide Sound, Apply, Allowed;
    if moves != [] {
      RunSound(t, moves[..|moves| - 1]);
      ApplySound(ApplyAll(t, moves[..|moves| - 1]), moves[|moves| - 1]);
    }
  }

  lemma {:induction false} RunLasts(t: Tables, moves: seq<Move>, run: Uid, key: Key)
    requires Sound(t) && AllowedAll(t, moves)
    ensures Lookup(t, key).Some? ==> Lookup(ApplyAll(t, moves), key) == Lookup(t, key)
    ensures Retired(t, run) ==> Retired(ApplyAll(t, moves), run)
  {
    hide Sound, Apply, Allowed, Lookup, Retired, StartOver, Closed;
    if moves != [] {
      var before := moves[..|moves| - 1];
      RunSound(t, before);
      RunLasts(t, before, run, key);
      ApplyLasts(ApplyAll(t, before), moves[|moves| - 1], run, key);
    }
  }

  lemma EmptySound()
    ensures Sound(EMPTY)
  {
  }

  /**
   * Once an occurrence has a receipt, then after any run of transactions, collections included, accepting it again
   * changes nothing and can only return that receipt.
   */
  lemma DeduplicationSurvives(t: Tables, moves: seq<Move>, key: Key, plan: PlanHash, run: Uid, valid: bool, fit: bool)
    requires Sound(t) && AllowedAll(t, moves) && Lookup(t, key).Some?
    ensures var later := ApplyAll(t, moves);
            var start, signal := AcceptStart(later, key, plan, valid, fit), AcceptSignal(later, key, run, valid, fit);
            && start.0 == later && signal.0 == later
            && (start.1 == if valid then Receipted(Lookup(t, key).value, true) else Refused)
            && (signal.1 == if valid then Receipted(Lookup(t, key).value, true) else Refused)
            && OneRecord(later)
  {
    hide Lookup, Apply, Allowed, AllowedAll, Issued, OneCommand, Backed, RunsBacked, Projections;
    RunLasts(t, moves, run, key);
    RunSound(t, moves);
  }

  /** A fresh acceptance makes exactly one command, and its receipt is found again under its occurrence. */
  lemma AcceptanceIsFound(t: Tables, key: Key, plan: PlanHash)
    requires Sound(t) && Lookup(t, key).None?
    ensures var (next, result) := AcceptStart(t, key, plan, true, true);
            && result.Receipted? && !result.existing && Lookup(next, key) == Some(result.receipt)
            && next.outbox.Keys == t.outbox.Keys + {t.nextCommand} && t.nextCommand !in t.outbox
            && CommandOf(next, result.receipt, t.nextCommand)
            && (forall k :: Lookup(t, k).Some? ==>
                  Lookup(t, k).value.uid != result.receipt.uid && Lookup(t, k).value.run != result.receipt.run)
  {
    hide OneCommand, Backed, RunsBacked, Projections;
  }
}
