/** What each transaction of the store does, told by the tables before and after. */
module LedgerEffects {
  import opened Compiler
  import opened RunLog
  import opened Ledger
  import opened LedgerFacts
  import opened Permanence

  /** The occurrence has been accepted before, whether or not its Run has been collected since. */
  predicate Known(t: Tables, key: Key) {
    key in t.receipts || key in t.tombstones
  }

  ghost predicate Remembered(t: Tables, key: Key, receipt: Receipt) {
    if key in t.receipts then receipt == t.receipts[key] else key in t.tombstones && receipt == t.tombstones[key]
  }

  /** A new receipt and one waiting command for it, with identities never used before. */
  ghost predicate Enters(t: Tables, after: Tables, key: Key, receipt: Receipt, plan: PlanHash) {
    && receipt.uid >= t.nextUid && receipt.uid < after.nextUid
    && (if receipt.starts then receipt.run >= t.nextUid && receipt.run < after.nextUid && receipt.run != receipt.uid
        else after.plans == t.plans && receipt.run < t.nextUid)
    && after.receipts == t.receipts[key := receipt] && after.tombstones == t.tombstones
    && after.runs == t.runs && after.cancellations == t.cancellations
    && exists id: nat :: id !in t.outbox && id < after.nextCommand
                    && after.outbox == t.outbox[id := Command(receipt.starts, receipt.run, receipt.uid, plan, Waits)]
  }

  /**
   * An occurrence is answered iff the Trigger is valid and the occurrence is known or the plan is current: a known one
   * with the receipt of then and nothing done, a new one with a start command whose plan is stored.
   */
  lemma AcceptStartDoes(t: Tables, key: Key, plan: PlanHash, valid: bool, current: bool)
    requires Sound(t)
    ensures var (after, result) := AcceptStart(t, key, plan, valid, current);
            && (result.Receipted? <==> valid && (Known(t, key) || current))
            && (Known(t, key) || !result.Receipted? ==> after == t)
            && (result.Receipted? && Known(t, key) ==> result.existing && Remembered(t, key, result.receipt))
            && (result.Receipted? && !Known(t, key) ==>
                  && !result.existing && result.receipt.starts && Enters(t, after, key, result.receipt, plan)
                  && after.plans == t.plans + {plan})
  {
    hide OneRecord, OneCommand, Backed, RunsBacked, Projections;
    assert t.nextCommand !in t.outbox;
  }

  /** The same for a signal, which needs a Run that is alive and a node that waits for it. */
  lemma AcceptSignalDoes(t: Tables, key: Key, run: Uid, valid: bool, target: bool)
    requires Sound(t)
    ensures var (after, result) := AcceptSignal(t, key, run, valid, target);
            var alive := run in t.runs && !Terminal(t.runs[run].log.phase);
            && (result.Receipted? <==> valid && (Known(t, key) || (alive && target)))
            && (Known(t, key) || !result.Receipted? ==> after == t)
            && (result.Receipted? && Known(t, key) ==> result.existing && Remembered(t, key, result.receipt))
            && (result.Receipted? && !Known(t, key) ==>
                  && !result.existing && !result.receipt.starts && result.receipt.run == run
                  && Enters(t, after, key, result.receipt, ""))
  {
    hide OneRecord, OneCommand, Backed, RunsBacked, Projections;
    assert t.nextCommand !in t.outbox;
  }

  /** A start is suppressed iff it is that Run's start and a cancellation is on record; then it is completed. */
  lemma SuppressDoes(t: Tables, id: nat, run: Uid)
    ensures var (after, done) := Suppress(t, id, run);
            && (done <==> run in t.cancellations && id in t.outbox && t.outbox[id].starts && t.outbox[id].run == run)
            && after == if done then t.(outbox := t.outbox[id := t.outbox[id].(state := CommandState.Completed)])
                        else t
  {
  }

  /** One event more, with the next sequence, unless the Run has ended. */
  ghost predicate Logs(before: Log, after: Log, node: string, attempt: nat, what: What, phase: Phase) {
    && after.phase == phase && |after.events| == |before.events| + 1
    && after.events == before.events + [Event(|before.events| + 1, node, attempt, what)]
  }

  /** A transition is logged and moves the Run iff the Run is there and has not ended; it is refused iff it is not. */
  lemma AppendEventDoes(t: Tables, run: Uid, node: string, attempt: nat, eventType: string, phase: Phase)
    requires Sound(t)
    ensures var after := AppendEvent(t, run, node, attempt, eventType, phase);
            && (after.Some? <==> run in t.runs)
            && (run in t.runs && Terminal(t.runs[run].log.phase) ==> after.value == t)
            && (run in t.runs && !Terminal(t.runs[run].log.phase) ==>
                  && run in after.value.runs
                  && after.value == t.(runs := t.runs[run := t.runs[run].(log := after.value.runs[run].log)])
                  && Logs(t.runs[run].log, after.value.runs[run].log, node, attempt, Moved(eventType, phase), phase))
  {
    hide OneRecord, OneCommand, Backed, RunsBacked, Issued;
    if run in t.runs {
      SequencesCount(t.runs[run].log.events);
      assert t.runs[run := t.runs[run].(log := t.runs[run].log)] == t.runs;
    }
  }

  /** Evidence is logged whenever the Run is there, and never moves it. */
  lemma AppendEvidenceDoes(t: Tables, run: Uid, node: string, attempt: nat, eventType: string)
    requires Sound(t)
    ensures var after := AppendEvidence(t, run, node, attempt, eventType);
            && (after.Some? <==> run in t.runs)
            && (run in t.runs ==>
                  && run in after.value.runs
                  && after.value == t.(runs := t.runs[run := t.runs[run].(log := after.value.runs[run].log)])
                  && Logs(t.runs[run].log, after.value.runs[run].log, node, attempt, Evidence(eventType),
                          t.runs[run].log.phase))
  {
    hide OneRecord, OneCommand, Backed, RunsBacked, Issued;
    if run in t.runs {
      SequencesCount(t.runs[run].log.events);
    }
  }

  /** A cancellation is logged with its reason iff the Run is there and has not ended. */
  lemma RequestCancellationDoes(t: Tables, run: Uid, reason: string)
    requires Sound(t)
    ensures var after := RequestCancellation(t, run, reason);
            && (after.Some? <==> run in t.runs)
            && (run in t.runs && Terminal(t.runs[run].log.phase) ==> after.value == t)
            && (run in t.runs && !Terminal(t.runs[run].log.phase) ==>
                  && run in after.value.runs
                  && after.value == t.(runs := t.runs[run := t.runs[run].(log := after.value.runs[run].log)],
                                       cancellations := t.cancellations[run := Cancellation(reason, false)])
                  && Logs(t.runs[run].log, after.value.runs[run].log, "", 0, Stopped(reason), Phase.Cancelled))
  {
    hide OneRecord, OneCommand, Backed, RunsBacked, Issued;
    if run in t.runs {
      SequencesCount(t.runs[run].log.events);
    }
  }

  /** A Run's row is made from its command, with a log of one event, iff it is not there yet. */
  lemma EnsureRunDoes(t: Tables, command: Command)
    ensures var (after, created) := EnsureRun(t, command);
            && (created <==> command.run !in t.runs) && (!created ==> after == t)
            && (created ==>
                  && command.run in after.runs
                  && after == t.(plans := t.plans + {command.plan},
                                 runs := t.runs[command.run := after.runs[command.run]])
                  && var row := after.runs[command.run];
                     && row.receipt == command.receipt && row.plan == command.plan && row.log.phase == Pending
                     && |row.log.events| == 1 && row.log.events[0].sequence == 1 && row.log.events[0].what == Accepted)
  {
  }

  /** An absent workflow is acknowledged iff a cancellation is outstanding and no start command is left. */
  lemma MarkIfImpossibleDoes(t: Tables, run: Uid)
    ensures var (after, marked) := MarkIfImpossible(t, run);
            && (marked <==>
                  && run in t.cancellations && !t.cancellations[run].delivered
                  && forall id :: id in t.outbox && t.outbox[id].starts && t.outbox[id].run == run ==>
                       t.outbox[id].state == CommandState.Completed)
            && after == if marked
                        then t.(cancellations :=
                                t.cancellations[run := Cancellation(t.cancellations[run].reason, true)])
                        else t
  {
  }

  // ---------------------------------------------------------------- collection

  /** The Run has ended and no command of it is left. */
  ghost predicate MayGo(t: Tables, run: Uid) {
    && run in t.runs && Terminal(t.runs[run].log.phase)
    && forall id :: id in t.outbox && t.outbox[id].run == run ==> t.outbox[id].state == CommandState.Completed
  }

  /** The planned Runs that are still there. */
  function Planned(t: Tables, runs: seq<Uid>): set<Uid> {
    set run | run in t.runs && run in runs
  }

  /** What is left when the Runs of a set, and what belongs to them, are gone. */
  ghost predicate Without(t: Tables, after: Tables, gone: set<Uid>) {
    && after.runs == t.runs - gone && after.cancellations == t.cancellations - gone
    && (forall id :: id in after.outbox <==> id in t.outbox && t.outbox[id].run !in gone)
    && (forall id :: id in after.outbox ==> after.outbox[id] == t.outbox[id])
    && (forall key :: key in after.receipts <==> key in t.receipts && t.receipts[key].run !in gone)
    && (forall key :: key in after.receipts ==> after.receipts[key] == t.receipts[key])
    && (forall key :: key in after.tombstones <==>
          key in t.tombstones || (key in t.receipts && t.receipts[key].run in gone))
    && (forall key :: key in after.tombstones ==>
          after.tombstones[key] == if key in t.tombstones then t.tombstones[key] else t.receipts[key])
    && after.nextUid == t.nextUid && after.nextCommand == t.nextCommand
  }

  /** A plan is dropped exactly when a Run that used it goes and none that uses it stays. */
  ghost predicate PlansWithout(t: Tables, after: Tables, gone: set<Uid>) {
    forall plan :: plan in after.plans <==>
      && plan in t.plans
      && ((exists run :: run in after.runs && after.runs[run].plan == plan)
          || forall run :: run in gone && run in t.runs ==> t.runs[run].plan != plan)
  }

  lemma RemovedDoes(t: Tables, run: Uid)
    requires OneRecord(t) && run in t.runs
    ensures Without(t, Removed(t, run), {run}) && PlansWithout(t, Removed(t, run), {run})
  {
    RemovedWithout(t, run);
    RemovedPlans(t, run);
  }

  lemma RemovedWithout(t: Tables, run: Uid)
    requires OneRecord(t) && run in t.runs
    ensures Without(t, Removed(t, run), {run})
  {
  }

  lemma RemovedPlans(t: Tables, run: Uid)
    requires run in t.runs
    ensures PlansWithout(t, Removed(t, run), {run})
  {
    var after, plan := Removed(t, run), t.runs[run].plan;
    forall p ensures p in after.plans <==>
      && p in t.plans
      && ((exists r :: r in after.runs && after.runs[r].plan == p)
          || forall r :: r in {run} && r in t.runs ==> t.runs[r].plan != p)
    {
      assert run in {run};
    }
  }

  lemma RemovedKeepsOthers(t: Tables, run: Uid, other: Uid)
    requires run in t.runs && run != other
    ensures other in Removed(t, run).runs <==> other in t.runs
    ensures MayGo(Removed(t, run), other) <==> MayGo(t, other)
  {
    var after := Removed(t, run);
    assert forall id :: id in t.outbox && t.outbox[id].run == other ==> id in after.outbox;
  }

  lemma WithoutTwice(t: Tables, middle: Tables, after: Tables, run: Uid, gone: set<Uid>)
    requires Without(t, middle, {run}) && Without(middle, after, gone)
    ensures Without(t, after, gone + {run})
  {
    assert (t.runs - {run}) - gone == t.runs - (gone + {run});
    assert (t.cancellations - {run}) - gone == t.cancellations - (gone + {run});
  }

  lemma PlansTwice(t: Tables, middle: Tables, after: Tables, run: Uid, gone: set<Uid>)
    requires Without(t, middle, {run}) && Without(middle, after, gone) && run in t.runs
    requires PlansWithout(t, middle, {run}) && PlansWithout(middle, after, gone)
    ensures PlansWithout(t, after, gone + {run})
  {
    forall plan ensures plan in after.plans <==>
      && plan in t.plans
      && ((exists r :: r in after.runs && after.runs[r].plan == plan)
          || forall r :: r in gone + {run} && r in t.runs ==> t.runs[r].plan != plan)
    {
      assert forall r :: r in after.runs ==> r in middle.runs && middle.runs[r] == after.runs[r];
      assert forall r :: r in middle.runs && r !in gone ==> r in after.runs;
      assert forall r :: r in middle.runs ==> r in t.runs && r != run && middle.runs[r] == t.runs[r];
      assert forall r :: r in t.runs && r != run ==> r in middle.runs;
      assert run in gone + {run};
    }
  }

  /**
   * Collection is all or nothing: it is refused iff one of the planned Runs that is still there may not go. Otherwise
   * they are gone with their commands and cancellations, and each of their receipts is a tombstone.
   */
  lemma {:induction false} CollectDoes(t: Tables, runs: seq<Uid>)
    requires Sound(t)
    ensures Collect(t, runs).Some? <==> forall run :: run in Planned(t, runs) ==> MayGo(t, run)
    ensures Collect(t, runs).Some? ==>
              && Without(t, Collect(t, runs).value, Planned(t, runs))
              && PlansWithout(t, Collect(t, runs).value, Planned(t, runs))
    decreases |runs|
  {
    hide Sound, Without, PlansWithout, Removed, MayGo;
    if runs == [] {
      NothingGone(t);
      assert Planned(t, runs) == {};
    } else {
      var run, rest := runs[0], runs[1..];
      assert runs == [run] + rest;
      if run !in t.runs {
        CollectDoes(t, rest);
        assert Planned(t, runs) == Planned(t, rest);
      } else {
        CollectableGoes(t, run);
        if MayGo(t, run) {
          CollectFirst(t, runs);
        }
      }
    }
  }

  lemma NothingGone(t: Tables)
    ensures Without(t, t, {}) && PlansWithout(t, t, {})
  {
  }

  lemma CollectableGoes(t: Tables, run: Uid)
    ensures Collectable(t, run) <==> MayGo(t, run)
  {
  }

  lemma CollectFirst(t: Tables, runs: seq<Uid>)
    requires Sound(t) && runs != [] && runs[0] in t.runs && MayGo(t, runs[0])
    ensures Collect(t, runs).Some? <==> forall run :: run in Planned(t, runs) ==> MayGo(t, run)
    ensures Collect(t, runs).Some? ==>
              && Without(t, Collect(t, runs).value, Planned(t, runs))
              && PlansWithout(t, Collect(t, runs).value, Planned(t, runs))
    decreases |runs|, 0
  {
    hide Sound, Without, PlansWithout, Removed, MayGo;
    var run, rest := runs[0], runs[1..];
    var middle := Removed(t, run);
    assert runs == [run] + rest;
    CollectableGoes(t, run);
    RemovedSound(t, run);
    CollectDoes(middle, rest);
    RemovedFrom(t, run);
    forall other ensures other in middle.runs <==> other in t.runs && other != run
                 ensures other != run ==> (MayGo(middle, other) <==> MayGo(t, other)) {
      if other != run {
        RemovedKeepsOthers(t, run, other);
      }
    }
    assert Planned(t, runs) == Planned(middle, rest) + {run};
    if Collect(t, runs).Some? {
      WithoutTwice(t, middle, Collect(t, runs).value, run, Planned(middle, rest));
      PlansTwice(t, middle, Collect(t, runs).value, run, Planned(middle, rest));
    }
  }

  lemma RemovedFrom(t: Tables, run: Uid)
    requires Sound(t) && run in t.runs
    ensures Without(t, Removed(t, run), {run}) && PlansWithout(t, Removed(t, run), {run})
    ensures run !in Removed(t, run).runs
  {
    hide Without, PlansWithout, Issued, OneCommand, Backed, RunsBacked, Projections;
    RemovedDoes(t, run);
  }
}
