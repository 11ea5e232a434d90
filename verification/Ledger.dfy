/** The durable tables behind acceptance, dispatch, cancellation and retention, and the transactions over them. */
module Ledger {
  import opened Compiler
  import opened RunLog

  type Uid = nat
  type PlanHash = string

  /** A trigger together with one of its occurrences. */
  datatype Key = Key(trigger: string, occurrence: string)

  /** `starts` tells an accepted start from an accepted signal to a running Run. */
  datatype Receipt = Receipt(uid: Uid, run: Uid, starts: bool)

  datatype CommandState = Waits | Inflight | Completed

  datatype Command = Command(starts: bool, run: Uid, receipt: Uid, plan: PlanHash, state: CommandState)

  datatype RunRow = RunRow(receipt: Uid, plan: PlanHash, log: Log)

  datatype Cancellation = Cancellation(reason: string, delivered: bool)

  datatype Tables = Tables(receipts: map<Key, Receipt>, tombstones: map<Key, Receipt>, outbox: map<nat, Command>,
                           nextCommand: nat,
                           runs: map<Uid, RunRow>, plans: set<PlanHash>, cancellations: map<Uid, Cancellation>,
                               nextUid: Uid)

  datatype Acceptance = Refused | Receipted(receipt: Receipt, existing: bool)

  const EMPTY := Tables(map[], map[], map[], 0, map[], {}, map[], 0)

  // ---------------------------------------------------------------- the transactions, as functions on the tables

  /** A live receipt, or what retention kept of a collected one. */
  function Lookup(t: Tables, key: Key): Option<Receipt> {
    if key in t.receipts then Some(t.receipts[key])
    else if key in t.tombstones then Some(t.tombstones[key])
    else None
  }

  /**
   * `valid`: the Trigger still has the generation, state and reference; `current`: the plan is of the Flow's current
   * generation.
   */
  function AcceptStart(t: Tables, key: Key, plan: PlanHash, valid: bool, current: bool): (Tables, Acceptance) {
    if !valid then (t, Refused)
    else if Lookup(t, key).Some? then (t, Receipted(Lookup(t, key).value, true))
    else if !current then (t, Refused)
    else
      var receipt := Receipt(t.nextUid, t.nextUid + 1, true);
      (t.(plans := t.plans + {plan}, receipts := t.receipts[key := receipt], nextUid := t.nextUid + 2,
          nextCommand := t.nextCommand + 1,
          outbox := t.outbox[t.nextCommand := Command(true, receipt.run, receipt.uid, plan, Waits)]),
       Receipted(receipt, false))
  }

  predicate Ended(t: Tables, run: Uid) {
    run in t.runs && Terminal(t.runs[run].log.phase)
  }

  predicate Alive(t: Tables, run: Uid) {
    run in t.runs && !Terminal(t.runs[run].log.phase)
  }

  /** `target`: the pinned plan belongs to the Trigger's Flow and the node waits for events. */
  function AcceptSignal(t: Tables, key: Key, run: Uid, valid: bool, target: bool): (Tables, Acceptance) {
    if !valid then (t, Refused)
    else if Lookup(t, key).Some? then (t, Receipted(Lookup(t, key).value, true))
    else if !Alive(t, run) || !target then (t, Refused)
    else
      var receipt := Receipt(t.nextUid, run, false);
      (t.(receipts := t.receipts[key := receipt], nextUid := t.nextUid + 1, nextCommand := t.nextCommand + 1,
          outbox := t.outbox[t.nextCommand := Command(false, run, receipt.uid, "", Waits)]),
       Receipted(receipt, false))
  }

  function Dispatch(t: Tables, id: nat, state: CommandState): Tables {
    if id in t.outbox then t.(outbox := t.outbox[id := t.outbox[id].(state := state)]) else t
  }

  predicate IsStart(t: Tables, id: nat, run: Uid) {
    id in t.outbox && t.outbox[id].starts && t.outbox[id].run == run
  }

  /** Completes a start whose Run has been cancelled. */
  function Suppress(t: Tables, id: nat, run: Uid): (Tables, bool) {
    if IsStart(t, id, run) && run in t.cancellations then (Dispatch(t, id, CommandState.Completed), true)
        else (t, false)
  }

  function EnsureRun(t: Tables, command: Command): (Tables, bool) {
    if command.run in t.runs then (t, false) else
      (t.(plans := t.plans + {command.plan}, runs :=
          t.runs[command.run := RunRow(command.receipt, command.plan, Opened())]), true)
  }

  function AppendEvent(t: Tables, run: Uid, node: string, attempt: nat, eventType: string,
                       phase: Phase): Option<Tables> {
    if run !in t.runs then None else
      Some(t.(runs := t.runs[run := t.runs[run].(log := Appended(t.runs[run].log, node, attempt, eventType, phase))]))
  }

  function AppendEvidence(t: Tables, run: Uid, node: string, attempt: nat, eventType: string): Option<Tables> {
    if run !in t.runs then None else
      Some(t.(runs := t.runs[run := t.runs[run].(log := WithEvidence(t.runs[run].log, node, attempt, eventType))]))
  }

  /** A Run that ended otherwise is left alone; a repeated request keeps the first reason. */
  function RequestCancellation(t: Tables, run: Uid, reason: string): Option<Tables> {
    if run !in t.runs then None
    else if t.runs[run].log.phase != Phase.Cancelled && Terminal(t.runs[run].log.phase) then Some(t)
    else if run in t.cancellations then Some(t)
    else Some(t.(cancellations := t.cancellations[run := Cancellation(reason, false)],
                 runs := t.runs[run := t.runs[run].(log := WithCancellation(t.runs[run].log, reason))]))
  }

  function MarkDelivered(t: Tables, run: Uid): Tables {
    if run in t.cancellations then
        t.(cancellations := t.cancellations[run := t.cancellations[run].(delivered := true)]) else t
  }

  predicate StartLeft(t: Tables, run: Uid) {
    exists id :: id in t.outbox && IsStart(t, id, run) && t.outbox[id].state != CommandState.Completed
  }

  predicate WorkLeft(t: Tables, run: Uid) {
    exists id :: id in t.outbox && t.outbox[id].run == run && t.outbox[id].state != CommandState.Completed
  }

  /** Acknowledges a missing workflow only when no start command can still create it. */
  function MarkIfImpossible(t: Tables, run: Uid): (Tables, bool) {
    if run in t.cancellations && !t.cancellations[run].delivered
        && !StartLeft(t, run) then (MarkDelivered(t, run), true) else (t, false)
  }

  /** Removes one Run with everything it owns; its receipts become tombstones. */
  function Removed(t: Tables, run: Uid): Tables
    requires run in t.runs
  {
    var runs := t.runs - {run};
    var plan := t.runs[run].plan;
    t.(receipts := map key | key in t.receipts && t.receipts[key].run != run :: t.receipts[key],
       tombstones := (map key | key in t.receipts && t.receipts[key].run == run :: t.receipts[key]) + t.tombstones,
       outbox := map id | id in t.outbox && t.outbox[id].run != run :: t.outbox[id],
       runs := runs,
       plans := if exists r :: r in runs && runs[r].plan == plan then t.plans else t.plans - {plan},
       cancellations := t.cancellations - {run})
  }

  predicate Collectable(t: Tables, run: Uid) {
    Ended(t, run) && !WorkLeft(t, run)
  }

  /** All or nothing; a Run already gone is passed over. */
  function Collect(t: Tables, runs: seq<Uid>): Option<Tables>
    decreases |runs|
  {
    if runs == [] then Some(t)
    else if runs[0] !in t.runs then Collect(t, runs[1..])
    else if !Collectable(t, runs[0]) then None
    else Collect(Removed(t, runs[0]), runs[1..])
  }

  // ---------------------------------------------------------------- the store

  /** The store: one field per table, each method one transaction. */
  class Store {
    var receipts: map<Key, Receipt>
    var tombstones: map<Key, Receipt>
    var outbox: map<nat, Command>
    var nextCommand: nat
    var runs: map<Uid, RunRow>
    var plans: set<PlanHash>
    var cancellations: map<Uid, Cancellation>
    var nextUid: Uid

    constructor ()
      ensures Contents() == EMPTY
    {
      receipts, tombstones, outbox, nextCommand := map[], map[], map[], 0;
      runs, plans, cancellations, nextUid := map[], {}, map[], 0;
    }

    function Contents(): Tables
      reads this
    {
      Tables(receipts, tombstones, outbox, nextCommand, runs, plans, cancellations, nextUid)
    }

    method NewUid() returns (uid: Uid)
      modifies this`nextUid
      ensures uid == old(nextUid) && nextUid == uid + 1
    {
      uid := nextUid;
      nextUid := nextUid + 1;
    }

    method InsertCommand(command: Command)
      modifies this`outbox, this`nextCommand
      ensures outbox == old(outbox)[old(nextCommand) := command] && nextCommand == old(nextCommand) + 1
    {
      outbox := outbox[nextCommand := command];
      nextCommand := nextCommand + 1;
    }

    /** receiptByOccurrence: the live table first, then the tombstones. */
    method ReceiptByOccurrence(key: Key) returns (receipt: Option<Receipt>)
      ensures receipt == Lookup(Contents(), key)
    {
      if key in receipts {
        return Some(receipts[key]);
      }
      if key in tombstones {
        return Some(tombstones[key]);
      }
      return None;
    }

    method AcceptTrigger(key: Key, plan: PlanHash, valid: bool, current: bool) returns (result: Acceptance)
      modifies this
      ensures (Contents(), result) == AcceptStart(old(Contents()), key, plan, valid, current)
    {
      if !valid {
        return Refused;
      }
      var existing := ReceiptByOccurrence(key);
      if existing.Some? {
        return Receipted(existing.value, true);
      }
      if !current {
        return Refused;
      }
      plans := plans + {plan};
      var uid := NewUid();
      var run := NewUid();
      var receipt := Receipt(uid, run, true);
      receipts := receipts[key := receipt];
      InsertCommand(Command(true, run, uid, plan, Waits));
      return Receipted(receipt, false);
    }

    method AcceptProviderSignal(key: Key, run: Uid, valid: bool, target: bool) returns (result: Acceptance)
      modifies this
      ensures (Contents(), result) == AcceptSignal(old(Contents()), key, run, valid, target)
    {
      if !valid {
        return Refused;
      }
      var existing := ReceiptByOccurrence(key);
      if existing.Some? {
        return Receipted(existing.value, true);
      }
      if run !in runs || Terminal(runs[run].log.phase) || !target {
        return Refused;
      }
      var uid := NewUid();
      var receipt := Receipt(uid, run, false);
      receipts := receipts[key := receipt];
      InsertCommand(Command(false, run, uid, "", Waits));
      return Receipted(receipt, false);
    }

    /** Claims the oldest command that is due; `due` holds what the clock allows, stale claims included. */
    method ClaimNext(due: set<nat>) returns (id: Option<nat>)
      modifies this`outbox
      requires forall i :: i in outbox ==> i < nextCommand
      ensures id.Some? ==>
                && id.value in due && id.value in old(outbox) && old(outbox)[id.value].state != CommandState.Completed
                && (forall i :: i in due && i in old(outbox) && old(outbox)[i].state != CommandState.Completed ==>
                      id.value <= i)
                && Contents() == Dispatch(old(Contents()), id.value, Inflight)
      ensures id.None? ==>
                && Contents() == old(Contents())
                && forall i :: i in due && i in outbox ==> outbox[i].state == CommandState.Completed
    {
      for i := 0 to nextCommand
        invariant outbox == old(outbox)
        invariant forall j :: 0 <= j < i && j in due && j in outbox ==> outbox[j].state == CommandState.Completed
      {
        if i in due && i in outbox && outbox[i].state != CommandState.Completed {
          outbox := outbox[i := outbox[i].(state := Inflight)];
          return Some(i);
        }
      }
      return None;
    }

    method SetState(id: nat, state: CommandState)
      modifies this`outbox
      ensures Contents() == Dispatch(old(Contents()), id, state)
    {
      if id in outbox {
        outbox := outbox[id := outbox[id].(state := state)];
      }
    }

    method CompleteStartIfRunCancelled(id: nat, run: Uid) returns (updated: bool)
      modifies this`outbox
      ensures (Contents(), updated) == Suppress(old(Contents()), id, run)
    {
      updated := id in outbox && outbox[id].starts && outbox[id].run == run && run in cancellations;
      if updated {
        SetState(id, CommandState.Completed);
      }
    }

    method OpenRun(command: Command) returns (created: bool)
      modifies this`runs, this`plans
      ensures (Contents(), created) == EnsureRun(old(Contents()), command)
    {
      if command.run in runs {
        return false;
      }
      plans := plans + {command.plan};
      runs := runs[command.run := RunRow(command.receipt, command.plan,
          Log(Pending, [Event(1, "", 0, What.Accepted)]))];
      return true;
    }

    method NextSequence(events: seq<Event>) returns (sequence: nat)
      ensures sequence == MaxSequence(events) + 1
    {
      var max := 0;
      for i := 0 to |events|
        invariant max == MaxSequence(events[..i])
      {
        assert events[..i + 1][..i] == events[..i];
        if events[i].sequence > max {
          max := events[i].sequence;
        }
      }
      assert events[..|events|] == events;
      sequence := max + 1;
    }

    method AppendRunEvent(run: Uid, node: string, attempt: nat, eventType: string, phase: Phase) returns (found: bool)
      modifies this`runs
      ensures found <==> AppendEvent(old(Contents()), run, node, attempt, eventType, phase).Some?
      ensures Contents() == if found then AppendEvent(old(Contents()), run, node, attempt, eventType, phase).value
              else old(Contents())
    {
      if run !in runs {
        return false;
      }
      var row := runs[run];
      if !Terminal(row.log.phase) {
        var sequence := NextSequence(row.log.events);
        row := row.(log := Log(phase, row.log.events + [Event(sequence, node, attempt, Moved(eventType, phase))]));
      }
      runs := runs[run := row];
      return true;
    }

    method AppendPluginEvidence(run: Uid, node: string, attempt: nat, eventType: string) returns (found: bool)
      modifies this`runs
      ensures found <==> AppendEvidence(old(Contents()), run, node, attempt, eventType).Some?
      ensures Contents() == if found then AppendEvidence(old(Contents()), run, node, attempt, eventType).value
              else old(Contents())
    {
      if run !in runs {
        return false;
      }
      var row := runs[run];
      var sequence := NextSequence(row.log.events);
      runs := runs[run := row.(log :=
          row.log.(events := row.log.events + [Event(sequence, node, attempt, Evidence(eventType))]))];
      return true;
    }

    method RequestRunCancellation(run: Uid, reason: string) returns (found: bool)
      modifies this`runs, this`cancellations
      ensures found <==> RequestCancellation(old(Contents()), run, reason).Some?
      ensures Contents() == if found then RequestCancellation(old(Contents()), run, reason).value else old(Contents())
    {
      if run !in runs {
        return false;
      }
      var row := runs[run];
      if row.log.phase != Phase.Cancelled && Terminal(row.log.phase) {
        return true;
      }
      if run in cancellations {
        return true;
      }
      cancellations := cancellations[run := Cancellation(reason, false)];
      var sequence := NextSequence(row.log.events);
      runs := runs[run := row.(log :=
          Log(Phase.Cancelled, row.log.events + [Event(sequence, "", 0, Stopped(reason))]))];
      return true;
    }

    method MarkRunCancellationDelivered(run: Uid)
      modifies this`cancellations
      ensures Contents() == MarkDelivered(old(Contents()), run)
    {
      if run in cancellations {
        cancellations := cancellations[run := cancellations[run].(delivered := true)];
      }
    }

    method MarkRunCancellationDeliveredIfStartImpossible(run: Uid) returns (updated: bool)
      modifies this`cancellations
      ensures (Contents(), updated) == MarkIfImpossible(old(Contents()), run)
    {
      updated := run in cancellations && !cancellations[run].delivered;
      if updated && exists id ::
          id in outbox && outbox[id].starts && outbox[id].run == run && outbox[id].state != CommandState.Completed {
        assert StartLeft(Contents(), run) by {
          var id :| id in outbox && outbox[id].starts && outbox[id].run == run
              && outbox[id].state != CommandState.Completed;
          assert IsStart(Contents(), id, run);
        }
        updated := false;
      }
      if updated {
        MarkRunCancellationDelivered(run);
      }
    }

    /** Deletes one Run inside the collecting transaction. */
    method RemoveRun(run: Uid)
      requires run in runs
      modifies this
      ensures Contents() == Removed(old(Contents()), run)
    {
      cancellations := cancellations - {run};
      outbox := map id | id in outbox && outbox[id].run != run :: outbox[id];
      var plan := runs[run].plan;
      tombstones := (map key | key in receipts && receipts[key].run == run :: receipts[key]) + tombstones;
      runs := runs - {run};
      receipts := map key | key in receipts && receipts[key].run != run :: receipts[key];
      if !exists r :: r in runs && runs[r].plan == plan {
        plans := plans - {plan};
      }
    }

    /** Re-checks every planned Run; any that is alive again or has work left undoes the whole transaction. */
    method CollectRetainedRuns(planned: seq<Uid>) returns (committed: bool)
      modifies this
      ensures committed <==> Collect(old(Contents()), planned).Some?
      ensures Contents() == if committed then Collect(old(Contents()), planned).value else old(Contents())
    {
      var before := Contents();
      for i := 0 to |planned|
        invariant Collect(before, planned) == Collect(Contents(), planned[i..])
      {
        assert planned[i..][0] == planned[i] && planned[i..][1..] == planned[i + 1..];
        if planned[i] in runs {
          if !Terminal(runs[planned[i]].log.phase) || exists id ::
              id in outbox && outbox[id].run == planned[i] && outbox[id].state != CommandState.Completed {
            assert !Collectable(Contents(), planned[i]);
            Rollback(before);
            return false;
          }
          RemoveRun(planned[i]);
        }
      }
      return true;
    }

    method Rollback(before: Tables)
      modifies this
      ensures Contents() == before
    {
      receipts, tombstones, outbox, nextCommand :=
          before.receipts, before.tombstones, before.outbox, before.nextCommand;
      runs, plans, cancellations, nextUid := before.runs, before.plans, before.cancellations, before.nextUid;
    }
  }
}
