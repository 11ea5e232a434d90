/** What every transaction keeps true of the tables. */
module LedgerFacts {
  import opened Compiler
  import opened RunLog
  import opened Ledger

  // ---------------------------------------------------------------- consistency

  /** An occurrence has a live receipt or a tombstone, never both. */
  ghost predicate OneRecord(t: Tables) {
    forall key :: key in t.receipts ==> key !in t.tombstones
  }

  /** Every identity in use was handed out before. */
  ghost predicate Issued(t: Tables) {
    && (forall key :: key in t.receipts ==> t.receipts[key].uid < t.nextUid && t.receipts[key].run < t.nextUid)
    && (forall key :: key in t.tombstones ==> t.tombstones[key].uid < t.nextUid && t.tombstones[key].run < t.nextUid)
    && (forall id :: id in t.outbox ==>
          id < t.nextCommand && t.outbox[id].run < t.nextUid && t.outbox[id].receipt < t.nextUid)
    && (forall run :: run in t.runs ==> run < t.nextUid)
  }

  /** A Run has at most one start command, and a receipt at most one command. */
  ghost predicate OneCommand(t: Tables) {
    forall i, j :: i in t.outbox && j in t.outbox && i != j ==>
      t.outbox[i].receipt != t.outbox[j].receipt
          && !(t.outbox[i].starts && t.outbox[j].starts && t.outbox[i].run == t.outbox[j].run)
  }

  ghost predicate CommandOf(t: Tables, receipt: Receipt, id: nat) {
    id in t.outbox && t.outbox[id].receipt == receipt.uid && t.outbox[id].run == receipt.run
        && t.outbox[id].starts == receipt.starts
  }

  /** Every live receipt has its command. */
  ghost predicate Backed(t: Tables) {
    forall key :: key in t.receipts ==> exists id :: CommandOf(t, t.receipts[key], id)
  }

  ghost predicate StartedBy(t: Tables, run: Uid, id: nat) {
    IsStart(t, id, run) && run in t.runs && t.outbox[id].receipt == t.runs[run].receipt
  }

  /** Every Run still has its start command and its stored plan, and only a Run that exists has a completed start. */
  ghost predicate RunsBacked(t: Tables) {
    && (forall run :: run in t.runs ==> t.runs[run].plan in t.plans && exists id :: StartedBy(t, run, id))
    && (forall id :: id in t.outbox && t.outbox[id].starts && t.outbox[id].state == CommandState.Completed ==>
          t.outbox[id].run in t.runs)
  }

  /** Every Run's row is the projection of its events and of its cancellation. */
  ghost predicate Projections(t: Tables) {
    && (forall run :: run in t.runs ==> Projected(t.runs[run].log, run in t.cancellations))
    && t.cancellations.Keys <= t.runs.Keys
  }

  ghost predicate Sound(t: Tables) {
    OneRecord(t) && Issued(t) && OneCommand(t) && Backed(t) && RunsBacked(t) && Projections(t)
  }

  // ---------------------------------------------------------------- the transactions as moves

  datatype Move =
    | Accepting(key: Key, plan: PlanHash, valid: bool, current: bool)
    | Signalling(key: Key, run: Uid, valid: bool, target: bool)
    | Dispatching(id: nat, state: CommandState)
    | Opening(id: nat)
    | Appending(run: Uid, node: string, attempt: nat, eventType: string, phase: Phase)
    | Recording(run: Uid, node: string, attempt: nat, eventType: string)
    | Requesting(run: Uid, reason: string)
    | Delivering(run: Uid)
    | Collecting(runs: seq<Uid>)

  function Or(t: Option<Tables>, otherwise: Tables): Tables {
    if t.Some? then t.value else otherwise
  }

  function Apply(t: Tables, move: Move): Tables {
    match move
    case Accepting(key, plan, valid, current) => AcceptStart(t, key, plan, valid, current).0
    case Signalling(key, run, valid, target) => AcceptSignal(t, key, run, valid, target).0
    case Dispatching(id, state) => Dispatch(t, id, state)
    case Opening(id) => if id in t.outbox then EnsureRun(t, t.outbox[id]).0 else t
    case Appending(run, node, attempt, eventType, phase) => Or(AppendEvent(t, run, node, attempt, eventType, phase), t)
    case Recording(run, node, attempt, eventType) => Or(AppendEvidence(t, run, node, attempt, eventType), t)
    case Requesting(run, reason) => Or(RequestCancellation(t, run, reason), t)
    case Delivering(run) => MarkDelivered(t, run)
    case Collecting(runs) => Or(Collect(t, runs), t)
  }

  /** How the callers use the transactions: a finished command is not touched, and only an operator cancels. */
  ghost predicate Allowed(t: Tables, move: Move) {
    match move
    case Dispatching(id, state) =>
      && id in t.outbox && t.outbox[id].state != CommandState.Completed
      && (state == CommandState.Completed && t.outbox[id].starts ==> t.outbox[id].run in t.runs)
    case Opening(id) => id in t.outbox && t.outbox[id].starts
    case Appending(_, _, _, _, phase) => phase != Phase.Cancelled
    case _ => true
  }

  // ---------------------------------------------------------------- every move keeps the tables sound

  lemma KeepsOneRecord(t: Tables, move: Move)
    requires OneRecord(t) && !move.Collecting?
    ensures OneRecord(Apply(t, move))
  {
  }

  lemma KeepsIssued(t: Tables, move: Move)
    requires Issued(t) && Allowed(t, move) && !move.Collecting?
    ensures Issued(Apply(t, move))
  {
    hide Appended, WithEvidence, WithCancellation, Opened;
  }

  lemma KeepsOneCommand(t: Tables, move: Move)
    requires OneCommand(t) && Issued(t) && Allowed(t, move) && !move.Collecting?
    ensures OneCommand(Apply(t, move))
  {
    hide Appended, WithEvidence, WithCancellation, Opened;
  }

  lemma KeepsBacked(t: Tables, move: Move)
    requires Sound(t) && Allowed(t, move) && !move.Collecting?
    ensures Backed(Apply(t, move))
  {
    hide RunsBacked, Projections, OneCommand, CommandOf;
    var next := Apply(t, move);
    forall key | key in next.receipts ensures exists id :: CommandOf(next, next.receipts[key], id) {
      if key in t.receipts {
        var id :| CommandOf(t, t.receipts[key], id);
        CommandKept(t, move, t.receipts[key], id);
      } else {
        CommandMade(t, move, key);
      }
    }
  }

  lemma CommandKept(t: Tables, move: Move, receipt: Receipt, id: nat)
    requires Issued(t) && !move.Collecting? && CommandOf(t, receipt, id)
    ensures CommandOf(Apply(t, move), receipt, id)
  {
  }

  lemma CommandMade(t: Tables, move: Move, key: Key)
    requires !move.Collecting? && key !in t.receipts && key in Apply(t, move).receipts
    ensures CommandOf(Apply(t, move), Apply(t, move).receipts[key], t.nextCommand)
  {
  }

  lemma KeepsRuns(t: Tables, move: Move)
    requires Sound(t) && Allowed(t, move) && !move.Collecting?
    ensures RunsBacked(Apply(t, move))
  {
    hide Projections, OneCommand, Backed, StartedBy;
    var next := Apply(t, move);
    forall run | run in next.runs ensures next.runs[run].plan in next.plans && exists id :: StartedBy(next, run, id) {
      if run in t.runs {
        var id :| StartedBy(t, run, id);
        StartKept(t, move, run, id);
      } else {
        StartMade(t, move, run);
      }
    }
  }

  lemma StartKept(t: Tables, move: Move, run: Uid, id: nat)
    requires Issued(t) && !move.Collecting? && StartedBy(t, run, id) && t.runs[run].plan in t.plans
    ensures StartedBy(Apply(t, move), run, id) && Apply(t, move).runs[run].plan in Apply(t, move).plans
  {
    hide Appended, WithEvidence, WithCancellation, Opened;
  }

  lemma StartMade(t: Tables, move: Move, run: Uid)
    requires Allowed(t, move) && !move.Collecting? && run !in t.runs && run in Apply(t, move).runs
    ensures move.Opening? && StartedBy(Apply(t, move), run, move.id)
            && Apply(t, move).runs[run].plan in Apply(t, move).plans
  {
  }

  lemma KeepsProjections(t: Tables, move: Move)
    requires Sound(t) && Allowed(t, move) && !move.Collecting?
    ensures Projections(Apply(t, move))
  {
    hide RunsBacked, OneCommand, Backed, OneRecord, Issued, Projected, Appended, WithEvidence, WithCancellation, Opened;
    match move
    case Opening(id) =>
      OpenedProjected();
    case Appending(run, node, attempt, eventType, phase) =>
      if run in t.runs {
        AppendedProjected(t.runs[run].log, run in t.cancellations, node, attempt, eventType, phase);
      }
    case Recording(run, node, attempt, eventType) =>
      if run in t.runs {
        EvidenceProjected(t.runs[run].log, run in t.cancellations, node, attempt, eventType);
      }
    case Requesting(run, reason) =>
      if run in t.runs && run !in t.cancellations && !Terminal(t.runs[run].log.phase) {
        CancellationProjected(t.runs[run].log, reason);
      } else if run in t.runs && run !in t.cancellations {
        PhaseFollowsCancellation(t.runs[run].log, false);
      }
    case _ =>
  }

  lemma PhaseFollowsCancellation(log: Log, cancelled: bool)
    requires Projected(log, cancelled)
    ensures log.phase == Phase.Cancelled <==> cancelled
  {
  }

  lemma RemovedSound(t: Tables, run: Uid)
    requires Sound(t) && run in t.runs
    ensures Sound(Removed(t, run))
  {
    hide OneRecord, Issued, OneCommand, Backed, RunsBacked, Projections, Removed;
    RemovedRecords(t, run);
    RemovedBacked(t, run);
    RemovedRuns(t, run);
  }

  lemma RemovedRecords(t: Tables, run: Uid)
    requires OneRecord(t) && Issued(t) && OneCommand(t) && Projections(t) && run in t.runs
    ensures var next := Removed(t, run); OneRecord(next) && Issued(next) && OneCommand(next) && Projections(next)
  {
    hide OneRecord, Issued, OneCommand, Projections;
    RemovedOneRecord(t, run);
    RemovedIssued(t, run);
    RemovedOneCommand(t, run);
    RemovedProjections(t, run);
  }

  lemma RemovedOneRecord(t: Tables, run: Uid)
    requires OneRecord(t) && run in t.runs
    ensures OneRecord(Removed(t, run))
  {
  }

  lemma RemovedIssued(t: Tables, run: Uid)
    requires Issued(t) && run in t.runs
    ensures Issued(Removed(t, run))
  {
  }

  lemma RemovedOneCommand(t: Tables, run: Uid)
    requires OneCommand(t) && run in t.runs
    ensures OneCommand(Removed(t, run))
  {
  }

  lemma RemovedProjections(t: Tables, run: Uid)
    requires Projections(t) && run in t.runs
    ensures Projections(Removed(t, run))
  {
    hide Projected;
  }

  lemma RemovedBacked(t: Tables, run: Uid)
    requires Backed(t) && run in t.runs
    ensures Backed(Removed(t, run))
  {
    hide CommandOf;
    var next := Removed(t, run);
    forall key | key in next.receipts ensures exists id :: CommandOf(next, next.receipts[key], id) {
      var id :| CommandOf(t, t.receipts[key], id);
      RemovedCommand(t, run, t.receipts[key], id);
    }
  }

  lemma RemovedCommand(t: Tables, run: Uid, receipt: Receipt, id: nat)
    requires CommandOf(t, receipt, id) && run in t.runs && receipt.run != run
    ensures CommandOf(Removed(t, run), receipt, id)
  {
  }

  lemma RemovedRuns(t: Tables, run: Uid)
    requires RunsBacked(t) && run in t.runs
    ensures RunsBacked(Removed(t, run))
  {
    hide StartedBy;
    var next := Removed(t, run);
    forall r | r in next.runs ensures next.runs[r].plan in next.plans && exists id :: StartedBy(next, r, id) {
      var id :| StartedBy(t, r, id);
      RemovedStart(t, run, r, id);
    }
  }

  lemma RemovedStart(t: Tables, run: Uid, r: Uid, id: nat)
    requires StartedBy(t, r, id) && run in t.runs && r != run && t.runs[r].plan in t.plans
    ensures StartedBy(Removed(t, run), r, id) && t.runs[r].plan in Removed(t, run).plans
  {
  }

  lemma {:induction false} CollectSound(t: Tables, runs: seq<Uid>)
    requires Sound(t)
    ensures Collect(t, runs).Some? ==> Sound(Collect(t, runs).value)
    decreases |runs|
  {
    hide Sound, Removed;
    if runs != [] {
      if runs[0] !in t.runs {
        CollectSound(t, runs[1..]);
      } else if Collectable(t, runs[0]) {
        RemovedSound(t, runs[0]);
        CollectSound(Removed(t, runs[0]), runs[1..]);
      }
    }
  }

  /** Every transaction, used as its callers use it, keeps the tables consistent. */
  lemma ApplySound(t: Tables, move: Move)
    requires Sound(t) && Allowed(t, move)
    ensures Sound(Apply(t, move))
  {
    hide OneRecord, Issued, OneCommand, Backed, RunsBacked, Projections;
    if move.Collecting? {
      CollectSound(t, move.runs);
    } else {
      KeepsOneRecord(t, move);
      KeepsIssued(t, move);
      KeepsOneCommand(t, move);
      KeepsBacked(t, move);
      KeepsRuns(t, move);
      KeepsProjections(t, move);
    }
  }
}
