/** The inductive invariant of the protocol. */
module ProtocolSafety {
  import opened Compiler
  import opened Kahn
  import opened RunLog
  import opened Ledger
  import opened LedgerFacts
  import opened Permanence
  import opened Protocol
  import opened ProtocolFrame

  /** The instance is cancelled, or is absent and no start command is left that could create it. */
  ghost predicate Settled(s: System, run: Uid) {
    if run in s.instances then s.instances[run].cancelled else StartOver(s.tables, run)
  }

  /** The loop has decided to create the instance. */
  predicate Creating(s: System, run: Uid) {
    s.loop.Working? && (s.loop.at == Find || s.loop.at == Create) && s.loop.run == run
  }

  predicate InsideSection(d: Delivery) {
    d.at == Finding || d.at == Cancelling
  }

  /** At most one party is between taking and releasing the mutex, and it is the holder. */
  ghost predicate MutexOk(s: System) {
    && (s.holder.ByLoop? <==> s.loop.Working? && InSection(s.loop.at))
    && (s.holder.ByDelivery? ==> s.holder.handler in s.deliveries)
    && (forall h :: h in s.deliveries ==> (InsideSection(s.deliveries[h]) <==> s.holder == ByDelivery(h)))
  }

  predicate PastOpening(at: LoopAt) {
    at == Reload || at == Hush || at == Enter || InSection(at)
  }

  predicate StartedIn(t: Tables, instances: map<Uid, Instance>, run: Uid) {
    run in instances || IsCancelled(t, run)
  }

  predicate Started(s: System, run: Uid) {
    StartedIn(s.tables, s.instances, run)
  }

  /** The claimed command is still ours, and everything the loop has established on its way to `at` still holds. */
  ghost predicate Established(t: Tables, instances: map<Uid, Instance>, at: LoopAt, id: nat, run: Uid, max: nat) {
    && id in t.outbox && t.outbox[id].state == Inflight && t.outbox[id].run == run
    && (at != Send && at != Finish && at != Retry ==> t.outbox[id].starts) && (at == Send ==> !t.outbox[id].starts)
    && (at == Open ==> run in t.runs || |Active(t)| < max)
    && (PastOpening(at) ==> run in t.runs)
    && (at == Create ==> run !in instances)
    && (at == Recheck || at == CancelCreated ==> run in instances)
    && (at == Finish && t.outbox[id].starts ==> run in t.runs && StartedIn(t, instances, run))
  }

  ghost predicate LoopOk(s: System, max: nat) {
    s.loop.Working? ==> Established(s.tables, s.instances, s.loop.at, s.loop.id, s.loop.run, max)
  }

  ghost predicate DeliveryOk(s: System, d: Delivery) {
    && Closed(s.tables, d.run)
    && (forall i :: 0 <= i < |d.rest| ==> Closed(s.tables, d.rest[i]))
    && (d.at == Cancelling ==> d.run in s.instances)
    && (d.at == Marking ==> Settled(s, d.run))
    && (d.at == MarkingAbsent && d.run in s.tables.cancellations ==> d.run !in s.instances && !Creating(s, d.run))
  }

  ghost predicate DeliveriesOk(s: System) {
    forall h :: h in s.deliveries ==> DeliveryOk(s, s.deliveries[h])
  }

  ghost predicate RetentionsOk(s: System) {
    forall h, i :: h in s.retentions && 0 <= i < |s.retentions[h].planned| ==>
             Retired(s.tables, s.retentions[h].planned[i])
  }

  /** An instance is created at most once, and removed only when nothing can start its Run again. */
  ghost predicate HistoryOk(s: System) {
    && s.instances.Keys <= s.created
    && (forall run :: run in s.created ==> run < s.tables.nextUid && (run in s.instances || StartOver(s.tables, run)))
    && (forall run :: run in s.pruned ==> Retired(s.tables, run) && run !in s.instances)
  }

  ghost predicate DeliveredOk(s: System) {
    forall run :: Delivered(s.tables, run) ==> Settled(s, run)
  }

  /** A completed start has its instance, or its Run was cancelled, or retention has removed the ended instance. */
  ghost predicate StartsOk(s: System) {
    forall id ::
      id in s.tables.outbox && s.tables.outbox[id].starts && s.tables.outbox[id].state == CommandState.Completed ==>
        Started(s, s.tables.outbox[id].run) || s.tables.outbox[id].run in s.pruned
  }

  ghost predicate SlowOk(s: System) {
    DeliveriesOk(s) && RetentionsOk(s) && HistoryOk(s) && DeliveredOk(s)
  }

  ghost predicate Safe(s: System, max: nat) {
    && Sound(s.tables) && MutexOk(s) && LoopOk(s, max) && SlowOk(s) && StartsOk(s)
    && |Active(s.tables)| <= max
  }

  lemma LoopHolds(s: System, max: nat)
    requires Safe(s, max) && s.loop.Working?
    ensures Established(s.tables, s.instances, s.loop.at, s.loop.id, s.loop.run, max)
  {
    hide Sound, SlowOk, StartsOk, Active, MutexOk, Established;
  }

  // ---------------------------------------------------------------- changes to the tables only

  /** What every transaction preserves, for all Runs at once. */
  ghost predicate Onward(before: Tables, after: Tables) {
    && before.nextUid <= after.nextUid
    && (forall run :: StartOver(before, run) ==> StartOver(after, run))
    && (forall run :: Closed(before, run) ==> Closed(after, run))
    && (forall run :: Retired(before, run) ==> Retired(after, run))
    && (forall run :: Closed(before, run) && run !in before.cancellations ==> run !in after.cancellations)
  }

  lemma {:induction false} CollectKeepsUids(t: Tables, runs: seq<Uid>)
    ensures Collect(t, runs).Some? ==> Collect(t, runs).value.nextUid == t.nextUid
    decreases |runs|
  {
    if runs != [] {
      CollectKeepsUids(t, runs[1..]);
      if runs[0] in t.runs {
        CollectKeepsUids(Removed(t, runs[0]), runs[1..]);
      }
    }
  }

  lemma AppliesOnward(t: Tables, move: Move)
    requires Sound(t) && Allowed(t, move)
    ensures Onward(t, Apply(t, move))
  {
    hide Sound, Allowed, StartOver, Closed, Retired, Lookup;
    if move.Collecting? {
      CollectKeepsUids(t, move.runs);
    }
    var after := Apply(t, move);
    assert t.nextUid <= after.nextUid;
    hide Apply;
    forall run ensures Lasting(t, after, run, Key("", "")) {
      ApplyLasts(t, move, run, Key("", ""));
    }
    OnwardFromLasting(t, after);
  }

  lemma OnwardFromLasting(before: Tables, after: Tables)
    requires before.nextUid <= after.nextUid && forall run :: Lasting(before, after, run, Key("", ""))
    ensures Onward(before, after)
  {
    hide StartOver, Closed, Retired, Lookup;
    forall run | StartOver(before, run) ensures StartOver(after, run) {
      assert Lasting(before, after, run, Key("", ""));
    }
    forall run | Closed(before, run) ensures Closed(after, run)
           && (run !in before.cancellations ==> run !in after.cancellations) {
      assert Lasting(before, after, run, Key("", ""));
    }
    forall run | Retired(before, run) ensures Retired(after, run) {
      assert Lasting(before, after, run, Key("", ""));
    }
  }

  lemma SlowTables(s: System, after: Tables)
    requires SlowOk(s) && Onward(s.tables, after) && forall run :: Delivered(after, run) ==> Delivered(s.tables, run)
    ensures SlowOk(s.(tables := after))
  {
    hide StartOver, Closed, Retired, Delivered;
    var next := s.(tables := after);
    assert forall run :: Settled(s, run) ==> Settled(next, run);
    hide Settled;
    forall h | h in next.deliveries ensures DeliveryOk(next, next.deliveries[h]) {
      assert DeliveryOk(s, s.deliveries[h]);
    }
  }

  lemma FastTables(s: System, after: Tables, max: nat)
    requires LoopOk(s, max) && StartsOk(s) && |Active(s.tables)| <= max && Framed(s.tables, after) && Sound(after)
    requires Sound(s.tables)
    ensures var next := s.(tables := after); LoopOk(next, max) && StartsOk(next) && |Active(after)| <= max
  {
    hide OneRecord, Issued, OneCommand, Backed, Projections, Active, IsCancelled;
    SubsetSize(Active(after), Active(s.tables));
  }

  /** Transactions of others, and collections. */
  lemma QuietSafe(s: System, move: Move, max: nat)
    requires Safe(s, max) && Quiet(move) && !move.Delivering? && Allowed(s.tables, move)
    ensures Safe(s.(tables := Apply(s.tables, move)), max)
  {
    hide Sound, LoopOk, SlowOk, StartsOk, Framed, Onward, Allowed, Apply, Delivered, Active;
    var after := Apply(s.tables, move);
    ApplySound(s.tables, move);
    AppliesOnward(s.tables, move);
    QuietFramed(s.tables, move);
    forall run ensures Delivered(after, run) ==> Delivered(s.tables, run) {
      QuietDelivers(s.tables, move, run);
    }
    SlowTables(s, after);
    FastTables(s, after, max);
  }
}
