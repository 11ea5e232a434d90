/** What transactions by others leave alone: commands being worked on, their Runs, and the active count. */
module ProtocolFrame {
  import opened Compiler
  import opened Kahn
  import opened RunLog
  import opened Ledger
  import opened LedgerFacts
  import opened Permanence
  import opened Protocol

  /** Seen by whoever works on an unfinished command. */
  ghost predicate Framed(before: Tables, after: Tables) {
    && (forall id :: id in before.outbox && before.outbox[id].state != CommandState.Completed ==>
          id in after.outbox && after.outbox[id] == before.outbox[id])
    && (forall id ::
          && id in before.outbox && before.outbox[id].state != CommandState.Completed
          && before.outbox[id].run in before.runs ==>
            before.outbox[id].run in after.runs)
    && (forall run :: run in after.runs && IsCancelled(before, run) ==> IsCancelled(after, run))
    && (forall id :: id in after.outbox && after.outbox[id].state == CommandState.Completed ==>
          id in before.outbox && before.outbox[id] == after.outbox[id])
    && Active(after) <= Active(before)
    && (forall run :: run in after.runs ==> run in before.runs)
  }

  /** Every transaction but a dispatch and the opening of a Run. */
  predicate Quiet(move: Move) {
    !move.Dispatching? && !move.Opening?
  }

  lemma QuietFramed(t: Tables, move: Move)
    requires Sound(t) && Quiet(move) && Allowed(t, move)
    ensures Framed(t, Apply(t, move))
  {
    hide OneRecord, OneCommand, Backed, RunsBacked, Framed, Projections, Issued;
    if move.Collecting? {
      FramedSelf(t);
      CollectFramed(t, move.runs);
    } else {
      SimpleFramed(t, move);
    }
  }

  lemma FramedSelf(t: Tables)
    ensures Framed(t, t)
  {
  }

  lemma SimpleFramed(t: Tables, move: Move)
    requires Issued(t) && Projections(t) && Quiet(move) && Allowed(t, move) && !move.Collecting?
    ensures Framed(t, Apply(t, move))
  {
    hide Active, Apply, Issued, Projections;
    SimpleOutbox(t, move);
    SimpleRuns(t, move);
  }

  lemma SimpleOutbox(t: Tables, move: Move)
    requires Issued(t) && Quiet(move) && !move.Collecting?
    ensures forall id :: id in t.outbox ==> id in Apply(t, move).outbox && Apply(t, move).outbox[id] == t.outbox[id]
    ensures forall id :: id in Apply(t, move).outbox && Apply(t, move).outbox[id].state == CommandState.Completed ==>
              id in t.outbox
  {
    hide Opened, Appended, WithEvidence, WithCancellation;
  }

  lemma SimpleRuns(t: Tables, move: Move)
    requires Projections(t) && Quiet(move) && Allowed(t, move) && !move.Collecting?
    ensures var next := Apply(t, move);
            && (forall run :: run in t.runs <==> run in next.runs)
            && (forall run :: IsCancelled(t, run) ==> IsCancelled(next, run))
            && Active(next) <= Active(t)
  {
    hide Apply, Projections, Alive, IsCancelled, Active;
    SimpleKeys(t, move);
    SimpleCancelled(t, move);
    SimpleAlive(t, move);
    FewerAlive(t, Apply(t, move));
  }

  lemma SimpleKeys(t: Tables, move: Move)
    requires Quiet(move) && !move.Collecting?
    ensures forall run :: run in t.runs <==> run in Apply(t, move).runs
  {
    hide Opened, Appended, WithEvidence, WithCancellation;
  }

  lemma SimpleCancelled(t: Tables, move: Move)
    requires Quiet(move) && !move.Collecting?
    ensures forall run :: IsCancelled(t, run) ==> IsCancelled(Apply(t, move), run)
  {
    hide Opened, MaxSequence;
  }

  lemma SimpleAlive(t: Tables, move: Move)
    requires Projections(t) && Quiet(move) && Allowed(t, move) && !move.Collecting?
    ensures forall run :: Alive(Apply(t, move), run) ==> Alive(t, run)
  {
    hide Opened, Projected, MaxSequence;
  }

  lemma FewerAlive(t: Tables, next: Tables)
    requires forall run :: Alive(next, run) ==> Alive(t, run)
    ensures Active(next) <= Active(t)
  {
  }

  lemma RemovedFramed(t: Tables, run: Uid)
    requires run in t.runs && Collectable(t, run)
    ensures Framed(t, Removed(t, run))
  {
    var next := Removed(t, run);
    assert forall r :: r in next.runs ==> next.runs[r] == t.runs[r];
    assert Active(next) <= Active(t);
    hide Active;
    forall id | id in t.outbox && t.outbox[id].state != CommandState.Completed ensures t.outbox[id].run != run {
      assert WorkLeft(t, t.outbox[id].run);
    }
  }

  lemma FramedTwice(a: Tables, b: Tables, c: Tables)
    requires Framed(a, b) && Framed(b, c)
    ensures Framed(a, c)
  {
    hide Active;
  }

  lemma {:induction false} CollectFramed(t: Tables, runs: seq<Uid>)
    ensures Collect(t, runs).Some? ==> Framed(t, Collect(t, runs).value)
    decreases |runs|
  {
    hide Framed, Removed, Collectable;
    FramedSelf(t);
    if runs != [] {
      if runs[0] !in t.runs {
        CollectFramed(t, runs[1..]);
      } else if Collectable(t, runs[0]) {
        RemovedFramed(t, runs[0]);
        CollectFramed(Removed(t, runs[0]), runs[1..]);
        if Collect(t, runs).Some? {
          FramedTwice(t, Removed(t, runs[0]), Collect(t, runs).value);
        }
      }
    }
  }

  /** Only marking a cancellation makes it delivered. */
  lemma {:induction false} CollectDelivers(t: Tables, runs: seq<Uid>)
    ensures Collect(t, runs).Some? ==>
              forall run :: run in Collect(t, runs).value.cancellations ==>
                run in t.cancellations && t.cancellations[run] == Collect(t, runs).value.cancellations[run]
    decreases |runs|
  {
    hide Collectable;
    if runs != [] {
      if runs[0] !in t.runs {
        CollectDelivers(t, runs[1..]);
      } else if Collectable(t, runs[0]) {
        CollectDelivers(Removed(t, runs[0]), runs[1..]);
      }
    }
  }

  ghost predicate Delivered(t: Tables, run: Uid) {
    run in t.cancellations && t.cancellations[run].delivered
  }

  lemma QuietDelivers(t: Tables, move: Move, run: Uid)
    requires !move.Delivering?
    ensures Delivered(Apply(t, move), run) ==> Delivered(t, run)
  {
    hide Lookup, Appended, WithEvidence, WithCancellation, Opened, Collectable;
    if move.Collecting? {
      CollectDelivers(t, move.runs);
    }
  }
}
