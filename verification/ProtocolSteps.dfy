/** Every step keeps the invariant; and what that means for every run. */
module ProtocolSteps {
  import opened Compiler
  import opened RunLog
  import opened Ledger
  import opened LedgerFacts
  import opened Permanence
  import opened Protocol
  import opened ProtocolFrame
  import opened ProtocolSafety

  // ---------------------------------------------------------------- the loop moves on without touching anything

  lemma SlowStays(s: System, next: System)
    requires SlowOk(s) && next == s.(loop := next.loop, holder := next.holder)
    requires forall run :: Creating(next, run) ==> Creating(s, run) || run !in s.tables.cancellations
    ensures SlowOk(next)
  {
    hide Closed, StartOver, Retired, Delivered, Creating;
    assert forall run :: Settled(next, run) <==> Settled(s, run);
    forall h | h in next.deliveries ensures DeliveryOk(next, next.deliveries[h]) {
      assert DeliveryOk(s, s.deliveries[h]);
    }
  }

  lemma PcSafe(s: System, next: System, max: nat)
    requires Safe(s, max) && next == s.(loop := next.loop, holder := next.holder)
    requires LoopOk(next, max) && MutexOk(next)
    requires forall run :: Creating(next, run) ==> Creating(s, run) || run !in s.tables.cancellations
    ensures Safe(next, max)
  {
    hide Sound, LoopOk, MutexOk, SlowOk, Creating, Active;
    SlowStays(s, next);
  }

  lemma CancelledPhase(t: Tables, run: Uid)
    requires Projections(t)
    ensures run in t.cancellations <==> IsCancelled(t, run)
  {
    if run in t.runs {
      PhaseFollowsCancellation(t.runs[run].log, run in t.cancellations);
    }
  }

  lemma ActiveWithout(t: Tables, run: Uid)
    requires run !in t.runs
    ensures Active(t) - {run} == Active(t)
  {
  }

  /** Turns that change nothing but the loop's own position and the mutex. */
  predicate Looks(s: System, turn: Turn) {
    LoopEnabled(s, turn) && (turn == Bad || turn == Quit || (turn == Good && LooksAt(s.loop.at)))
  }

  /** Where such a turn leads. */
  function LookTo(s: System, turn: Turn, max: nat): LoopAt
    requires Looks(s, turn)
  {
    if turn == Good then Look(s.tables, s.instances, s.loop.at, s.loop.id, s.loop.run, max) else Retry
  }

  lemma LooksMoves(s: System, turn: Turn, max: nat)
    requires Looks(s, turn)
    ensures LoopNext(s, turn, max) == if turn == Quit then Rest(s) else MoveTo(s, LookTo(s, turn, max))
  {
    hide Look, MoveTo, Rest, Made, Cancel, EnsureRun, Suppress, Dispatch;
  }

  lemma LookEstablishes(t: Tables, instances: map<Uid, Instance>, at: LoopAt, id: nat, run: Uid, max: nat)
    requires Established(t, instances, at, id, run, max) && LooksAt(at)
    ensures Established(t, instances, Look(t, instances, at, id, run, max), id, run, max)
  {
    hide Active, IsCancelled;
    var next := Look(t, instances, at, id, run, max);
    if at == Count && run !in t.runs {
      ActiveWithout(t, run);
    }
    assert PastOpening(next) ==> PastOpening(at) || at == Reload;
    assert next == Open ==> at == Check || at == Count;
    assert next == Finish ==> at == Inspect || at == Find || at == Recheck || at == Send;
    assert next == Create ==> at == Find;
    assert next == CancelCreated ==> at == Recheck;
    assert next != Recheck && next != Send;
  }

  lemma GivesUp(t: Tables, instances: map<Uid, Instance>, at: LoopAt, id: nat, run: Uid, max: nat)
    requires Established(t, instances, at, id, run, max)
    ensures Established(t, instances, Retry, id, run, max)
  {
    hide Active, IsCancelled;
  }

  lemma LookingMutex(s: System, at: LoopAt)
    requires MutexOk(s) && s.loop.Working? && (InSection(at) ==> s.holder == Free || InSection(s.loop.at))
    ensures MutexOk(MoveTo(s, at)) && MutexOk(Rest(s))
  {
    hide InSection, InsideSection;
  }

  lemma LookSections(s: System, max: nat)
    requires Looks(s, Good)
    ensures InSection(LookTo(s, Good, max)) ==> s.holder == Free || InSection(s.loop.at)
    ensures LookTo(s, Good, max) == Create ==> s.loop.at == Find
    ensures LookTo(s, Good, max) == Find ==> !IsCancelled(s.tables, s.loop.run)
  {
    hide Active, IsCancelled;
  }

  lemma LookingSafe(s: System, turn: Turn, max: nat)
    requires Safe(s, max) && Looks(s, turn)
    ensures Safe(LoopNext(s, turn, max), max)
  {
    hide Sound, SlowOk, StartsOk, Active, MutexOk, LooksAt, Look, LoopNext, IsCancelled, Established, InSection;
    LooksMoves(s, turn, max);
    var at := LookTo(s, turn, max);
    GivesUp(s.tables, s.instances, s.loop.at, s.loop.id, s.loop.run, max);
    if turn == Good {
      LookEstablishes(s.tables, s.instances, s.loop.at, s.loop.id, s.loop.run, max);
      LookSections(s, max);
    }
    RetryOutside();
    LookingMutex(s, at);
    SoundPhase(s.tables, s.loop.run);
    PcSafe(s, LoopNext(s, turn, max), max);
  }

  lemma RetryOutside()
    ensures !InSection(Retry)
  {
  }

  // ---------------------------------------------------------------- the loop opens the Run

  lemma OpenTables(s: System, max: nat)
    requires Safe(s, max) && s.loop.Working? && s.loop.at == Open
    ensures s.loop.id in s.tables.outbox
    ensures var after := EnsureRun(s.tables, s.tables.outbox[s.loop.id]).0;
            && Allowed(s.tables, Opening(s.loop.id)) && after == Apply(s.tables, Opening(s.loop.id))
            && |Active(after)| <= max
            && after.outbox == s.tables.outbox && s.loop.run in after.runs
            && (forall run :: IsCancelled(s.tables, run) ==> IsCancelled(after, run))
            && after.cancellations == s.tables.cancellations
  {
    hide SlowOk, StartsOk, MutexOk, Sound, Active;
    OpenActive(s.tables, s.loop.id, s.loop.run);
  }

  /** Opening a Run makes at most that Run active. */
  lemma OpenActive(t: Tables, id: nat, run: Uid)
    ensures id in t.outbox && t.outbox[id].run == run && run !in t.runs ==>
              Active(EnsureRun(t, t.outbox[id]).0) == Active(t) + {run} && Active(t) - {run} == Active(t)
    ensures id in t.outbox && t.outbox[id].run == run && run in t.runs ==> EnsureRun(t, t.outbox[id]).0 == t
  {
  }

  lemma OpenShape(s: System, max: nat)
    requires MutexOk(s) && s.loop.Working? && s.loop.at == Open && s.loop.id in s.tables.outbox
    ensures var after, next := EnsureRun(s.tables, s.tables.outbox[s.loop.id]).0, LoopNext(s, Good, max);
            && next == s.(tables := after, loop := next.loop)
            && (next.loop == s.loop.(at := Hush) || next.loop == s.loop.(at := Reload))
  {
    hide EnsureRun, Look, Suppress, Dispatch;
  }

  lemma OpenSafe(s: System, max: nat)
    requires Safe(s, max) && s.loop.Working? && s.loop.at == Open
    ensures Safe(LoopNext(s, Good, max), max)
  {
    hide Sound, SlowOk, Active, EnsureRun, Apply, Allowed, Onward, IsCancelled, Delivered, LoopOk, MutexOk, StartsOk,
         LoopNext;
    OpenTables(s, max);
    OpenShape(s, max);
    var after := EnsureRun(s.tables, s.tables.outbox[s.loop.id]).0;
    var next := LoopNext(s, Good, max);
    ApplySound(s.tables, Opening(s.loop.id));
    AppliesOnward(s.tables, Opening(s.loop.id));
    SameDeliveries(s.tables, after);
    SlowTables(s, after);
    SlowStays(s.(tables := after), next);
    OpenLoop(s, max, after, next);
  }

  lemma OpenLoop(s: System, max: nat, after: Tables, next: System)
    requires LoopOk(s, max) && MutexOk(s) && StartsOk(s) && s.loop.Working? && s.loop.at == Open
    requires after.outbox == s.tables.outbox && s.loop.run in after.runs
    requires forall run :: IsCancelled(s.tables, run) ==> IsCancelled(after, run)
    requires next == s.(tables := after, loop := next.loop)
             && (next.loop == s.loop.(at := Hush) || next.loop == s.loop.(at := Reload))
    ensures LoopOk(next, max) && MutexOk(next) && StartsOk(next)
  {
    hide Active, IsCancelled;
  }

  lemma SameDeliveries(t: Tables, after: Tables)
    requires after.cancellations == t.cancellations
    ensures forall run :: Delivered(after, run) <==> Delivered(t, run)
  {
  }

  // ---------------------------------------------------------------- the loop returns its command

  /** Completing needs a Run that is started; giving back needs nothing. */
  lemma DispatchSafe(s: System, state: CommandState, max: nat)
    requires Safe(s, max) && s.loop.Working?
    requires state == CommandState.Completed && s.tables.outbox[s.loop.id].starts ==>
               s.loop.run in s.tables.runs && Started(s, s.loop.run)
    ensures Safe(Rest(s).(tables := Dispatch(s.tables, s.loop.id, state)), max)
  {
    hide Sound, SlowOk, Active, Onward, Delivered, IsCancelled, Closed, StartOver, Retired;
    var id, move := s.loop.id, Dispatching(s.loop.id, state);
    var after := Dispatch(s.tables, id, state);
    var next := Rest(s).(tables := after);
    ApplySound(s.tables, move);
    AppliesOnward(s.tables, move);
    SameRuns(s.tables, after);
    SameDeliveries(s.tables, after);
    SlowTables(s, after);
    SlowStays(s.(tables := after), next);
  }

  lemma SameRuns(t: Tables, after: Tables)
    requires after.runs == t.runs
    ensures Active(after) == Active(t) && forall run :: IsCancelled(after, run) <==> IsCancelled(t, run)
  {
  }

  lemma HushSafe(s: System, max: nat)
    requires Safe(s, max) && s.loop.Working? && s.loop.at == Hush
    ensures Safe(LoopNext(s, Good, max), max)
  {
    hide Sound, SlowOk, Active, StartsOk;
    var next := LoopNext(s, Good, max);
    var cancelled := Suppress(s.tables, s.loop.id, s.loop.run).1;
    if cancelled {
      SoundPhase(s.tables, s.loop.run);
      DispatchSafe(s, CommandState.Completed, max);
    } else {
      PcSafe(s, next, max);
    }
  }

  lemma SoundPhase(t: Tables, run: Uid)
    requires Sound(t)
    ensures run in t.cancellations <==> IsCancelled(t, run)
  {
    hide OneRecord, Issued, OneCommand, Backed, RunsBacked, Projections, IsCancelled;
    CancelledPhase(t, run);
  }

  // ---------------------------------------------------------------- the loop creates or cancels the instance

  lemma NotOver(s: System, max: nat)
    requires LoopOk(s, max) && s.loop.Working? && s.loop.at == Create
    ensures !StartOver(s.tables, s.loop.run) && s.loop.run !in s.instances
  {
    assert IsStart(s.tables, s.loop.id, s.loop.run);
  }

  lemma MadeSlow(s: System, run: Uid)
    requires SlowOk(s) && Creating(s, run) && !StartOver(s.tables, run) && run !in s.instances && run < s.tables.nextUid
    ensures SlowOk(Made(s, run))
    ensures run !in s.created
  {
    hide Closed, StartOver, Delivered, Alive;
    var next := Made(s, run);
    assert forall r :: Settled(s, r) ==> Settled(next, r);
    forall h | h in next.deliveries ensures DeliveryOk(next, next.deliveries[h]) {
      assert DeliveryOk(s, s.deliveries[h]);
    }
  }

  lemma CreateSafe(s: System, turn: Turn, max: nat)
    requires Safe(s, max) && LoopEnabled(s, turn) && s.loop.at == Create && (turn == Good || turn == Lost)
    ensures Safe(LoopNext(s, turn, max), max)
    ensures s.loop.run !in s.created
  {
    hide Sound, SlowOk, Active, StartOver, IsCancelled, LoopOk, MutexOk, StartsOk, Look, EnsureRun, Suppress, Dispatch;
    NotOver(s, max);
    CommandIssued(s, max);
    var next := LoopNext(s, turn, max);
    MadeSlow(s, s.loop.run);
    SlowStays(Made(s, s.loop.run), next);
    CreateLoop(s, max, next);
  }

  lemma CreateLoop(s: System, max: nat, next: System)
    requires LoopOk(s, max) && MutexOk(s) && StartsOk(s) && s.loop.Working? && s.loop.at == Create
    requires next == LoopNext(s, Good, max) || next == LoopNext(s, Lost, max)
    ensures LoopOk(next, max) && MutexOk(next) && StartsOk(next)
  {
    hide Active, IsCancelled, InsideSection;
    var made := Made(s, s.loop.run);
    assert forall run :: Started(s, run) ==> Started(made, run);
    assert next.tables == s.tables && next.instances == made.instances && next.pruned == s.pruned
        && next.deliveries == s.deliveries;
    assert next.loop.id == s.loop.id && next.loop.run == s.loop.run && s.loop.run in next.instances;
  }

  lemma CommandIssued(s: System, max: nat)
    requires LoopOk(s, max) && s.loop.Working? && Sound(s.tables)
    ensures s.loop.run < s.tables.nextUid
  {
    hide OneRecord, OneCommand, Backed, RunsBacked, Projections;
  }

  lemma CancelSlow(s: System, run: Uid)
    requires SlowOk(s) && run in s.instances
    ensures SlowOk(Cancel(s, run)) && Settled(Cancel(s, run), run)
    ensures Cancel(s, run).instances.Keys == s.instances.Keys
  {
    hide Closed, StartOver, Retired, Delivered;
    var next := Cancel(s, run);
    assert forall r :: Settled(s, r) ==> Settled(next, r);
    forall h | h in next.deliveries ensures DeliveryOk(next, next.deliveries[h]) {
      assert DeliveryOk(s, s.deliveries[h]);
    }
  }

  lemma CancelCreatedSafe(s: System, max: nat)
    requires Safe(s, max) && s.loop.Working? && s.loop.at == CancelCreated
    ensures Safe(LoopNext(s, Good, max), max)
  {
    hide Sound, SlowOk, Active, IsCancelled;
    CancelSlow(s, s.loop.run);
    SlowStays(Cancel(s, s.loop.run), LoopNext(s, Good, max));
  }

  lemma ReturnSafe(s: System, max: nat)
    requires Safe(s, max) && s.loop.Working? && (s.loop.at == Finish || s.loop.at == Retry)
    ensures Safe(LoopNext(s, Good, max), max)
  {
    hide Safe, Active, IsCancelled, InSection, Look, EnsureRun, Suppress, Dispatch;
    LoopHolds(s, max);
    DispatchSafe(s, if s.loop.at == Finish then CommandState.Completed else Waits, max);
  }

  lemma LoopSafe(s: System, turn: Turn, max: nat)
    requires Safe(s, max) && LoopEnabled(s, turn)
    ensures Safe(LoopNext(s, turn, max), max)
  {
    hide Safe, LoopNext;
    if Looks(s, turn) {
      LookingSafe(s, turn, max);
    } else if s.loop.at == Open {
      OpenSafe(s, max);
    } else if s.loop.at == Hush {
      HushSafe(s, max);
    } else if s.loop.at == Create {
      CreateSafe(s, turn, max);
    } else if s.loop.at == CancelCreated {
      CancelCreatedSafe(s, max);
    } else {
      ReturnSafe(s, max);
    }
  }

  // ---------------------------------------------------------------- cancellation handlers

  lemma LoopSame(s: System, next: System, max: nat)
    requires LoopOk(s, max) && StartsOk(s)
    requires next.tables == s.tables && next.instances == s.instances && next.loop == s.loop && next.pruned == s.pruned
    ensures LoopOk(next, max) && StartsOk(next)
  {
    hide Established;
  }

  lemma SameMutex(s: System, next: System)
    requires MutexOk(s) && next.holder == s.holder && next.loop == s.loop && next.deliveries == s.deliveries
    ensures MutexOk(next)
  {
  }

  /** Another cancellation handler starts. */
  lemma DeliveryBegins(s: System, h: nat, d: Delivery, max: nat)
    requires Safe(s, max) && h !in s.deliveries && d.at == Queueing
    requires Closed(s.tables, d.run) && forall i :: 0 <= i < |d.rest| ==> Closed(s.tables, d.rest[i])
    ensures Safe(s.(deliveries := s.deliveries[h := d]), max)
  {
    hide Sound, LoopOk, StartsOk, Active, Closed, StartOver, Retired, Delivered;
    var next := s.(deliveries := s.deliveries[h := d]);
    LoopSame(s, next, max);
    assert forall run :: Settled(next, run) <==> Settled(s, run);
    hide Settled;
    forall k | k in next.deliveries ensures DeliveryOk(next, next.deliveries[k]) {
      if k != h {
        assert DeliveryOk(s, s.deliveries[k]);
      }
    }
  }

  /** A handler changes its own record and the mutex; what it claims must hold. */
  lemma DeliveryMoves(s: System, next: System, h: nat, max: nat)
    requires Safe(s, max) && h in s.deliveries
    requires next == s.(holder := next.holder, deliveries := next.deliveries)
    requires next.deliveries - {h} == s.deliveries - {h}
    requires h in next.deliveries ==> DeliveryOk(s, next.deliveries[h])
    requires MutexOk(next)
    ensures Safe(next, max)
  {
    hide Sound, LoopOk, StartsOk, Active, Closed, StartOver, Retired, Delivered, MutexOk;
    LoopSame(s, next, max);
    assert forall run :: Settled(next, run) <==> Settled(s, run);
    hide Settled;
    forall k | k in next.deliveries ensures DeliveryOk(next, next.deliveries[k]) {
      if k != h {
        assert k in next.deliveries - {h};
        assert DeliveryOk(s, s.deliveries[k]);
      } else {
        assert DeliveryOk(s, next.deliveries[h]);
      }
    }
  }

  lemma OnwardsMutex(s: System, h: nat)
    requires MutexOk(s) && h in s.deliveries
    ensures MutexOk(s.(deliveries := s.deliveries - {h},
              holder := if s.holder == ByDelivery(h) then Free else s.holder))
    ensures !InsideSection(s.deliveries[h]) ==> MutexOk(Onwards(s, h))
    ensures !InsideSection(s.deliveries[h]) ==> s.holder != ByDelivery(h)
  {
  }

  lemma DeliveryToMutex(s: System, h: nat, at: DeliveryAt, holder: Holder)
    requires MutexOk(s) && h in s.deliveries
    requires holder == (if at == Finding || at == Cancelling then ByDelivery(h) else Free)
    requires if InsideSection(s.deliveries[h]) then true else s.holder == Free
    ensures MutexOk(DeliveryTo(s, h, at, holder))
  {
    hide InSection;
  }

  /** A handler is dropped, or turns to the next Run. */
  lemma DeliveryEnds(s: System, h: nat, max: nat)
    requires Safe(s, max) && h in s.deliveries
    ensures Safe(s.(deliveries := s.deliveries - {h}, holder := if s.holder == ByDelivery(h) then Free else s.holder),
              max)
    ensures !InsideSection(s.deliveries[h]) ==> Safe(Onwards(s, h), max)
  {
    hide Sound, LoopOk, StartsOk, Active, Closed, MutexOk, Creating, Settled;
    var dropped := s.(deliveries := s.deliveries - {h}, holder := if s.holder == ByDelivery(h) then Free else s.holder);
    assert DeliveryOk(s, s.deliveries[h]);
    OnwardsMutex(s, h);
    hide SlowOk;
    DeliveryMoves(s, dropped, h, max);
    if !InsideSection(s.deliveries[h]) {
      DeliveryMoves(s, Onwards(s, h), h, max);
    }
  }

  /** The handler that finds no instance under the mutex knows the loop is not about to create one. */
  lemma LookedFor(s: System, h: nat)
    requires MutexOk(s) && h in s.deliveries && InsideSection(s.deliveries[h])
    ensures s.holder == ByDelivery(h) && forall run :: !Creating(s, run)
  {
  }

  lemma FindingSafe(s: System, h: nat, max: nat)
    requires Safe(s, max) && h in s.deliveries && (s.deliveries[h].at == Queueing || s.deliveries[h].at == Finding)
    requires s.deliveries[h].at == Queueing ==> s.holder == Free
    ensures Safe(DeliveryNext(s, h, Good), max)
  {
    hide Sound, LoopOk, StartsOk, Active, Closed, MutexOk, Creating, Settled;
    var d := s.deliveries[h];
    assert DeliveryOk(s, d);
    hide SlowOk;
    if d.at == Queueing {
      DeliveryToMutex(s, h, Finding, ByDelivery(h));
      DeliveryMoves(s, DeliveryTo(s, h, Finding, ByDelivery(h)), h, max);
    } else {
      LookedFor(s, h);
      var at, holder := if d.run in s.instances then Cancelling
          else MarkingAbsent, if d.run in s.instances then s.holder else Free;
      DeliveryToMutex(s, h, at, holder);
      DeliveryMoves(s, DeliveryTo(s, h, at, holder), h, max);
    }
  }

  lemma CancelSafe(s: System, run: Uid, max: nat)
    requires Safe(s, max) && run in s.instances
    ensures Safe(Cancel(s, run), max) && Settled(Cancel(s, run), run)
  {
    hide Sound, SlowOk, Active, IsCancelled, MutexOk;
    CancelSlow(s, run);
    SameMutex(s, Cancel(s, run));
    assert forall r :: Started(s, r) ==> Started(Cancel(s, run), r);
  }

  lemma CancellingSafe(s: System, h: nat, max: nat)
    requires Safe(s, max) && h in s.deliveries && s.deliveries[h].at == Cancelling
    ensures Safe(DeliveryNext(s, h, Good), max)
  {
    hide Sound, LoopOk, StartsOk, Active, Closed, MutexOk, Creating, Settled;
    var run := s.deliveries[h].run;
    assert DeliveryOk(s, s.deliveries[h]);
    CancelSafe(s, run, max);
    var cancelled := Cancel(s, run);
    assert DeliveryOk(cancelled, cancelled.deliveries[h]);
    hide SlowOk;
    DeliveryToMutex(cancelled, h, Marking, Free);
    DeliveryMoves(cancelled, DeliveryTo(cancelled, h, Marking, Free), h, max);
  }

  // ---------------------------------------------------------------- acknowledging a cancellation

  /** Marking is safe once the instance is cancelled, or absent for good. */
  lemma MarkSafe(s: System, run: Uid, max: nat)
    requires Safe(s, max) && Settled(s, run)
    ensures Safe(s.(tables := MarkDelivered(s.tables, run)), max)
  {
    hide Sound, Active, Onward, Closed, StartOver, Retired, LoopOk, StartsOk, MutexOk;
    var after := MarkDelivered(s.tables, run);
    ApplySound(s.tables, Delivering(run));
    AppliesOnward(s.tables, Delivering(run));
    MarkFramed(s.tables, run);
    FastTables(s, after, max);
    MarkSlow(s, run);
    hide SlowOk;
    MutexTables(s, after);
  }

  lemma MutexTables(s: System, after: Tables)
    requires MutexOk(s)
    ensures MutexOk(s.(tables := after))
  {
  }

  lemma MarkFramed(t: Tables, run: Uid)
    ensures Framed(t, MarkDelivered(t, run))
    ensures MarkDelivered(t, run).cancellations.Keys == t.cancellations.Keys
  {
    var after := MarkDelivered(t, run);
    assert Active(after) == Active(t);
  }

  lemma MarkSlow(s: System, run: Uid)
    requires SlowOk(s) && Settled(s, run)
    requires Onward(s.tables, MarkDelivered(s.tables, run))
    ensures SlowOk(s.(tables := MarkDelivered(s.tables, run)))
  {
    hide StartOver, Closed, Retired;
    var next := s.(tables := MarkDelivered(s.tables, run));
    assert forall r :: Settled(s, r) ==> Settled(next, r);
    hide Settled;
    forall r | Delivered(next.tables, r) ensures Settled(next, r) {
      assert r == run || Delivered(s.tables, r);
    }
    forall h | h in next.deliveries ensures DeliveryOk(next, next.deliveries[h]) {
      assert DeliveryOk(s, s.deliveries[h]);
    }
  }

  lemma MarkingSafe(s: System, h: nat, max: nat)
    requires Safe(s, max) && h in s.deliveries && (s.deliveries[h].at == Marking || s.deliveries[h].at == MarkingAbsent)
    ensures Safe(DeliveryNext(s, h, Good), max)
  {
    hide Sound, LoopOk, StartsOk, Active, MutexOk, Creating, StartLeft;
    var d := s.deliveries[h];
    assert DeliveryOk(s, d);
    hide SlowOk;
    var tables := if d.at == Marking then MarkDelivered(s.tables, d.run) else MarkIfImpossible(s.tables, d.run).0;
    if tables != s.tables {
      MarkSafe(s, d.run, max);
    }
    DeliveryEnds(s.(tables := tables), h, max);
  }

  lemma DeliverySafe(s: System, h: nat, turn: Turn, max: nat)
    requires Safe(s, max) && DeliveryEnabled(s, h, turn)
    ensures Safe(DeliveryNext(s, h, turn), max)
  {
    hide Safe, Active, MutexOk;
    if turn != Good {
      DeliveryEnds(s, h, max);
    } else if s.deliveries[h].at == Cancelling {
      CancellingSafe(s, h, max);
    } else if s.deliveries[h].at == Marking || s.deliveries[h].at == MarkingAbsent {
      MarkingSafe(s, h, max);
    } else {
      FindingSafe(s, h, max);
    }
  }

  // ---------------------------------------------------------------- retention

  lemma PruneSafe(s: System, h: nat, max: nat)
    requires Safe(s, max) && PruneEnabled(s, h)
    ensures Safe(PruneNext(s, h), max)
  {
    hide Sound, Active, IsCancelled, Closed, MutexOk, StartOver;
    var r := s.retentions[h];
    var run := r.planned[r.done];
    var next := PruneNext(s, h);
    assert Retired(s.tables, run);
    FreeMutex(s);
    PruneSlow(s, h);
    hide SlowOk;
    PruneFast(s, h, max);
    assert MutexOk(next) by {
      hide InSection, InsideSection;
      SameMutex(s, next);
    }
  }

  /** With the mutex free nobody is between finding an instance and acting on it. */
  lemma FreeMutex(s: System)
    requires MutexOk(s) && s.holder == Free
    ensures s.loop.Working? ==> !InSection(s.loop.at)
    ensures forall h :: h in s.deliveries ==> s.deliveries[h].at != Cancelling
  {
  }

  lemma PruneSlow(s: System, h: nat)
    requires SlowOk(s) && PruneEnabled(s, h)
    requires Retired(s.tables, s.retentions[h].planned[s.retentions[h].done])
    requires forall k :: k in s.deliveries ==> s.deliveries[k].at != Cancelling
    ensures SlowOk(PruneNext(s, h))
  {
    hide Closed, StartOver, Delivered, Alive;
    var next := PruneNext(s, h);
    assert forall r :: Settled(s, r) ==> Settled(next, r);
    hide Settled;
    forall k | k in next.deliveries ensures DeliveryOk(next, next.deliveries[k]) {
      assert DeliveryOk(s, s.deliveries[k]);
    }
  }

  lemma PruneFast(s: System, h: nat, max: nat)
    requires LoopOk(s, max) && StartsOk(s) && PruneEnabled(s, h)
    requires s.loop.Working? ==> !InSection(s.loop.at)
    requires Retired(s.tables, s.retentions[h].planned[s.retentions[h].done])
    ensures LoopOk(PruneNext(s, h), max) && StartsOk(PruneNext(s, h))
  {
    hide Active, IsCancelled;
    var run := s.retentions[h].planned[s.retentions[h].done];
    if s.loop.Working? && s.tables.outbox[s.loop.id].starts {
      assert IsStart(s.tables, s.loop.id, s.loop.run);
      assert run != s.loop.run;
    }
  }

  /** A Run that may be collected is retired. */
  lemma CollectableRetired(t: Tables, run: Uid)
    requires Sound(t) && Collectable(t, run)
    ensures Retired(t, run)
  {
    hide OneRecord, OneCommand, Backed, RunsBacked, Projections;
    forall id | id in t.outbox && IsStart(t, id, run) ensures t.outbox[id].state == CommandState.Completed {
      assert !WorkLeft(t, run);
    }
  }

  lemma RetentionsChange(s: System, next: System, max: nat)
    requires Safe(s, max) && next == s.(retentions := next.retentions) && RetentionsOk(next)
    ensures Safe(next, max)
  {
    hide Sound, LoopOk, StartsOk, Active, MutexOk, Closed, StartOver, Retired, Delivered;
    assert forall run :: Settled(next, run) <==> Settled(s, run);
    hide Settled;
    forall k | k in next.deliveries ensures DeliveryOk(next, next.deliveries[k]) {
      assert DeliveryOk(s, s.deliveries[k]);
    }
    LoopSame(s, next, max);
    SameMutex(s, next);
  }

  // ---------------------------------------------------------------- every step

  lemma FinishSlow(s: System, next: System)
    requires SlowOk(s) && next == s.(instances := next.instances)
    requires forall r :: r in next.instances <==> r in s.instances
    requires forall r :: r in s.instances ==> next.instances[r].cancelled == s.instances[r].cancelled
    ensures SlowOk(next)
  {
    hide Closed, StartOver, Retired, Delivered;
    assert forall r :: Settled(s, r) ==> Settled(next, r);
    hide Settled;
    forall h | h in next.deliveries ensures DeliveryOk(next, next.deliveries[h]) {
      assert DeliveryOk(s, s.deliveries[h]);
    }
  }

  lemma FinishFast(s: System, next: System, max: nat)
    requires LoopOk(s, max) && StartsOk(s) && next == s.(instances := next.instances)
    requires forall r :: r in next.instances <==> r in s.instances
    ensures LoopOk(next, max) && StartsOk(next)
  {
    hide Active, IsCancelled;
  }

  lemma FinishSafe(s: System, run: Uid, max: nat)
    requires Safe(s, max) && run in s.instances
    ensures Safe(s.(instances := s.instances[run := s.instances[run].(finished := true)]), max)
  {
    hide Sound, Active, MutexOk, SlowOk, LoopOk, StartsOk;
    var next := s.(instances := s.instances[run := s.instances[run].(finished := true)]);
    SameMutex(s, next);
    FinishSlow(s, next);
    FinishFast(s, next, max);
  }

  lemma CrashSafe(s: System, max: nat)
    requires Safe(s, max)
    ensures Safe(Next(s, Crash, max), max)
  {
    hide Sound, Active, Closed, StartOver, Retired, Delivered, StartsOk, Established;
    CrashStarts(s, max);
    CrashSettles(s, max);
    hide Settled;
  }

  lemma CrashStarts(s: System, max: nat)
    requires StartsOk(s)
    ensures StartsOk(Next(s, Crash, max))
  {
  }

  lemma CrashSettles(s: System, max: nat)
    ensures forall r :: Settled(s, r) ==> Settled(Next(s, Crash, max), r)
  {
  }

  lemma CollectPlannedSafe(s: System, h: nat, max: nat)
    requires Safe(s, max) && h in s.retentions
    ensures Safe(Next(s, CollectPlanned(h), max), max)
    ensures Safe(Next(s, QuitRetention(h), max), max)
  {
    hide Safe, Collect;
    QuietSafe(s, Collecting(s.retentions[h].planned), max);
    var collected := s.(tables := Apply(s.tables, Collecting(s.retentions[h].planned)));
    FewerRetentions(s, h, max);
    FewerRetentions(collected, h, max);
  }

  lemma FewerRetentions(s: System, h: nat, max: nat)
    requires Safe(s, max) && h in s.retentions
    ensures Safe(s.(retentions := s.retentions - {h}), max)
  {
    var next := s.(retentions := s.retentions - {h});
    assert RetentionsOk(next) by {
      hide Sound, LoopOk, StartsOk, Active, MutexOk, DeliveriesOk, HistoryOk, DeliveredOk, Retired;
    }
    hide Safe, RetentionsOk;
    RetentionsChange(s, next, max);
  }

  lemma BeginRetentionSafe(s: System, h: nat, runs: seq<Uid>, max: nat)
    requires Safe(s, max) && h !in s.retentions && AllCollectable(s.tables, runs)
    ensures Safe(Next(s, BeginRetention(h, runs), max), max)
  {
    hide Sound, LoopOk, StartsOk, Active, MutexOk, DeliveriesOk, HistoryOk, DeliveredOk, Retired, Collectable;
    var next := Next(s, BeginRetention(h, runs), max);
    forall i | 0 <= i < |runs| ensures Retired(s.tables, runs[i]) {
      CollectableRetired(s.tables, runs[i]);
    }
    RetentionsChange(s, next, max);
  }

  /** Whoever has a cancellation, or has just asked for one, is closed. */
  lemma RequestedCloses(t: Tables, run: Uid, reason: string)
    requires Sound(t) && RequestCancellation(t, run, reason).Some?
    ensures Closed(RequestCancellation(t, run, reason).value, run)
  {
    hide OneRecord, OneCommand, Backed, RunsBacked, WithCancellation, Projections;
    SoundPhase(t, run);
    CancellationEnds(t, run, reason);
  }

  lemma CancellationEnds(t: Tables, run: Uid, reason: string)
    ensures run in t.runs ==> WithCancellation(t.runs[run].log, reason).phase == Phase.Cancelled
  {
  }

  lemma CancelledCloses(t: Tables, run: Uid)
    requires Sound(t) && run in t.cancellations
    ensures Closed(t, run)
  {
    hide OneRecord, OneCommand, Backed, RunsBacked, Projections;
    SoundPhase(t, run);
  }

  lemma BeginCancelSafe(s: System, h: nat, run: Uid, reason: string, max: nat)
    requires Safe(s, max) && Enabled(s, BeginCancel(h, run, reason))
    ensures Safe(Next(s, BeginCancel(h, run, reason), max), max)
  {
    hide Safe, Closed, RequestCancellation;
    QuietSafe(s, Requesting(run, reason), max);
    SafeSound(s, max);
    RequestedCloses(s.tables, run, reason);
    var requested := s.(tables := Apply(s.tables, Requesting(run, reason)));
    DeliveryBegins(requested, h, Delivery(Queueing, run, []), max);
  }

  lemma SafeSound(s: System, max: nat)
    requires Safe(s, max)
    ensures Sound(s.tables)
  {
    hide Sound, LoopOk, StartsOk, Active, MutexOk, SlowOk;
  }

  lemma BeginReconcileSafe(s: System, h: nat, runs: seq<Uid>, max: nat)
    requires Safe(s, max) && Enabled(s, BeginReconcile(h, runs))
    ensures Safe(Next(s, BeginReconcile(h, runs), max), max)
  {
    hide Safe, Closed, Sound;
    SafeSound(s, max);
    forall i | 0 <= i < |runs| ensures Closed(s.tables, runs[i]) {
      CancelledCloses(s.tables, runs[i]);
    }
    DeliveryBegins(s, h, Delivery(Queueing, runs[0], runs[1..]), max);
  }

  lemma ClaimSafe(s: System, id: nat, max: nat)
    requires Safe(s, max) && Enabled(s, Claim(id))
    ensures Safe(Next(s, Claim(id), max), max)
  {
    hide Sound, SlowOk, Active, Onward, Delivered, IsCancelled, Closed, StartOver, Retired;
    var move := Dispatching(id, Inflight);
    var after := Dispatch(s.tables, id, Inflight);
    ApplySound(s.tables, move);
    AppliesOnward(s.tables, move);
    SameRuns(s.tables, after);
    SameDeliveries(s.tables, after);
    SlowTables(s, after);
    SlowStays(s.(tables := after), Next(s, Claim(id), max));
  }

  lemma StepSafe(s: System, step: Step, max: nat)
    requires Safe(s, max) && Enabled(s, step)
    ensures Safe(Next(s, step, max), max)
  {
    hide Safe, LoopNext, DeliveryNext, PruneNext, LoopEnabled, DeliveryEnabled, PruneEnabled, Apply, AllCollectable,
         Undelivered,
         RequestCancellation, Dispatch, Collect;
    match step
    case Transaction(move) => QuietSafe(s, move, max);
    case Claim(id) => ClaimSafe(s, id, max);
    case LoopTurn(turn) => LoopSafe(s, turn, max);
    case BeginCancel(h, run, reason) => BeginCancelSafe(s, h, run, reason, max);
    case BeginReconcile(h, runs) => BeginReconcileSafe(s, h, runs, max);
    case DeliveryTurn(h, turn) => DeliverySafe(s, h, turn, max);
    case BeginRetention(h, runs) => BeginRetentionSafe(s, h, runs, max);
    case Prune(h) => PruneSafe(s, h, max);
    case CollectPlanned(h) => CollectPlannedSafe(s, h, max);
    case QuitRetention(h) => CollectPlannedSafe(s, h, max);
    case InstanceFinishes(run) => FinishSafe(s, run, max);
    case Crash => CrashSafe(s, max);
  }

  lemma StartSafe(max: nat)
    ensures Safe(START, max)
  {
    EmptySound();
    assert Active(EMPTY) == {};
  }

  lemma {:induction false} RunSafe(states: seq<System>, steps: seq<Step>, max: nat, i: nat)
    requires IsRun(states, steps, max) && Safe(states[0], max) && i <= |steps|
    ensures Safe(states[i], max)
  {
    hide Safe, Next, Enabled;
    if i > 0 {
      RunSafe(states, steps, max, i - 1);
      StepSafe(states[i - 1], steps[i - 1], max);
    }
  }

  lemma ReachableSafe(s: System, max: nat)
    requires Reachable(s, max)
    ensures Safe(s, max)
  {
    hide Safe, Next, Enabled;
    var states, steps :| IsRun(states, steps, max) && states[0] == START && states[|steps|] == s;
    StartSafe(max);
    RunSafe(states, steps, max, |steps|);
  }

  // ---------------------------------------------------------------- what it means

  /**
   * No lost cancellation: once a cancellation is marked delivered, the workflow instance is cancelled, or it is
   * absent and stays absent in every continuation, crashes included.
   */
  lemma NoLostCancellation(states: seq<System>, steps: seq<Step>, max: nat, run: Uid, i: nat, j: nat)
    requires IsRun(states, steps, max) && states[0] == START && i <= j <= |steps|
    requires Delivered(states[i].tables, run)
    ensures Settled(states[i], run)
    ensures run !in states[i].instances ==> run !in states[j].instances
  {
    hide Safe, Next, Enabled;
    StartSafe(max);
    RunSafe(states, steps, max, i);
    DeliveredSettled(states[i], run, max);
    if run !in states[i].instances {
      StaysAbsent(states, steps, max, run, i, j);
    }
  }

  lemma DeliveredSettled(s: System, run: Uid, max: nat)
    requires Safe(s, max) && Delivered(s.tables, run)
    ensures Settled(s, run)
  {
    hide Sound, LoopOk, StartsOk, Active, MutexOk, DeliveriesOk, RetentionsOk, HistoryOk, Delivered, Settled;
  }

  /** An instance that is absent and cannot be started is never created. */
  lemma AbsentStep(s: System, step: Step, max: nat, run: Uid)
    requires Safe(s, max) && Enabled(s, step) && run !in s.instances && StartOver(s.tables, run)
    ensures run !in Next(s, step, max).instances && StartOver(Next(s, step, max).tables, run)
  {
    hide Sound, SlowOk, StartsOk, Active, MutexOk, StartOver;
    var move := MoveOf(s, step, max);
    SafeSound(s, max);
    AppliesOnward(s.tables, move);
    hide Onward;
    if s.loop.Working? && s.loop.at == Create {
      NotOver(s, max);
    }
    InstancesGrow(s, step, max);
  }

  /** Instances appear only where the loop creates one. */
  lemma InstancesGrow(s: System, step: Step, max: nat)
    requires Enabled(s, step)
    ensures forall r :: r in Next(s, step, max).instances && r !in s.instances ==>
              s.loop.Working? && s.loop.at == Create && r == s.loop.run
  {
    hide Apply, Collect, RequestCancellation, MarkIfImpossible, MarkDelivered, EnsureRun, Dispatch, Suppress, Look,
         Active;
  }

  /** The transaction a step performs on the tables; a step without one counts as an empty collection. */
  lemma MoveOf(s: System, step: Step, max: nat) returns (move: Move)
    requires Safe(s, max) && Enabled(s, step)
    ensures Allowed(s.tables, move) && Next(s, step, max).tables == Apply(s.tables, move)
  {
    hide Sound, SlowOk, StartsOk, Active, MutexOk, LoopNext, LoopOk, DeliveryNext;
    move := Collecting([]);
    NothingMoves(s.tables);
    match step {
      case Transaction(m) => move := m;
      case Claim(id) => move := Dispatching(id, Inflight);
      case LoopTurn(turn) => move := LoopMove(s, turn, max);
      case BeginCancel(h, run, reason) => move := Requesting(run, reason);
      case DeliveryTurn(h, turn) =>
        DeliveryMarks(s, h, turn);
        if DeliveryNext(s, h, turn).tables != s.tables {
          move := Delivering(s.deliveries[h].run);
        }
      case CollectPlanned(h) => move := Collecting(s.retentions[h].planned);
      case _ =>
    }
  }

  /** A turn of a handler changes the tables only by marking its cancellation delivered. */
  lemma DeliveryMarks(s: System, h: nat, turn: Turn)
    requires DeliveryEnabled(s, h, turn)
    ensures DeliveryNext(s, h, turn).tables != s.tables ==>
              && Allowed(s.tables, Delivering(s.deliveries[h].run))
              && DeliveryNext(s, h, turn).tables == Apply(s.tables, Delivering(s.deliveries[h].run))
  {
  }

  lemma LoopMove(s: System, turn: Turn, max: nat) returns (move: Move)
    requires Safe(s, max) && LoopEnabled(s, turn)
    ensures Allowed(s.tables, move) && LoopNext(s, turn, max).tables == Apply(s.tables, move)
  {
    hide Safe, Allowed, Apply, LoopNext, LoopOk;
    move := Collecting([]);
    NothingMoves(s.tables);
    if turn == Good && s.loop.at == Open {
      move := Opening(s.loop.id);
      OpenMoves(s, max);
    } else if turn == Good && s.loop.at == Hush {
      if Suppress(s.tables, s.loop.id, s.loop.run).1 {
        move := Dispatching(s.loop.id, CommandState.Completed);
      }
      HushMoves(s, max);
    } else if turn == Good && (s.loop.at == Finish || s.loop.at == Retry) {
      move := Dispatching(s.loop.id, if s.loop.at == Finish then CommandState.Completed else Waits);
      ReturnMoves(s, max);
    } else {
      ReadMoves(s, turn, max);
    }
  }

  lemma NothingMoves(t: Tables)
    ensures Allowed(t, Collecting([])) && Apply(t, Collecting([])) == t
  {
  }

  lemma OpenMoves(s: System, max: nat)
    requires Safe(s, max) && s.loop.Working? && s.loop.at == Open
    ensures Allowed(s.tables, Opening(s.loop.id))
    ensures LoopNext(s, Good, max).tables == Apply(s.tables, Opening(s.loop.id))
  {
    hide Safe, EnsureRun, Look, Suppress, Dispatch, Apply, Allowed;
    OpenTables(s, max);
  }

  lemma HushMoves(s: System, max: nat)
    requires Safe(s, max) && s.loop.Working? && s.loop.at == Hush
    ensures var done := Suppress(s.tables, s.loop.id, s.loop.run).1;
            var move := if done then Dispatching(s.loop.id, CommandState.Completed) else Collecting([]);
            Allowed(s.tables, move) && LoopNext(s, Good, max).tables == Apply(s.tables, move)
  {
    hide Safe, Look, EnsureRun;
    LoopHolds(s, max);
  }

  lemma ReturnMoves(s: System, max: nat)
    requires Safe(s, max) && s.loop.Working? && (s.loop.at == Finish || s.loop.at == Retry)
    ensures var move := Dispatching(s.loop.id, if s.loop.at == Finish then CommandState.Completed else Waits);
            Allowed(s.tables, move) && LoopNext(s, Good, max).tables == Apply(s.tables, move)
  {
    hide Safe, Look, EnsureRun, Suppress, Active, Sound;
    LoopHolds(s, max);
  }

  /** Any other turn of the loop leaves the tables alone. */
  lemma ReadMoves(s: System, turn: Turn, max: nat)
    requires LoopEnabled(s, turn)
    requires turn != Good || (s.loop.at != Open && s.loop.at != Hush && s.loop.at != Finish && s.loop.at != Retry)
    ensures LoopNext(s, turn, max).tables == s.tables
  {
    hide Look, EnsureRun, Suppress, Dispatch, Active, IsCancelled;
  }

  lemma {:induction false} StaysAbsent(states: seq<System>, steps: seq<Step>, max: nat, run: Uid, i: nat, j: nat)
    requires IsRun(states, steps, max) && states[0] == START && i <= j <= |steps|
    requires run !in states[i].instances && StartOver(states[i].tables, run)
    ensures run !in states[j].instances && StartOver(states[j].tables, run)
    decreases j
  {
    hide Safe, Next, Enabled, StartOver;
    if i < j {
      StaysAbsent(states, steps, max, run, i, j - 1);
      StartSafe(max);
      RunSafe(states, steps, max, j - 1);
      AbsentStep(states[j - 1], steps[j - 1], max, run);
    }
  }

  /**
   * Outbox safety in every reachable state: the tables are consistent, no more than the configured number of Runs is
   * active, and a completed start of a Run not yet collected has its Run. Unless the Run is cancelled, its instance
   * exists exactly as long as retention has not removed it, which happens only after the Run has ended.
   */
  lemma OutboxSafety(s: System, max: nat, id: nat)
    requires Reachable(s, max)
    ensures Sound(s.tables)
    ensures |set run | run in s.tables.runs && !Terminal(s.tables.runs[run].log.phase)| <= max
    ensures id in s.tables.outbox && s.tables.outbox[id].starts
            && s.tables.outbox[id].state == CommandState.Completed ==>
              var run := s.tables.outbox[id].run;
              && run in s.tables.runs
              && (!IsCancelled(s.tables, run) ==> (run in s.instances <==> run !in s.pruned))
              && (run in s.pruned ==> Ended(s.tables, run))
  {
    hide Reachable, OneRecord, Issued, OneCommand, Backed, Projections, MutexOk, LoopOk, DeliveriesOk, RetentionsOk,
         DeliveredOk, Active, IsCancelled;
    ReachableSafe(s, max);
    ActiveMeans(s.tables);
  }

  /** The active Runs are those that have not ended. */
  lemma ActiveMeans(t: Tables)
    ensures Active(t) == set run | run in t.runs && !Terminal(t.runs[run].log.phase)
  {
  }

  /** In every reachable state, a Run whose start is completed and that has not ended has its workflow instance. */
  lemma LiveRunHasInstance(s: System, max: nat, id: nat)
    requires Reachable(s, max)
    requires id in s.tables.outbox && s.tables.outbox[id].starts && s.tables.outbox[id].state == CommandState.Completed
    requires !Ended(s.tables, s.tables.outbox[id].run)
    ensures s.tables.outbox[id].run in s.tables.runs && s.tables.outbox[id].run in s.instances
  {
    hide Reachable, Sound, Active;
    OutboxSafety(s, max, id);
  }

  lemma StepReachable(s: System, step: Step, max: nat)
    requires Reachable(s, max) && Enabled(s, step)
    ensures Reachable(Next(s, step, max), max)
  {
    hide Next, Enabled;
    var states, steps :| IsRun(states, steps, max) && states[0] == START && states[|steps|] == s;
    assert IsRun(states + [Next(s, step, max)], steps + [step], max);
  }

  /** The Run 1 of the first acceptance, alone in the system. */
  ghost function Alone(state: CommandState, log: Option<Log>, instance: Option<Instance>, loop: Loop,
                       holder: Holder): System {
    System(Tables(map[Key("manual", "1") := Receipt(0, 1, true)], map[], map[0 := Command(true, 1, 0, "plan", state)],
        1,
                  if log.Some? then map[1 := RunRow(0, "plan", log.value)] else map[], {"plan"}, map[], 2),
           if instance.Some? then map[1 := instance.value] else map[], loop, holder, map[], map[],
           if instance.Some? then {1} else {}, {})
  }

  lemma AcceptedAlone(max: nat)
    requires max >= 1
    ensures Reachable(Alone(Inflight, None, None, Working(Count, 0, 1), Free), max)
  {
    var s0 := START;
    assert IsRun([s0], [], max);
    var s1 := Alone(Waits, None, None, Resting, Free);
    var accept := Transaction(Accepting(Key("manual", "1"), "plan", true, true));
    StepReachable(s0, accept, max);
    assert Next(s0, accept, max) == s1;
    StepReachable(s1, Claim(0), max);
    var s2 := Alone(Inflight, None, None, Working(Load, 0, 1), Free);
    assert Next(s1, Claim(0), max) == s2;
    StepReachable(s2, LoopTurn(Good), max);
    var s3 := Alone(Inflight, None, None, Working(Check, 0, 1), Free);
    assert Next(s2, LoopTurn(Good), max) == s3;
    StepReachable(s3, LoopTurn(Good), max);
    assert Next(s3, LoopTurn(Good), max) == Alone(Inflight, None, None, Working(Count, 0, 1), Free);
  }

  lemma StartedAlone(max: nat)
    requires max >= 1
    ensures Reachable(Alone(CommandState.Completed, Some(Opened()), Some(Instance(false, false)), Resting, Free), max)
  {
    hide Reachable;
    AcceptedAlone(max);
    var s3 := Alone(Inflight, None, None, Working(Count, 0, 1), Free);
    assert Active(s3.tables) == {};
    StepReachable(s3, LoopTurn(Good), max);
    var s4 := Alone(Inflight, None, None, Working(Open, 0, 1), Free);
    assert Next(s3, LoopTurn(Good), max) == s4;
    StepReachable(s4, LoopTurn(Good), max);
    var run := Some(Opened());
    var s5 := Alone(Inflight, run, None, Working(Hush, 0, 1), Free);
    assert Next(s4, LoopTurn(Good), max) == s5;
    StepReachable(s5, LoopTurn(Good), max);
    var s6 := Alone(Inflight, run, None, Working(Enter, 0, 1), Free);
    assert Next(s5, LoopTurn(Good), max) == s6;
    EnteredAlone(max);
  }

  lemma EnteredAlone(max: nat)
    requires Reachable(Alone(Inflight, Some(Opened()), None, Working(Enter, 0, 1), Free), max)
    ensures Reachable(Alone(CommandState.Completed, Some(Opened()), Some(Instance(false, false)), Resting, Free), max)
  {
    hide Reachable;
    var run := Some(Opened());
    var s6 := Alone(Inflight, run, None, Working(Enter, 0, 1), Free);
    StepReachable(s6, LoopTurn(Good), max);
    var s7 := Alone(Inflight, run, None, Working(Inspect, 0, 1), ByLoop);
    assert Next(s6, LoopTurn(Good), max) == s7;
    StepReachable(s7, LoopTurn(Good), max);
    var s8 := Alone(Inflight, run, None, Working(Find, 0, 1), ByLoop);
    assert Next(s7, LoopTurn(Good), max) == s8;
    StepReachable(s8, LoopTurn(Good), max);
    var s9 := Alone(Inflight, run, None, Working(Create, 0, 1), ByLoop);
    assert Next(s8, LoopTurn(Good), max) == s9;
    CreatedAlone(max);
  }

  lemma CreatedAlone(max: nat)
    requires Reachable(Alone(Inflight, Some(Opened()), None, Working(Create, 0, 1), ByLoop), max)
    ensures Reachable(Alone(CommandState.Completed, Some(Opened()), Some(Instance(false, false)), Resting, Free), max)
  {
    hide Reachable;
    var run, instance := Some(Opened()), Some(Instance(false, false));
    var s9 := Alone(Inflight, run, None, Working(Create, 0, 1), ByLoop);
    StepReachable(s9, LoopTurn(Good), max);
    var s10 := Alone(Inflight, run, instance, Working(Recheck, 0, 1), ByLoop);
    assert Next(s9, LoopTurn(Good), max) == s10;
    StepReachable(s10, LoopTurn(Good), max);
    var s11 := Alone(Inflight, run, instance, Working(Finish, 0, 1), Free);
    assert Next(s10, LoopTurn(Good), max) == s11;
    StepReachable(s11, LoopTurn(Good), max);
    assert Next(s11, LoopTurn(Good), max) == Alone(CommandState.Completed, run, instance, Resting, Free);
  }

  /**
   * Between the removal of its workflow history and its collection, a succeeded Run has a completed start and no
   * instance: a run of the system that gets there.
   */
  lemma PrunedBeforeCollected(max: nat) returns (s: System)
    requires max >= 1
    ensures Reachable(s, max) && StartedBy(s.tables, 1, 0) && s.tables.outbox[0].state == CommandState.Completed
    ensures 1 !in s.instances && s.tables.runs[1].log.phase == Succeeded
  {
    StartedAlone(max);
    var s12 := Alone(CommandState.Completed, Some(Opened()), Some(Instance(false, false)), Resting, Free);
    var ended := Appended(Opened(), "", 0, "run.succeeded", Succeeded);
    var succeed := Transaction(Appending(1, "", 0, "run.succeeded", Succeeded));
    StepReachable(s12, succeed, max);
    var s13 := Alone(CommandState.Completed, Some(ended), Some(Instance(false, false)), Resting, Free);
    assert Next(s12, succeed, max) == s13;
    StepReachable(s13, InstanceFinishes(1), max);
    var s14 := Alone(CommandState.Completed, Some(ended), Some(Instance(false, true)), Resting, Free);
    assert Next(s13, InstanceFinishes(1), max) == s14;
    assert Collectable(s14.tables, 1);
    StepReachable(s14, BeginRetention(0, [1]), max);
    var s15 := Next(s14, BeginRetention(0, [1]), max);
    StepReachable(s15, Prune(0), max);
    s := Next(s15, Prune(0), max);
  }

  /** A completed command is never pending again: it stays completed until its Run is collected. */
  lemma CompletedStays(s: System, step: Step, max: nat, id: nat)
    requires Reachable(s, max) && Enabled(s, step)
    requires id in s.tables.outbox && s.tables.outbox[id].state == CommandState.Completed
    ensures var next := Next(s, step, max).tables;
            if id in next.outbox then next.outbox[id] == s.tables.outbox[id] else s.tables.outbox[id].run !in next.runs
  {
    hide Reachable, Sound, Safe, Next, Enabled;
    ReachableSafe(s, max);
    var move := MoveOf(s, step, max);
    SafeSound(s, max);
    CompletedKept(s.tables, move, id);
  }

  lemma CompletedKept(t: Tables, move: Move, id: nat)
    requires Sound(t) && Allowed(t, move)
    requires id in t.outbox && t.outbox[id].state == CommandState.Completed
    ensures var next := Apply(t, move);
            if id in next.outbox then next.outbox[id] == t.outbox[id] else t.outbox[id].run !in next.runs
  {
    hide OneRecord, OneCommand, Backed, RunsBacked, Projections, Collectable, Lookup;
    if move.Collecting? {
      CollectKeeps(t, move.runs, id);
    }
  }

  lemma {:induction false} CollectShrinks(t: Tables, runs: seq<Uid>)
    ensures Collect(t, runs).Some? ==>
              Collect(t, runs).value.outbox.Keys <= t.outbox.Keys && Collect(t, runs).value.runs.Keys <= t.runs.Keys
    decreases |runs|
  {
    hide Collectable;
    if runs != [] {
      if runs[0] !in t.runs {
        CollectShrinks(t, runs[1..]);
      } else if Collectable(t, runs[0]) {
        CollectShrinks(Removed(t, runs[0]), runs[1..]);
      }
    }
  }

  lemma {:induction false} CollectKeeps(t: Tables, runs: seq<Uid>, id: nat)
    requires id in t.outbox
    ensures Collect(t, runs).Some? ==>
              var next := Collect(t, runs).value;
              if id in next.outbox then next.outbox[id] == t.outbox[id] else t.outbox[id].run !in next.runs
    decreases |runs|
  {
    hide Collectable;
    if runs != [] {
      if runs[0] !in t.runs {
        CollectKeeps(t, runs[1..], id);
      } else if Collectable(t, runs[0]) {
        if t.outbox[id].run != runs[0] {
          CollectKeeps(Removed(t, runs[0]), runs[1..], id);
        } else {
          CollectShrinks(Removed(t, runs[0]), runs[1..]);
        }
      }
    }
  }

  /** The loop never creates an instance that was ever created before. */
  lemma CreatedOnce(s: System, turn: Turn, max: nat)
    requires Reachable(s, max) && LoopEnabled(s, turn) && s.loop.at == Create && (turn == Good || turn == Lost)
    ensures s.loop.run !in s.created && LoopNext(s, turn, max).created == s.created + {s.loop.run}
  {
    hide Safe, Reachable, Active, Look, EnsureRun, Suppress, Dispatch;
    ReachableSafe(s, max);
    CreateSafe(s, turn, max);
  }

  /** In every reachable state each Run is the projection of its log and of its cancellation. */
  lemma RunsProjected(s: System, max: nat, run: Uid)
    requires Reachable(s, max) && run in s.tables.runs
    ensures Projected(s.tables.runs[run].log, run in s.tables.cancellations)
  {
    hide Reachable, OneRecord, Issued, OneCommand, Backed, RunsBacked, MutexOk, LoopOk, SlowOk, StartsOk, Active,
         Projected;
    ReachableSafe(s, max);
  }

  /**
   * An accepted occurrence keeps its receipt in every continuation, crashes and retention included, so accepting it
   * again can only return that receipt.
   */
  lemma {:induction false} ReceiptStays(states: seq<System>, steps: seq<Step>, max: nat, key: Key, i: nat, j: nat)
    requires IsRun(states, steps, max) && states[0] == START && i <= j <= |steps|
    requires Lookup(states[i].tables, key).Some?
    ensures Lookup(states[j].tables, key) == Lookup(states[i].tables, key)
    ensures OneRecord(states[j].tables)
    decreases j
  {
    hide Safe, Next, Enabled, Lookup, Sound;
    StartSafe(max);
    RunSafe(states, steps, max, j);
    SafeSound(states[j], max);
    SoundRecords(states[j].tables);
    if i < j {
      ReceiptStays(states, steps, max, key, i, j - 1);
      RunSafe(states, steps, max, j - 1);
      SafeSound(states[j - 1], max);
      var move := MoveOf(states[j - 1], steps[j - 1], max);
      hide Apply, Allowed, StartOver, Closed, Retired;
      ApplyLasts(states[j - 1].tables, move, 0, key);
    }
  }

  lemma SoundRecords(t: Tables)
    requires Sound(t)
    ensures OneRecord(t)
  {
  }

  // ---------------------------------------------------------------- steps in a row

  /** Where these steps lead. */
  ghost function After(s: System, steps: seq<Step>, max: nat): System {
    if steps == [] then s else Next(After(s, steps[..|steps| - 1], max), steps[|steps| - 1], max)
  }

  lemma OneMoreStep(s: System, steps: seq<Step>, step: Step, max: nat)
    ensures After(s, steps + [step], max) == Next(After(s, steps, max), step, max)
  {
    hide Next;
    assert (steps + [step])[..|steps|] == steps;
  }

  lemma {:induction false} AfterMore(s: System, steps: seq<Step>, more: seq<Step>, max: nat)
    ensures After(s, steps + more, max) == After(After(s, steps, max), more, max)
  {
    hide Next;
    if more == [] {
      assert steps + more == steps;
    } else {
      assert (steps + more)[..|steps + more| - 1] == steps + more[..|more| - 1];
      AfterMore(s, steps, more[..|more| - 1], max);
    }
  }

  lemma NoSteps(s: System, max: nat)
    ensures After(s, [], max) == s
  {
  }

  /**
   * A crash strands no command: whatever was going on, the tables and instances stay, the mutex is free, and any
   * command that is not completed can be claimed next, also the one the loop was working on.
   */
  lemma CrashRecovers(s: System, id: nat, max: nat)
    requires id in s.tables.outbox && s.tables.outbox[id].state != CommandState.Completed
    ensures var after, c := After(s, [Crash, Claim(id)], max), s.tables.outbox[id];
            && after.loop == Working(if c.starts then Load else Send, id, c.run) && after.holder == Free
            && after.tables == s.tables.(outbox := s.tables.outbox[id := c.(state := Inflight)])
            && after.instances == s.instances && after.deliveries == map[] && after.retentions == map[]
  {
    OneMoreStep(s, [], Crash, max);
    OneMoreStep(s, [Crash], Claim(id), max);
    assert [] + [Crash] == [Crash] && [Crash] + [Claim(id)] == [Crash, Claim(id)];
  }

  lemma {:induction false} AfterSafe(s: System, steps: seq<Step>, max: nat)
    requires Safe(s, max)
    ensures Safe(After(s, steps, max), max)
  {
    hide Safe, Enabled;
    if steps != [] {
      var before, last := steps[..|steps| - 1], steps[|steps| - 1];
      AfterSafe(s, before, max);
      if Enabled(After(s, before, max), last) {
        StepSafe(After(s, before, max), last, max);
      }
    }
  }
}
