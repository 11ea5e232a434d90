/** A retention pass as code: the planned Runs lose their workflow history one by one and are then collected at once. */
module RetentionPass {
  import opened RunLog
  import opened Ledger
  import opened LedgerFacts
  import opened LedgerEffects
  import opened Protocol
  import opened ProtocolSafety
  import opened ProtocolSteps

  predicate ByCollector(step: Step, h: nat) {
    step.Crash? || (step.BeginRetention? && step.handler == h) || (step.Prune? && step.handler == h)
    || (step.CollectPlanned? && step.handler == h) || (step.QuitRetention? && step.handler == h)
  }

  lemma LoopKeepsRetentions(s: System, turn: Turn, max: nat)
    requires LoopEnabled(s, turn)
    ensures LoopNext(s, turn, max).retentions == s.retentions
  {
    hide Look, EnsureRun, Suppress, Ledger.Dispatch, Active, InSection;
  }

  /** Steps of others leave a pass where it is. */
  lemma OthersLeavePass(s: System, step: Step, max: nat, h: nat)
    requires Enabled(s, step) && !ByCollector(step, h)
    ensures h in Next(s, step, max).retentions <==> h in s.retentions
    ensures h in s.retentions ==> Next(s, step, max).retentions[h] == s.retentions[h]
  {
    hide Apply, Collect, RequestCancellation, MarkIfImpossible, MarkDelivered, LoopNext, AllCollectable, Undelivered,
         LoopEnabled;
    if step.LoopTurn? {
      LoopKeepsRetentions(s, step.turn, max);
    }
  }

  function Elements(runs: seq<Uid>): set<Uid> {
    set run | run in runs
  }

  predicate AllFinished(s: System, runs: seq<Uid>) {
    forall run :: run in runs && run in s.instances ==> s.instances[run].finished
  }

  /** A pass that nobody disturbs: the planned Runs, what belongs to them, and their instances are gone. */
  ghost predicate CollectedAlone(before: System, after: System, runs: seq<Uid>) {
    && Without(before.tables, after.tables, Planned(before.tables, runs))
    && PlansWithout(before.tables, after.tables, Planned(before.tables, runs))
    && after.instances == before.instances - Elements(runs)
    && after.loop == before.loop && after.deliveries == before.deliveries && after.retentions == before.retentions
  }

  lemma CollectableMayGo(t: Tables, runs: seq<Uid>)
    requires AllCollectable(t, runs)
    ensures forall run :: run in Planned(t, runs) ==> MayGo(t, run)
  {
    hide Collectable, MayGo;
    forall run | run in Planned(t, runs) ensures MayGo(t, run) {
      CollectableGoes(t, run);
    }
  }

  lemma BeginShape(s: System, h: nat, runs: seq<Uid>, max: nat)
    requires h !in s.retentions && AllCollectable(s.tables, runs)
    ensures Enabled(s, BeginRetention(h, runs))
    ensures Next(s, BeginRetention(h, runs), max) == s.(retentions := s.retentions[h := Retention(runs, 0)])
  {
    hide AllCollectable;
  }

  lemma PruneShape(s: System, h: nat, max: nat)
    requires PruneEnabled(s, h)
    ensures Enabled(s, Prune(h)) && Next(s, Prune(h), max) == PruneNext(s, h)
  {
    hide PruneEnabled;
  }

  lemma EndShape(s: System, h: nat, max: nat)
    requires h in s.retentions
    ensures Enabled(s, CollectPlanned(h)) && Enabled(s, QuitRetention(h))
    ensures Next(s, QuitRetention(h), max) == s.(retentions := s.retentions - {h})
    ensures var collected := Collect(s.tables, s.retentions[h].planned);
            Next(s, CollectPlanned(h), max) ==
              s.(retentions := s.retentions - {h}, tables := if collected.Some? then collected.value else s.tables)
  {
    hide Collect;
  }

  /** The collector of one pass; everybody else acts between its calls, unless a call is `quiet`. */
  class Collector {
    var s: System
    const max: nat
    const me: nat

    constructor (system: System, limit: nat, number: nat)
      requires Safe(system, limit)
      ensures s == system && max == limit && me == number
    {
      s, max, me := system, limit, number;
    }

    /** Everyone else. */
    method Others(quiet: bool)
      requires Safe(s, max)
      modifies this
      ensures Safe(s, max) && (quiet ==> s == old(s))
      ensures me in s.retentions <==> me in old(s).retentions
      ensures me in s.retentions ==> s.retentions[me] == old(s).retentions[me]
    {
      hide Safe, Enabled, Next;
      var left: nat := *;
      while left > 0 && !quiet
        invariant Safe(s, max) && (quiet ==> s == old(s))
        invariant me in s.retentions <==> me in old(s).retentions
        invariant me in s.retentions ==> s.retentions[me] == old(s).retentions[me]
      {
        var step: Step := *;
        if !ByCollector(step, me) && Enabled(s, step) {
          OthersLeavePass(s, step, max, me);
          StepSafe(s, step, max);
          s := Next(s, step, max);
        }
        left := left - 1;
      }
    }

    /** The planned Runs lose their workflow history in order; the first that cannot be removed ends the pass. */
    method PruneAll(runs: seq<Uid>, quiet: bool) returns (ok: bool)
      requires Safe(s, max) && me in s.retentions && s.retentions[me] == Retention(runs, 0)
      modifies this
      ensures Safe(s, max)
      ensures if ok then me in s.retentions && s.retentions[me] == Retention(runs, |runs|) else me !in s.retentions
      ensures quiet && old(s).holder == Free && AllFinished(old(s), runs) ==> ok
      ensures quiet && ok ==>
                && s.tables == old(s).tables && s.loop == old(s).loop && s.deliveries == old(s).deliveries
                && s.instances == old(s).instances - Elements(runs)
                && s.retentions - {me} == old(s).retentions - {me}
    {
      hide Safe, Next, Enabled;
      for i := 0 to |runs|
        invariant Safe(s, max) && me in s.retentions && s.retentions[me] == Retention(runs, i)
        invariant quiet ==>
                    && s.tables == old(s).tables && s.holder == old(s).holder && s.loop == old(s).loop
                    && s.instances == old(s).instances - Elements(runs[..i])
                    && s.deliveries == old(s).deliveries && s.retentions - {me} == old(s).retentions - {me}
      {
        Others(quiet);
        var fails: bool := *;
        if (fails && !quiet) || !PruneEnabled(s, me) {
          EndShape(s, me, max);
          StepSafe(s, QuitRetention(me), max);
          s := Next(s, QuitRetention(me), max);
          return false;
        }
        PruneShape(s, me, max);
        StepSafe(s, Prune(me), max);
        assert Elements(runs[..i + 1]) == Elements(runs[..i]) + {runs[i]};
        s := Next(s, Prune(me), max);
      }
      assert runs[..|runs|] == runs;
      ok := true;
    }

    /**
     * The Runs were planned when they had ended and had no work left. They lose their workflow history; then all that
     * are still there are collected, or, if the tables no longer allow it, none is. After a pass that reports success
     * none of them is left.
     */
    method Pass(runs: seq<Uid>, quiet: bool) returns (ok: bool)
      requires Safe(s, max) && me !in s.retentions && AllCollectable(s.tables, runs)
      modifies this
      ensures Safe(s, max) && me !in s.retentions
      ensures ok ==> forall i :: 0 <= i < |runs| ==> runs[i] !in s.tables.runs
      ensures quiet && old(s).holder == Free && AllFinished(old(s), runs) ==> ok && CollectedAlone(old(s), s, runs)
    {
      hide Safe, Next, Enabled, AllCollectable, Collect, Without, PlansWithout, MayGo, Sound, Planned, Elements;
      SafeSound(s, max);
      CollectableMayGo(s.tables, runs);
      BeginShape(s, me, runs, max);
      StepSafe(s, BeginRetention(me, runs), max);
      s := Next(s, BeginRetention(me, runs), max);
      ok := PruneAll(runs, quiet);
      if !ok {
        return;
      }
      Others(quiet);
      SafeSound(s, max);
      EndShape(s, me, max);
      CollectDoes(s.tables, runs);
      ok := Collect(s.tables, runs).Some?;
      if ok {
        CollectedGone(s.tables, Collect(s.tables, runs).value, runs);
      }
      StepSafe(s, CollectPlanned(me), max);
      s := Next(s, CollectPlanned(me), max);
    }
  }

  lemma CollectedGone(t: Tables, after: Tables, runs: seq<Uid>)
    requires Without(t, after, Planned(t, runs))
    ensures forall i :: 0 <= i < |runs| ==> runs[i] !in after.runs
  {
  }
}
