/**
 * Dispatch, cancellation and retention as one state machine: the control loop, any number of cancellation and
 * retention handlers, the lifecycle mutex, and crashes that lose everything but the tables and the workflow instances.
 */
module Protocol {
  import opened Compiler
  import opened RunLog
  import opened Ledger
  import opened LedgerFacts

  /** A durable workflow instance. */
  datatype Instance = Instance(cancelled: bool, finished: bool)

  datatype Holder = Free | ByLoop | ByDelivery(handler: nat)

  /** Where the control loop stands with the command it claimed; Inspect to CancelCreated hold the mutex. */
  datatype LoopAt =
    | Load | Check | Count | Open | Reload | Hush
    | Enter | Inspect | Find | Create | Recheck | CancelCreated
    | Send | Finish | Retry

  datatype Loop = Resting | Working(at: LoopAt, id: nat, run: Uid)

  /** A cancellation being delivered; Finding and Cancelling hold the mutex, `rest` is what reconciliation does next. */
  datatype DeliveryAt = Queueing | Finding | Cancelling | Marking | MarkingAbsent

  datatype Delivery = Delivery(at: DeliveryAt, run: Uid, rest: seq<Uid>)

  /** A retention pass: the planned Runs, and how many had their workflow history removed. */
  datatype Retention = Retention(planned: seq<Uid>, done: nat)

  /** `created` and `pruned` record which instances were ever created and ever removed. */
  datatype System = System(tables: Tables, instances: map<Uid, Instance>, loop: Loop, holder: Holder,
                           deliveries: map<nat, Delivery>, retentions: map<nat, Retention>, created: set<Uid>,
                               pruned: set<Uid>)

  const START := System(EMPTY, map[], Resting, Free, map[], map[], {}, {})

  /** How a step turns out: Lost is a creation that took effect but reported an error; Quit is a cancelled context. */
  datatype Turn = Good | Bad | Lost | Quit

  datatype Step =
    | Transaction(move: Move)
    | Claim(id: nat)
    | LoopTurn(turn: Turn)
    | BeginCancel(handler: nat, run: Uid, reason: string)
    | BeginReconcile(handler: nat, runs: seq<Uid>)
    | DeliveryTurn(handler: nat, turn: Turn)
    | BeginRetention(handler: nat, runs: seq<Uid>)
    | Prune(handler: nat)
    | CollectPlanned(handler: nat)
    | QuitRetention(handler: nat)
    | InstanceFinishes(run: Uid)
    | Crash

  predicate InSection(at: LoopAt) {
    at == Inspect || at == Find || at == Create || at == Recheck || at == CancelCreated
  }

  function Active(t: Tables): set<Uid> {
    set run | run in t.runs && Alive(t, run)
  }

  // ---------------------------------------------------------------- the control loop

  /** The loop goes on to `at`, taking the mutex when it enters the section and giving it back when it leaves. */
  function MoveTo(s: System, at: LoopAt): System
    requires s.loop.Working?
  {
    s.(loop := s.loop.(at := at),
       holder := if InSection(at) then ByLoop else if InSection(s.loop.at) then Free else s.holder)
  }

  function Rest(s: System): System {
    s.(loop := Resting, holder := if s.loop.Working? && InSection(s.loop.at) then Free else s.holder)
  }

  predicate IsCancelled(t: Tables, run: Uid) {
    run in t.runs && t.runs[run].log.phase == Phase.Cancelled
  }

  function Cancel(s: System, run: Uid): System {
    if run in s.instances then s.(instances := s.instances[run := s.instances[run].(cancelled := true)]) else s
  }

  function Made(s: System, run: Uid): System {
    s.(instances := s.instances[run := Instance(false, false)], created := s.created + {run})
  }

  predicate LooksAt(at: LoopAt) {
    at == Load || at == Check || at == Count || at == Reload || at == Enter || at == Inspect || at == Find
        || at == Recheck || at == Send
  }

  /** Where a step that only reads leads: the branches of reconcileStart, Adapter.Start and reconcileSignal. */
  function Look(t: Tables, instances: map<Uid, Instance>, at: LoopAt, id: nat, run: Uid, max: nat): LoopAt {
    match at
    case Load => if id in t.outbox && t.outbox[id].plan in t.plans then Check else Retry
    case Check => if run in t.runs then Open else Count
    case Count => if |Active(t) - {run}| >= max then Retry else Open
    case Reload => if run in t.runs && t.runs[run].plan in t.plans then Hush else Retry
    case Enter => Inspect
    case Inspect => if run !in t.runs then Retry else if IsCancelled(t, run) then Finish else Find
    case Find => if run in instances then Finish else Create
    case Recheck => if run !in t.runs then Retry else if IsCancelled(t, run) then CancelCreated else Finish
    case Send => Finish
    case _ => at
  }

  /** One step of the loop that succeeds. */
  function GoodTurn(s: System, max: nat): System
    requires s.loop.Working?
  {
    var t, id, run := s.tables, s.loop.id, s.loop.run;
    match s.loop.at
    case Open =>
      if id !in t.outbox then s else
      var (tables, created) := EnsureRun(t, t.outbox[id]);
      MoveTo(s, if created then Hush else Reload).(tables := tables)
    case Hush =>
      var (tables, cancelled) := Suppress(t, id, run);
      if cancelled then Rest(s).(tables := tables) else MoveTo(s, Enter)
    case Create => MoveTo(Made(s, run), Recheck)
    case CancelCreated => MoveTo(Cancel(s, run), if run in s.instances then Finish else Retry)
    case Finish => Rest(s).(tables := Dispatch(t, id, CommandState.Completed))
    case Retry => Rest(s).(tables := Dispatch(t, id, Waits))
    case at => MoveTo(s, Look(t, s.instances, at, id, run, max))
  }

  predicate LoopEnabled(s: System, turn: Turn) {
    && s.loop.Working?
    && (turn == Good && s.loop.at == Enter ==> s.holder == Free)
    && (turn == Lost ==> s.loop.at == Create)
    && (turn == Bad ==> s.loop.at != Finish && s.loop.at != Retry)
  }

  function LoopNext(s: System, turn: Turn, max: nat): System
    requires LoopEnabled(s, turn)
  {
    match turn
    case Good => GoodTurn(s, max)
    case Bad => MoveTo(s, Retry)
    case Lost => MoveTo(Made(s, s.loop.run), Finish)
    case Quit => Rest(s)
  }

  // ---------------------------------------------------------------- delivering cancellations

  /** On to the next Run of the list, or done. */
  function Onwards(s: System, h: nat): System
    requires h in s.deliveries
  {
    var rest := s.deliveries[h].rest;
    s.(deliveries := if rest == [] then s.deliveries - {h}
        else s.deliveries[h := Delivery(Queueing, rest[0], rest[1..])])
  }

  function DeliveryTo(s: System, h: nat, at: DeliveryAt, holder: Holder): System
    requires h in s.deliveries
  {
    s.(deliveries := s.deliveries[h := s.deliveries[h].(at := at)], holder := holder)
  }

  predicate DeliveryEnabled(s: System, h: nat, turn: Turn) {
    && h in s.deliveries && turn != Lost
    && (turn == Good && s.deliveries[h].at == Queueing ==> s.holder == Free)
  }

  function DeliveryNext(s: System, h: nat, turn: Turn): System
    requires DeliveryEnabled(s, h, turn)
  {
    var run := s.deliveries[h].run;
    if turn != Good then
      s.(deliveries := s.deliveries - {h}, holder := if s.holder == ByDelivery(h) then Free else s.holder)
    else
      match s.deliveries[h].at
      case Queueing => DeliveryTo(s, h, Finding, ByDelivery(h))
      case Finding => if run in s.instances then DeliveryTo(s, h, Cancelling, s.holder)
          else DeliveryTo(s, h, MarkingAbsent, Free)
      case Cancelling => DeliveryTo(Cancel(s, run), h, Marking, Free)
      case Marking => Onwards(s, h).(tables := MarkDelivered(s.tables, run))
      case MarkingAbsent => Onwards(s, h).(tables := MarkIfImpossible(s.tables, run).0)
  }

  // ---------------------------------------------------------------- the steps

  /** What API calls and workflow activities do in a single transaction. */
  predicate Direct(move: Move) {
    move.Accepting? || move.Signalling? || move.Recording? || (move.Appending? && move.phase != Phase.Cancelled)
  }

  predicate Undelivered(t: Tables, runs: seq<Uid>) {
    forall i :: 0 <= i < |runs| ==> runs[i] in t.cancellations && !t.cancellations[runs[i]].delivered
  }

  predicate AllCollectable(t: Tables, runs: seq<Uid>) {
    forall i :: 0 <= i < |runs| ==> Collectable(t, runs[i])
  }

  predicate PruneEnabled(s: System, h: nat) {
    && h in s.retentions && s.holder == Free && s.retentions[h].done < |s.retentions[h].planned|
    && var run := s.retentions[h].planned[s.retentions[h].done];
       run in s.instances ==> s.instances[run].finished
  }

  function PruneNext(s: System, h: nat): System
    requires PruneEnabled(s, h)
  {
    var r := s.retentions[h];
    var run := r.planned[r.done];
    s.(instances := s.instances - {run}, pruned := if run in s.instances then s.pruned + {run} else s.pruned,
       retentions := s.retentions[h := r.(done := r.done + 1)])
  }

  predicate Enabled(s: System, step: Step) {
    match step
    case Transaction(move) => Direct(move)
    case Claim(id) => s.loop.Resting? && id in s.tables.outbox && s.tables.outbox[id].state != CommandState.Completed
    case LoopTurn(turn) => LoopEnabled(s, turn)
    case BeginCancel(h, run, reason) => h !in s.deliveries && RequestCancellation(s.tables, run, reason).Some?
    case BeginReconcile(h, runs) => h !in s.deliveries && runs != [] && Undelivered(s.tables, runs)
    case DeliveryTurn(h, turn) => DeliveryEnabled(s, h, turn)
    case BeginRetention(h, runs) => h !in s.retentions && AllCollectable(s.tables, runs)
    case Prune(h) => PruneEnabled(s, h)
    case CollectPlanned(h) => h in s.retentions
    case QuitRetention(h) => h in s.retentions
    case InstanceFinishes(run) => run in s.instances
    case Crash => true
  }

  /** A step that is not enabled changes nothing. */
  function Next(s: System, step: Step, max: nat): System {
    if !Enabled(s, step) then s else
    match step
    case Transaction(move) => s.(tables := Apply(s.tables, move))
    case Claim(id) =>
      s.(tables := Dispatch(s.tables, id, Inflight),
         loop := Working(if s.tables.outbox[id].starts then Load else Send, id, s.tables.outbox[id].run))
    case LoopTurn(turn) => LoopNext(s, turn, max)
    case BeginCancel(h, run, reason) =>
      s.(tables := RequestCancellation(s.tables, run, reason).value,
          deliveries := s.deliveries[h := Delivery(Queueing, run, [])])
    case BeginReconcile(h, runs) => s.(deliveries := s.deliveries[h := Delivery(Queueing, runs[0], runs[1..])])
    case DeliveryTurn(h, turn) => DeliveryNext(s, h, turn)
    case BeginRetention(h, runs) => s.(retentions := s.retentions[h := Retention(runs, 0)])
    case Prune(h) => PruneNext(s, h)
    case CollectPlanned(h) => s.(tables := Or(Collect(s.tables, s.retentions[h].planned), s.tables),
        retentions := s.retentions - {h})
    case QuitRetention(h) => s.(retentions := s.retentions - {h})
    case InstanceFinishes(run) => s.(instances := s.instances[run := s.instances[run].(finished := true)])
    case Crash => s.(loop := Resting, holder := Free, deliveries := map[], retentions := map[])
  }

  /** A run of the system: the states before and after every step. */
  ghost predicate IsRun(states: seq<System>, steps: seq<Step>, max: nat) {
    && |states| == |steps| + 1
    && forall i :: 0 <= i < |steps| ==> Enabled(states[i], steps[i]) && states[i + 1] == Next(states[i], steps[i], max)
  }

  ghost predicate Reachable(s: System, max: nat) {
    exists states, steps :: IsRun(states, steps, max) && states[0] == START && states[|steps|] == s
  }
}
