# A verified model of the durable workflow engine

This project models the part of Orchigram that turns a Flow into a finished, durable Run, and proves what that part
promises. It is written for Dafny 4.11; nothing here runs the original program.

**From a Flow to its outcome.** `Graphs`, `Ordering`, `Tarjan`, `Compiler` model the graph part of compiling a Flow:
Tarjan's algorithm, the predecessor check on mappings, the bounded-cycle check and the canonical order of the plan.
`Kahn` and `ComponentModel` model how the engine rebuilds the condensation of a stored plan and orders it. `Execution`
models one component, including the worklist of a cyclic one, and `ExecutionFacts` what such a run guarantees.
`Answers` says what a component delivers in terms of the calls of its nodes alone, and that there is only one such
result; `Worklist` is the engine's loop as code, and proves that it delivers that result. `Locality` and `Sequential`
define the run of the components one after the other in model order, and what any set of finished components fixes about
the rest. `Reachability` states which nodes execute in a run that has settled.

`History` describes what a scheduler may do: components start below the limit, in order and once their predecessors
have finished, send their completions in any order, and the completions are received in the order they were sent,
until one goes wrong. `Settlement` proves that a history that succeeds has settled, whatever outputs its nodes read;
`Independence` that the schedule does not matter if nodes read only their ancestors; `Serial` what a limit of one fixes;
`Rejection` what a rejected Run can still become. `Interpreter` is the scheduler as
code, with its pending list, its completion buffer, its cancellation of siblings and its exit when the workflow itself
is cancelled, and proves that it produces such a history. `Engine` puts the pieces together, and `Conclusion` follows
the outcome into the log of the Run, where it has to meet an operator's cancellation.

**Durable acceptance, dispatch, cancellation, retention.** `RunLog` is the event log of one Run and its projection.
`Ledger` has the tables and the store's transactions, as functions and as a class whose methods compute them;
`LedgerEffects` states exactly what each of them does and when it is refused, and `LedgerFacts` and `Permanence` prove
what every transaction keeps and what no later transaction undoes. `Protocol` is the state machine: the control loop,
any number of cancellation handlers and retention passes, the lifecycle mutex, and crashes that lose everything but the
tables and the workflow instances. `ProtocolFrame`, `ProtocolSafety` and
`ProtocolSteps` prove its invariant and the theorems over whole runs. `Daemon` writes the control loop and
`Adapter.Start` as code in which every other party may take steps between any two calls, `Handlers` the API's `Cancel`
and `Adapter.Reconcile`, and `RetentionPass` a retention pass; each call is proved to be a step of that state machine.
`Attempts` and `ActivityDelivery` are the ledger of physical attempts and one delivery of a node activity, while the Run
moves on, ends or is cancelled beside it; `AttemptEffects` states exactly what each operation of the ledger does.

**Resources, Runs and their watchers.** `ResourceLog` is the revisioned table and its event log, `ResourceWrites` what
compare-and-swap guarantees between writers, `ResourceListing` the paged listing and the client that reads all pages
while writers go on, `LiveClient` the client cache fed by watches that break, repeat and lag behind. `RunView` is what
the client shows of one Run.

**Two smaller machines.** `PluginStream` is the SDK's event sink and the host's reader. `Schedule` is the reconciliation
of a schedule Trigger as a state machine of single store calls, with other writers and crashes between any two of them;
`ScheduleController` is the pass as code, and what it amounts to when nobody disturbs it.

## How the model is stated

- Node execution, edge conditions, approvals and external events are one function of the node, the iteration and the
  visible outputs (`World.exec`); recording a skip is another. Plugin binding, JSON schemas and CEL are deterministic
  parameters (`Binder`). Recurrence rules are a function `next` that satisfies `IsSchedule`: the first instant after a
  time, so no scheduled instant is skipped.
- A transaction is one atomic step; one that fails changes nothing. Time appears only through what it allows: which
  commands are due, which Runs are old enough, when an instance finishes, which instants a pass of a schedule is given.
- A history records starts, completions sent to the buffer and completions received from it. A component cancelled
  after something has gone wrong may send any result; one that has sent its completion keeps it. When the workflow
  itself is cancelled, which happens only after the operator's request is on record, the history ends where it is. The
  time of a Run's last change is the number of the event that made it.
- Methods in which others act between two calls take a parameter `quiet`: in a call that is quiet nobody else acts and
  nothing fails. Bodies consult it only where a failure or a step of others is chosen. What is promised of such a call is
  exact, and says that the code gets something done; everything else is promised of every call.
- Edge activity vectors are sets of edge indices. Identities are numbers handed out in order. Workflow instances are
  found whenever they exist.
- The result of an activity that reports an error with an empty message is a success for the scheduler, which takes the
  empty message for none (`internal/engine/engine.go:433`). The theorems about executed nodes assume that errors have
  text (`ErrorsHaveText`).
- Whether a component reads only its ancestors' outputs (`ReadsAncestors`) is checked by the compiler for input
  mappings of nodes with a contract (`internal/flow/compiler.go:524`), and is a hypothesis for edge conditions and for
  nodes whose mappings are only checked for their shape. Only independence of the schedule needs it.

## What turned out differently

- A completed start command does not always have an instance or a cancelled Run while its Run is uncollected:
  retention removes the workflow history first and collects afterwards. `PrunedBeforeCollected` gives a run of the
  system that reaches such a state, and `OutboxSafety` states exactly when it is so.
- When an approval is rejected, the scheduler cancels the components still running. If one of them then ends with an
  error, the Run is reported as failed, not as rejected (`internal/engine/engine.go:433-466`). `RejectedYetFailed` gives
  the input. `RejectionMayFail` states exactly when it can happen: iff the first completion in the buffer that carries
  an error has that text, or none does and some component is still running. With a limit of one none ever is, and
  `SerialDecides` gives the outcome in advance.
- An interrupted delivery of a node reads the Run and closes its attempt in two transactions
  (`internal/engine/engine.go:884-899`). A cancellation between them leaves a cancelled Run with an attempt on record as
  "delivery-lost" (`CancelledYetLost`), and a Run that cannot be read leaves "cancelled" on a Run that goes on
  (`UnreadYetCancelled`). `StopOnRecord` states what is on record when, and `StopAgrees` exactly when record and Run
  agree.
- The controller advances a Trigger's cursor without looking at the generation of the row
  (`internal/store/store.go:2129-2139`). If the Trigger is applied anew between acceptance and advance, the new
  generation's cursor goes back and an instant from before that generation is accepted: `StaleAdvanceHappens`.
  `CursorGoesBack` states exactly when, and `CursorAdvances` and `AcceptedBeyond` what holds otherwise.
- A status write is checked against the generation only (`internal/store/store.go:333-357`). A resource that is deleted
  and created anew starts again at generation 1, so a status computed from the first lands on the second:
  `StatusOutlives`. `StatusFitsSpec` states that it fits as long as the resource keeps its identity.
- A client that has received evidence of an ended Run refuses later listings of that Run: evidence moves the client's
  time of the Run's last change, and not the server's. `ListingAgrees` shows that it has the server's phase all the
  same.
- A send that fails uses up its sequence number in the plugin SDK. `ProducerAndReaderAgree` shows that the host accepts
  a finished stream exactly when no send was lost.
- A client shows a Run as rejected on `approval.rejected`, while the server's phase stays running until the Run ends
  (`internal/tui/live.go:242`, `internal/engine/engine.go:956`). `RefusalMisread` shows it from any live state, and
  `ShownPhase` states exactly when client and server agree.

## Model

| member | source | states |
|---|---|---|
| Ordering.SortedUnique | internal/flow/compiler.go:403-412 | Two arrangements of the same elements sorted by an order without ties are the same sequence, which is what makes sorting canonical |
| Ordering.StrLessDiffers | internal/flow/compiler.go:403-412 | Strings are ordered by their first difference, a prefix before what it begins |
| Tarjan.Search.Visit | internal/flow/compiler.go:836-868 | Visiting a node finishes every component reachable from it that is not finished, and leaves the stack, the indices and the finished set in the relation the search relies on |
| Tarjan.Search.PopComponent | internal/flow/compiler.go:853-867 | Popping down to the root removes exactly one strongly connected component and records it sorted |
| Tarjan.StronglyConnected | internal/flow/compiler.go:831-876 | The result is the decomposition: every id is in exactly one component, two ids share one iff each reaches the other, components are sorted inside and by their first id |
| Tarjan.DecompositionUnique | internal/flow/compiler.go:831-876 | There is only one such decomposition of a graph |
| Tarjan.DecompositionOrdered | internal/flow/compiler.go:866-876 | In a decomposition the members of a component are in strict order, and so are the components by their first members |
| Compiler.CanonicalPlan | internal/flow/compiler.go:374-421 | Two Flows that differ in the order of their nodes and edges compile to the identical plan |
| Compiler.PlanKeeps | internal/flow/compiler.go:374-421 | A canonical plan keeps every node with its action and loop policy and every edge as often as the Flow has it; nodes are in strict order of their ids, edges in order of source, target and condition, and a parallelism of 0 has become 1 |
| Compiler.AcceptancePermutes | internal/flow/compiler.go:219-421 | Whether a Flow is accepted does not depend on the order of its nodes and edges |
| Compiler.BindNodes | internal/flow/compiler.go:252-331 | Nodes are indexed by id and bound, and no error is reported iff ids are distinct, every node is valid and every loop policy is between 1 and 1000 |
| Compiler.LinkEdges | internal/flow/compiler.go:341-373 | The adjacency holds exactly the edges between known nodes, and no error is reported iff all end points are known and all conditions valid |
| Compiler.SortAdjacency | internal/flow/compiler.go:374-376 | Sorting the successor lists leaves the graph as it is |
| Compiler.Reaches | internal/flow/compiler.go:777-794 | The breadth-first search answers whether the target is reached from the source in at least one step |
| Compiler.CheckMappings | internal/flow/compiler.go:377-379 | No error iff every mapping source is a node that precedes the reader |
| Compiler.LacksLoopPolicy | internal/flow/compiler.go:381-398 | A component is refused iff it is cyclic and none of its nodes carries a finite loop policy |
| Compiler.CheckCycles | internal/flow/compiler.go:380-401 | No error iff every node on a cycle shares its component with a node that has a finite loop policy |
| Compiler.Compile | internal/flow/compiler.go:219-421 | No error iff the Flow is acceptable, and then the plan is the Flow's canonical plan |
| Kahn.StuckMeansCycle | internal/engine/engine.go:691-713 | If components are left and none of them is ready, the component graph has a cycle |
| Kahn.TopologicalAcyclic | internal/engine/engine.go:691-713 | A complete topological order exists only for an acyclic graph |
| Kahn.KahnOrder | internal/engine/engine.go:691-713 | The order has no repetition, every predecessor comes first, the ready component with the least first node is always taken next, and it is complete iff the graph has no cycle |
| Kahn.OrderUnique | internal/engine/engine.go:691-713 | If no two components have the same first node, there is only one complete order in which predecessors come first and the ready component with the least first node is next |
| Kahn.Release | internal/engine/engine.go:702-708 | Releasing a component decrements exactly its successors and makes ready exactly those left without predecessors |
| ComponentModel.GatherGroups | internal/engine/engine.go:622-636 | The groups are the stored components followed by a singleton for every node they do not cover |
| ComponentModel.NumberGroups | internal/engine/engine.go:637-651 | Every member is numbered by its group and the cap is the largest loop policy, at least one; an unknown member is reported iff there is one |
| ComponentModel.LinkEdges | internal/engine/engine.go:652-674 | Incoming edges, predecessors, in-degrees, adjacency and cyclic flags are exactly those of the condensation; an unknown end point is reported iff there is one |
| ComponentModel.SortPredecessors | internal/engine/engine.go:675-681 | Sorting predecessors by first node keeps them and changes nothing else |
| ComponentModel.SortOutgoing | internal/engine/engine.go:682-690 | Outgoing lists hold exactly the edges leaving a node, in order of target and condition |
| ComponentModel.BuildComponentModel | internal/engine/engine.go:617-714 | For any plan with a valid partition: an unknown node is reported iff there is one, otherwise the graph is reported cyclic iff the condensation has a cycle, and otherwise the result is the model of the plan |
| ComponentModel.CondensationReach | internal/flow/compiler.go:831-876 | In a compiled plan, a path between components is a path between any of their nodes |
| ComponentModel.CompiledAcyclic | internal/flow/compiler.go:380-421 | The condensation of a compiled plan has no cycle |
| ComponentModel.AcceptedIsCompiled | internal/flow/compiler.go:374-421 | An accepted Flow's plan has what the engine needs: known nodes, the decomposition, bounded parallelism and bounded loops |
| ComponentModel.CompileAndBuild | internal/engine/engine.go:617-714 | Building the component model of an accepted Flow's plan never fails |
| ComponentModel.ModelUnique | internal/engine/engine.go:617-714 | A compiled plan has only one model, up to the order in which a node's edges and a component's predecessors are listed: the same components, numbers, entering edges, cyclic flags, caps and execution order every time it is rebuilt |
| Execution.StepDisciplined | internal/engine/engine.go:523-552 | A turn of the worklist finds its node below the cap, keeps the queue free of repetition with every entry below the cap, and uses up one execution of the budget |
| Execution.EntriesFacts | internal/engine/engine.go:509-518 | The initial queue holds exactly the targets of the entering edges that are on, each once |
| Worklist.InitialQueue | internal/engine/engine.go:509-521 | The queue starts from the entering edges that are on, or from the first node when nothing enters |
| Worklist.PushTargets | internal/engine/engine.go:543-551 | Exactly the activated targets inside the component that are below the cap and not queued are queued |
| Worklist.RunWorklist | internal/engine/engine.go:523-552 | The loop ends and computes the worklist's specification |
| Worklist.ExecutePlanComponent | internal/engine/engine.go:480-562 | Running a component, whether it is inactive, single or cyclic, returns what its nodes answered: there are calls, each of the world at the node's next iteration and at the outputs visible so far, made first come first served along the edges that are on, such that exactly the edges some call's flags switched on are on, each output is the node's last, the trace lists the calls and then the skips, and error and rejection are those of the last call |
| Answers.WitnessUnique | internal/engine/engine.go:480-562 | There is only one sequence of calls that explains a result, and only one result that calls explain |
| Worklist.RunAnswered | internal/engine/engine.go:480-562 | A result is what the nodes answered in this sense iff it is the one the worklist computes |
| ExecutionFacts.WorklistBounded | internal/engine/engine.go:523-552 | However it ends, a cyclic component executes each node at iterations 0, 1, ... below the cap and at most nodes times cap times in all |
| ExecutionFacts.StepExplained | internal/engine/engine.go:523-552 | After every turn the nodes executed or queued are exactly those the switched-on edges lead to from the entries |
| ExecutionFacts.ComponentExact | internal/engine/engine.go:480-562 | A component without error or rejection executes exactly the members its switched-on edges lead to from its entries, and skips each other member once |
| Locality.RunLocal | internal/engine/engine.go:409-418 | A component's result depends on the snapshot it starts from only through its entering edges and its ancestors' outputs |
| Locality.RunOwn | internal/engine/engine.go:494-508 | A component produces outputs only for its own nodes and switches on only edges leaving them |
| Sequential.PrefixCollected | internal/engine/engine.go:442-449 | The flags and outputs after any number of components are exactly what those components contributed |
| Sequential.NodePathComponents | internal/engine/engine.go:655-674 | A path between nodes is a path between their components |
| Sequential.StartDeterminesResult | internal/engine/engine.go:407-418 | Whenever a component may start, it produces the result it has in the sequential run |
| Sequential.PrefixDownClosed | internal/engine/engine.go:691-713 | In model order every predecessor comes before its successors |
| History.HistoryOrderly | internal/engine/engine.go:400-432 | At every point of a history no component starts twice or before all its predecessors have finished, none finishes twice or before it starts, and at most maxParallel run at once, one if maxParallel is less than one |
| History.JudgeFacts | internal/engine/engine.go:433-466 | The outcome is failed iff some received completion carries an error, with the text of the first that does, and rejected iff none does and one is rejected |
| History.StoppedIsWrong | internal/engine/engine.go:433-456 | Admission has stopped iff the completions received so far make the Run failed or rejected |
| Settlement.EnteringEdgesFinal | internal/engine/engine.go:407-411 | In every history in which nothing has gone wrong, the flags on a started component's entering edges are still those it was started with, whatever has finished since |
| Settlement.SucceededSettles | internal/engine/engine.go:400-465 | A history that ends without error or rejection leaves every component's result as its specification demands on the flags that are on at the end, and as its nodes answered, whatever the schedule and whatever outputs nodes read |
| Settlement.CompletionAnswered | internal/engine/engine.go:407-418 | Every completion received while nothing had gone wrong, good or bad, is what the nodes of its component answered on the state the component was started on |
| Independence.VerdictLater | internal/engine/engine.go:433-455 | Later completions do not change what the first error or rejection already decides |
| Independence.ScheduleIndependent | internal/engine/engine.go:385-465 | If components read only ancestors' outputs, then over every finished history the Run succeeds iff every component of the sequential run does, and then edges, outputs and traces are those of the sequential run; it is rejected only if a component is; and if none is, it fails with some component's own error |
| Serial.SerialDecides | internal/engine/engine.go:387-465 | With a limit of one the outcome is known beforehand, without any hypothesis on what nodes read: the first component in model order that errs or is rejected decides between failed, with its text, and rejected, and a success ends in the sequential state |
| Rejection.RejectionMayFail | internal/engine/engine.go:433-466 | At a point where a rejection has stopped admission, the Run can still end as rejected iff no completion in the buffer carries an error; and it can still end as failed with a given text iff that is the first error in the buffer, or the buffer holds none and some component is still running |
| Rejection.RejectedYetFailed | internal/engine/engine.go:433-466 | Two approvals side by side, one rejected: a finished history is judged failed with the text of the cancelled sibling's error, and another is judged rejected |
| Interpreter.NextReady | internal/engine/engine.go:580-594 | The first pending component whose predecessors have all completed, or none iff there is none |
| Interpreter.SomethingReady | internal/engine/engine.go:421-426 | With nothing in flight and something pending, the first pending component is ready: the deadlock exit is unreachable |
| Interpreter.WaitingStart | internal/engine/engine.go:406-407 | Taking the admitted component out of the pending list leaves exactly the components of the order that have not started, in that order |
| Interpreter.Send | internal/engine/engine.go:413-418 | The completion buffer always has room, so the panic is unreachable |
| Interpreter.Admit | internal/engine/engine.go:401-420 | Admission extends the history by starting ready components, in order and never beyond the limit, until the limit is reached or none is ready, and leaves nothing pending behind an empty flight |
| Interpreter.RunPlan | internal/engine/engine.go:385-466 | The loop ends. What it does is a history, in which a completion is received, while nothing is wrong, only when maxParallel components are running, one if it is less than one, or none is ready. If the workflow is cancelled while it waits for a completion, the loop stops there with components still in flight; otherwise the history comes to its end, edges, outputs and results are what it leaves, and the outcome is what its received completions make of it |
| Interpreter.HistoryPromises | internal/engine/engine.go:385-466 | Every finished history keeps the promises of schedule independence, of the serial limit and of settlement together |
| Interpreter.InterpreterWorkflow | internal/engine/engine.go:379-466 | A compiled plan always gets a model, a plan without one fails, and with one the run is a history that is cut off by a cancellation or finished with all of these promises |
| Conclusion.FirstWordEnds | internal/store/store.go:1684-1710 | Whatever nodes, plugins, an operator and the interpreter write to a Run's log, in whatever order and however often: the first cancellation or last word of the interpreter, whichever comes first, is the one terminal event the log ever gets, and the Run is in its phase |
| Conclusion.Recorder.InterpretRun | internal/engine/engine.go:457-466 | The outcome of a workflow that is not cut off, once recorded, is the one terminal event of its Run, however often it is recorded, unless a cancellation came first; if nobody else acts and recording succeeds, the Run succeeded, was rejected or failed as the outcome says; a workflow that is cut off leaves a cancelled Run; and if nodes read only their ancestors, an ended and uncancelled Run has succeeded iff the sequential run does, whatever the schedule was |
| Reachability.ReachableRuns | internal/engine/engine.go:596-607 | In a settled run every node the switched-on edges lead to from a root executes |
| Reachability.RunsReachable | internal/engine/engine.go:509-552 | In a settled run every node that executes is led to by switched-on edges from a root |
| Reachability.CapBounded | internal/flow/compiler.go:304-310 | No component of a compiled plan may execute a node more than 1000 times |
| Reachability.CapOfFlow | internal/engine/engine.go:637-651 | A component may execute a node as often as the largest loop policy that the Flow gives one of its nodes, and once if it gives none |
| Reachability.ExecutedExactlyReachable | internal/engine/engine.go:480-607 | In every settled run, concurrent or not, a node executes iff the switched-on edges lead to it from a root, at iterations 0, 1, ... at most 1000 times so that the activity's own limit is never met, and is otherwise skipped exactly once |
| Engine.RunFlow | internal/engine/engine.go:379-466 | A Flow runs iff it is acceptable; its run is a history that, unless a cancellation cuts it off, is finished and decides the outcome by its completions; a succeeded Run executed exactly the reachable nodes, and every component delivered what its nodes answered, whatever its nodes read; if they read only ancestors, success and the final edges, outputs and traces do not depend on the schedule; and with a limit of one the outcome is fixed |
| RunLog.AppendedProjected | internal/store/store.go:1684-1710 | A transition keeps sequences 1..n, the phase as the replay of the log, one terminal event iff the phase is terminal, and changes nothing once the Run has ended |
| RunLog.EvidenceProjected | internal/store/store.go:1530-1550 | Late plugin evidence keeps all that and never moves the phase |
| RunLog.CancellationProjected | internal/store/store.go:1726-1763 | A cancellation keeps all that, and the phase is cancelled iff a cancellation is recorded |
| RunLog.OpenedProjected | internal/store/store.go:1205-1230 | A new Run's log and phase agree |
| LedgerFacts.ApplySound | internal/store/store.go:753-1809 | Every transaction, used as its callers use it, keeps the tables consistent: one record per occurrence, one command per receipt, one start per Run, a stored plan and a start command for every Run, and exact projections |
| LedgerFacts.CollectSound | internal/store/retention.go:109-173 | So does collection |
| LedgerFacts.KeepsProjections | internal/store/store.go:1684-1763 | Every transaction keeps each Run the projection of its log and cancellation |
| Permanence.ApplyLasts | internal/store/store.go:753-1809 | No transaction forgets a receipt, revives an ended Run, reopens a finished start or adds a cancellation to an ended Run |
| Permanence.DeduplicationSurvives | internal/store/store.go:753-890 | After any run of transactions, collections included, accepting an occurrence on record changes nothing and can only return the same receipt |
| Permanence.AcceptanceIsFound | internal/store/store.go:843-890 | A new acceptance is found again under its occurrence, has exactly one command, and shares no identity with an earlier one |
| Ledger.Store.ReceiptByOccurrence | internal/store/store.go:989-1006 | A live receipt if there is one, else the tombstone |
| Ledger.Store.AcceptTrigger | internal/store/store.go:816-890 | An occurrence on record returns its receipt and changes nothing; a new one gets a receipt, a fresh Run identity, a stored plan and one start command; a refused one changes nothing |
| Ledger.Store.AcceptProviderSignal | internal/store/store.go:753-813 | The same for a signal, which needs a Run that has not ended |
| Ledger.Store.ClaimNext | internal/store/store.go:1129-1166 | The oldest due command that is not completed is claimed, or none iff there is none |
| Ledger.Store.CompleteStartIfRunCancelled | internal/store/store.go:1178-1185 | The start is completed iff it is this Run's start and the Run has a cancellation |
| Ledger.Store.OpenRun | internal/store/store.go:1205-1230 | A Run is created once, with its plan and its first event |
| Ledger.Store.AppendRunEvent | internal/store/store.go:1684-1710 | The next sequence is one more than the largest stored, and an ended Run is left alone |
| Ledger.Store.AppendPluginEvidence | internal/store/store.go:1530-1550 | Evidence takes the next sequence and leaves the phase alone, ended or not |
| Ledger.Store.RequestRunCancellation | internal/store/store.go:1726-1763 | A Run that ended otherwise is left alone and a repeated request keeps the first reason and adds no event |
| Ledger.Store.MarkRunCancellationDeliveredIfStartImpossible | internal/store/store.go:1802-1809 | Delivery is acknowledged iff it is outstanding and no start command of the Run is left |
| Ledger.Store.CollectRetainedRuns | internal/store/retention.go:109-173 | Either every planned Run that is still there is removed with everything it owns and its receipts become tombstones, or nothing changes; plans go only when no Run uses them |
| LedgerEffects.AcceptStartDoes | internal/store/store.go:816-890 | An occurrence is answered iff the Trigger is valid and the occurrence is known or the plan current: a known one with the receipt of then and nothing done, a new one with a receipt, one start command and its plan stored |
| LedgerEffects.AcceptSignalDoes | internal/store/store.go:753-813 | The same for a signal, which, if it is new, needs a Run that has not ended and a node that waits for it |
| LedgerEffects.SuppressDoes | internal/store/store.go:1178-1185 | A start is completed without the engine iff it is this Run's start and a cancellation is on record |
| LedgerEffects.EnsureRunDoes | internal/store/store.go:1205-1230 | A Run's row is made from its command, pending and with one event, iff it is not there yet |
| LedgerEffects.AppendEventDoes | internal/store/store.go:1684-1710 | A transition adds one event with the next sequence and moves the Run to its phase iff the Run is there and has not ended |
| LedgerEffects.AppendEvidenceDoes | internal/store/store.go:1530-1550 | Evidence adds one event with the next sequence whenever the Run is there, and never moves it |
| LedgerEffects.RequestCancellationDoes | internal/store/store.go:1726-1763 | A request adds one event and an undelivered cancellation with its reason, and cancels the Run, iff the Run is there and has not ended |
| LedgerEffects.MarkIfImpossibleDoes | internal/store/store.go:1802-1809 | An absent workflow is acknowledged iff a cancellation is outstanding and every start of the Run is completed |
| LedgerEffects.CollectDoes | internal/store/retention.go:109-173 | Collection is refused iff one of the planned Runs that is still there has not ended or has an unfinished command; otherwise exactly those Runs, their commands and cancellations are gone, their receipts are tombstones, and a plan goes iff only they used it |
| ProtocolFrame.QuietFramed | internal/store/retention.go:109-173 | Transactions of others, collection included, leave unfinished commands and their Runs alone and never add an active Run |
| ProtocolSteps.LoopSafe | internal/orchestrator/orchestrator.go:169-235 | Every step of the control loop, in success, failure and interruption, keeps the invariant |
| ProtocolSteps.DeliverySafe | internal/engine/engine.go:224-291 | Every step of a cancellation handler keeps the invariant |
| ProtocolSteps.PruneSafe | internal/engine/engine.go:295-329 | Removing a finished workflow history keeps the invariant |
| ProtocolSteps.CrashSafe | internal/orchestrator/orchestrator.go:169-235 | A crash at any point keeps the invariant |
| ProtocolSteps.StepSafe | internal/orchestrator/orchestrator.go:154-254 | Every step of the system keeps the invariant |
| ProtocolSteps.NoLostCancellation | internal/engine/engine.go:224-291 | Over every run, once a cancellation is marked delivered the instance is cancelled, or is absent and never appears again |
| ProtocolSteps.OutboxSafety | internal/orchestrator/orchestrator.go:169-235 | In every reachable state the tables are consistent and the active Runs within the limit, and a completed start of an uncollected Run has its Run; unless that is cancelled, its instance exists iff retention has not removed it, which needs the Run to have ended |
| ProtocolSteps.LiveRunHasInstance | internal/orchestrator/orchestrator.go:169-235 | In every reachable state a Run with a completed start that has not ended has its workflow instance |
| ProtocolSteps.PrunedBeforeCollected | internal/retention/retention.go:97-106 | A reachable state in which a succeeded Run has a completed start and no instance any more |
| ProtocolSteps.CompletedStays | internal/store/store.go:1169-1193 | A completed command stays completed until its Run is collected |
| ProtocolSteps.CrashRecovers | internal/store/store.go:1129-1166 | A crash strands no command: tables and instances stay, the mutex is free, and any command that is not completed can be claimed next |
| ProtocolSteps.CreatedOnce | internal/engine/engine.go:187-213 | No workflow instance is created a second time |
| ProtocolSteps.RunsProjected | internal/store/store.go:1684-1763 | In every reachable state each Run is the projection of its log and its cancellation |
| ProtocolSteps.ReceiptStays | internal/store/store.go:989-1006 | Along every run of the system an occurrence keeps its receipt |
| Daemon.Daemon.ReconcileOne | internal/orchestrator/orchestrator.go:154-167 | One dispatch ends and leaves the loop at rest. It is idle iff nothing due was unfinished when it looked, and otherwise claims the oldest such command; when it reports success the command is completed, and a start has its Run and its instance or a cancelled Run. If nobody disturbs it, a signal goes through, and a start goes through iff its plan is stored and the Run is there with its plan or the limit of active Runs leaves room, and then exactly Run, instance and command have changed |
| Daemon.Daemon.ReconcileStart | internal/orchestrator/orchestrator.go:169-235 | The same for a start, through every early exit, while others take steps between any two calls |
| Daemon.Daemon.EngineStart | internal/engine/engine.go:187-213 | Starting an instance ends either ready for completion or with the command put back or left claimed |
| Daemon.Daemon.CreateInstance | internal/engine/engine.go:203-213 | A created instance is cancelled at once when its Run was cancelled meanwhile |
| Handlers.Handler.ApiCancel | internal/server/api.go:591-610 | Cancel finds a Run iff it is there when the request is made. A Run found is closed for good: it keeps the phase it had ended in, or is cancelled, with this reason on record until it is delivered and the Run collected. When it is acknowledged, the cancellation is marked delivered and the instance cancelled or absent for good. If nobody disturbs it, exactly the cancellation, the Run's log and the instance have changed, and it is acknowledged iff the instance was there or no start is left |
| Handlers.Handler.DeliverOne | internal/engine/engine.go:224-255 | One delivery, with others acting between any two calls: acknowledged, it is on record as delivered and the instance cancelled or absent for good; if it ends without an error and is not acknowledged, a start command was left that could still create the instance |
| Handlers.Handler.EngineReconcile | internal/engine/engine.go:257-291 | Redelivery goes through its list in order and ends; it reports completion only if every cancellation of the list was acknowledged, or was put off because a start command was left, and it does so if nobody disturbs it |
| RetentionPass.Collector.Pass | internal/retention/retention.go:92-106 | A retention pass, with others acting between any two calls: after one that reports success none of the planned Runs is left; if nobody disturbs it and their workflows have finished, it succeeds, and exactly those Runs, what belongs to them and their workflow histories are gone |
| Attempts.LedgerHolds | internal/store/store.go:1305-1409 | However deliveries overlap, and whenever the Run moves on, ends, is cancelled or gets evidence meanwhile, attempts of a node iteration are numbered 1..n, each delivery has at most one open, the Run's log stays exact, an ended Run stays ended, and a completed attempt never changes |
| Attempts.LedgerIsExact | internal/store/store.go:1305-1409 | From the first delivery of a Run on, its ledger is exact in this sense |
| Attempts.EndedRun | internal/store/store.go:1332-1334 | Once the Run has ended no attempt is opened any more and nothing but evidence is logged |
| Attempts.LateCompletion | internal/store/store.go:1369-1409 | An attempt still open when the Run has ended is closed with the first outcome reported, and the log stays as it is |
| Attempts.CompletedReplays | internal/store/store.go:1305-1330 | A delivery once completed is answered with the same record ever after, also when the Run has ended or was cancelled, and leaves the ledger as it is; only an outcome that was left empty may still be named |
| Attempts.NumbersIncrease | internal/store/store.go:1346-1356 | A later attempt of the same node iteration has a higher number |
| Attempts.LocatesOwn | internal/store/store.go:1422-1424 | Attempt numbers identify attempts |
| AttemptEffects.BeginDoes | internal/store/store.go:1305-1366 | A delivery is replayed with its newest attempt iff that is completed; otherwise it is refused iff the Run has ended; otherwise a fresh attempt with the next number is opened, after the open one, if there is one, was closed as lost |
| AttemptEffects.BeginLogs | internal/store/store.go:1336-1366 | The log tells of the attempt that was lost and of the one that was opened |
| AttemptEffects.CompleteDoes | internal/store/store.go:1369-1409 | The attempt with this number gets phase, output and error, and the outcome if it has none, iff it is open, and the log tells of it; nothing else happens |
| AttemptEffects.NameDoes | internal/store/store.go:1413-1424 | The attempt with this number gets the outcome iff it has none; nothing else happens |
| ActivityDelivery.Activities.BeginNodeAttempt | internal/store/store.go:1305-1366 | The newest attempt of the delivery decides: completed, it is replayed; open, it is closed as lost and a new one opened; and none is opened on an ended Run |
| ActivityDelivery.Activities.CompleteNodeAttempt | internal/store/store.go:1369-1409 | The first terminal outcome is recorded and a later one changes nothing |
| ActivityDelivery.Activities.SetNodeAttemptOutcome | internal/store/store.go:1413-1419 | An outcome is named for the attempt with that number iff it has none yet |
| ActivityDelivery.Activities.ExecuteNode | internal/engine/engine.go:831-915 | With others acting between any two calls, and reads and writes that may fail: a delivery whose newest attempt is completed is answered from it without executing, with the recorded output and the flags its conditions give, or the recorded error; any other executes at most once. It answers a success only with the executor's output for a task and the configured one for a built-in, and only if the conditions evaluate; the attempt it opened then holds that output, with the outcome a plugin named if one did, unless a redelivery closed it first; a failure is on record with its error and the outcome that fits how the execution ended |
| ActivityDelivery.SuccessOnRecord | internal/engine/engine.go:908-914 | A success that is answered is on record as done, in the attempt the delivery opened, with the output answered, unless a redelivery has closed that attempt as lost |
| ActivityDelivery.ConcludedFits | internal/engine/engine.go:831-915 | However a delivery that opened an attempt has ended, its answer and its record are those of the action's own execution: the output it came to, or the error and outcome of the way it failed |
| ActivityDelivery.StopOnRecord | internal/engine/engine.go:880-899 | An interrupted delivery is on record as lost iff the Run could be read and no cancellation came before the read, and otherwise as cancelled |
| ActivityDelivery.StopAgrees | internal/engine/engine.go:880-899 | The record of an interrupted delivery agrees with the Run on whether it was cancelled iff no cancellation came between the read and the record, or, if the Run could not be read, iff one has come |
| ActivityDelivery.CancelledYetLost | internal/engine/engine.go:884-899 | From any state in which a delivery opens an attempt: a cancellation between the read and the record leaves a cancelled Run with an attempt on record as lost |
| ActivityDelivery.UnreadYetCancelled | internal/engine/engine.go:884-899 | From any such state: when the Run cannot be read, the attempt is on record as cancelled while the Run goes on |
| ResourceLog.WritesKeep | internal/store/store.go:223-401 | Any sequence of writes, refused ones included, keeps revisions 1, 2, ... with one event each, the log's replay equal to the table, generations that rise by one exactly when the spec changes, and fresh identities |
| ResourceLog.LogIsExact | internal/store/store.go:223-639 | From the empty store, any sequence of writes leaves such a log |
| ResourceLog.ReplayRebuilds | internal/store/store.go:546-639 | Folding the events up to any earlier revision rebuilds the table as it stood then |
| ResourceLog.RevisionFixesTable | internal/store/store.go:633-639 | Two states of one history at the same revision have the same table |
| ResourceLog.OneEventPerWrite | internal/store/store.go:333-401 | A write changes nothing or takes exactly the next revision, and a status write never changes the generation |
| ResourceWrites.ApplyingSwaps | internal/store/store.go:223-330 | An apply takes effect iff the client names the version the key has, or 0 for an absent key; then spec and labels are the client's, identity and status the server's, and the generation rises iff the spec changes; otherwise nothing changes and the client is told both versions |
| ResourceWrites.DeletingSwaps | internal/store/store.go:546-596 | A deletion takes effect iff the client names the version of a key that is there |
| ResourceWrites.UpdatingSwaps | internal/store/store.go:333-401 | A status write takes effect iff the key is there, the generation is the one named, if one is named, and the status is new; then status and version change and nothing else |
| ResourceWrites.NoLostUpdate | internal/store/store.go:223-596 | Over any run of writes by anybody, of all applies and deletions of one key that name the same version at most one takes effect |
| ResourceWrites.StatusFitsSpec | internal/store/store.go:333-357 | A status computed from a resource that names its generation lands only on the spec it was computed from, as long as the resource keeps its identity |
| ResourceWrites.StatusOutlives | internal/store/store.go:333-357 | From any store without the key: a resource that is created, deleted and created anew takes the status computed from the first, whatever its spec |
| ResourceListing.WatchIsContiguous | internal/server/api.go:238-269 | An unfiltered watch reads the log from its revision on without gap |
| ResourceListing.SelectedFacts | internal/store/store.go:611-631 | A watcher reads exactly the events after its revision that match kind and namespace, each once and in order |
| ResourceListing.RestUnique | internal/store/store.go:490-497 | There is only one sequence of the matching keys after a key |
| ResourceListing.ListingOrdered | internal/store/store.go:490-497 | A listing is in strict order of kind, namespace and name |
| ResourceListing.ListAll | internal/tui/live.go:322-340 | If no page is refused, the pages together are the whole listing, without gap or repetition, of the table as it stood at the revision they report, however writers interleave; if nobody writes, none is refused |
| ResourceListing.ResourceStore.ApplyResource | internal/store/store.go:223-326 | A version other than the key's, or other than 0 for an absent key, is refused and nothing changes; otherwise identity and status are kept, the generation rises iff the spec changes, and one event is logged |
| ResourceListing.ResourceStore.UpdateResourceStatus | internal/store/store.go:333-401 | A status write refuses a stale generation, and a status already there is no event |
| ResourceListing.ResourceStore.DeleteResource | internal/store/store.go:546-596 | Delete refuses a wrong version and logs the removal |
| ResourceListing.ResourceStore.ListResourcePage | internal/store/store.go:468-529 | A page is the first matching keys after the given one, in order, and says whether more follow; a continuation is refused iff the revision has moved |
| ResourceListing.ResourceStore.EventsAfter | internal/store/store.go:611-631 | A watch page is the first matching events after the revision, and all of them unless it is full |
| LiveClient.ReceiveNext | internal/tui/live.go:99-116 | Applying the next event of the log moves the cache to the next table |
| LiveClient.ReadableAppend | internal/server/api.go:238-269 | Appending the next event, or one sent before, leaves no gap for the reader |
| LiveClient.PageIsSent | internal/server/api.go:238-269 | Sending a page that the store reads for an unfiltered watch is that many sends of the next event |
| LiveClient.ListingResyncs | internal/tui/live.go:293-301 | The listing that reading all pages returns may be taken over, and the cache then shows the table it was read from |
| LiveClient.StepCoherent | internal/tui/live.go:342-381 | Writes, sends, repeated sends, deliveries, disconnects and resyncs keep the cache equal to the table at its revision |
| LiveClient.CacheShowsTable | internal/tui/live.go:89-116 | Over every run, the cache's keys, identities, versions and generations are those the server's table had at the cache's revision |
| LiveClient.CaughtUp | internal/tui/live.go:342-381 | When all that was written has arrived, the cache is the server's table |
| LiveClient.LiveModel.ReplaceResources | internal/tui/live.go:89-97 | The cache becomes the listing, at its revision |
| LiveClient.LiveModel.ApplyResourceEvent | internal/tui/live.go:99-116 | An event not newer than the cache is ignored; any other is applied and moves the revision |
| RunView.ReadsAsWritten | internal/tui/live.go:234-253 | Evidence carries no phase for a client, and every transition the engine writes is read off its type as the phase it gives the Run, except the rejection of an approval |
| RunView.AlwaysCoherent | internal/tui/live.go:118-168 | Over every run of writes, deliveries, repeats and listings of any age, the client's phase is what it has read off the events applied, or comes from a listing no older than their last transition |
| RunView.ShownPhase | internal/tui/live.go:145-168 | A client that has applied all events shows the server's phase, except exactly when the last transition is the rejection of an approval and no listing has come since |
| RunView.EndedAgrees | internal/tui/live.go:145-168 | Once the Run has ended and all events have arrived, the client shows the server's phase |
| RunView.KeepsLast | internal/tui/live.go:151-158 | The client keeps all events it has applied up to 2000, and then exactly the last 2000 |
| RunView.ArrivesOnce | internal/tui/live.go:145-150 | The next event of the log is always applied, and one seen before changes nothing |
| RunView.ListingAgrees | internal/tui/live.go:118-136 | Over every run, a listing of the log as it now is leaves the client with the server's phase, whether it is taken over or refused as older than what the client has seen |
| RunView.RefusalMisread | internal/engine/engine.go:950-958 | From any point at which an approval can be rejected, a client comes to show rejected for a Run that is running |
| RunView.RunModel.ApplyRunEvent | internal/tui/live.go:145-168 | An event not newer than the last is ignored; any other is kept, and its type may set the phase |
| RunView.RunModel.ReplaceRun | internal/tui/live.go:118-136 | A listing is taken over unless the client has seen something later |
| PluginStream.ProducerAndReaderAgree | internal/pluginmanager/manager.go:1163-1220 | Whatever is emitted before and after the finish, the host accepts iff no send was lost, returns the finish payload iff it was a completion, and otherwise stops at the first missing sequence |
| PluginStream.DeliveredCompletes | internal/pluginmanager/manager.go:1163-1220 | If every send is delivered, the host returns the payload the handler finished with, whatever else was emitted or refused |
| PluginStream.StreamExactly | sdk/plugin/sdk.go:415-445 | Whatever is sent in whatever order, the stream gets exactly the sends that are named, encodable and of an ordinary kind, up to the first last word that gets through and with it, each of the delivered ones under its number among all that were taken to the transport |
| PluginStream.ReadsExactly | internal/pluginmanager/manager.go:1163-1220 | The reader answers a payload iff the events are named, numbered from 1 without a gap, and the last is the only terminal one; for any other stream it answers what is wrong first, and where |
| PluginStream.ClosedStays | sdk/plugin/sdk.go:415-420 | After the terminal event nothing more is sent |
| PluginStream.UnfinishedRejected | internal/pluginmanager/manager.go:1167-1173 | A stream without a terminal event is always rejected |
| PluginStream.EventSink.SendEvent | sdk/plugin/sdk.go:415-445 | Closed sinks, blank types, terminal types from the handler and unencodable payloads are refused; a failed send uses up its sequence |
| PluginStream.Consume | internal/pluginmanager/manager.go:1163-1220 | The receive loop gives the reader's verdict |
| Schedule.NeverTwice | internal/trigger/controller.go:165-233 | Over any run, with crashes and other writers between any two calls of a pass, no occurrence is accepted twice, and none of an older generation after one of a newer |
| Schedule.AcceptsCurrent | internal/store/store.go:816-917 | Over any run, a step accepts nothing, or it is a pass accepting one new occurrence that is due and within its deadline, of the generation the row has at that moment, while the Trigger is switched on |
| Schedule.CursorGoesBack | internal/store/store.go:2129-2139 | Over any run, a step moves the cursor back within a generation iff it is a pass advancing a row that has got a newer generation and a later cursor meanwhile; the advance does not look at the generation |
| Schedule.StaleAdvanceHappens | internal/store/store.go:303-312 | A run in which a Trigger is applied anew between acceptance and advance, the cursor of the new generation goes back, and an instant from before that generation began is then accepted |
| Schedule.CursorAdvances | internal/store/store.go:2129-2139 | Without such a stale advance the cursor never moves back within a generation, and the generation never does |
| Schedule.AcceptedBeyond | internal/trigger/controller.go:179-233 | Without one, everything accepted from some point on under the generation of then lies beyond the cursor of then |
| Schedule.AdvanceCatchesUp | internal/trigger/controller.go:179-232 | Whoever wrote in between, a pass that advances a row of its own generation moves the cursor forward and leaves no due instant behind |
| Schedule.ForbidKeepsOne | internal/trigger/controller.go:216-227 | If concurrency is forbidden throughout, at most one accepted occurrence is active at any time, over any run |
| ScheduleController.AloneIsAtomic | internal/trigger/controller.go:165-233 | The turns of a pass that nobody disturbs amount to the pass in one go |
| ScheduleController.PassFacts | internal/trigger/controller.go:165-233 | A pass that nobody disturbs accepts at most one occurrence, new, due and within its deadline, and only while none is active if concurrency is forbidden; it never moves the cursor back within a generation; and when it completes the next instant is later than now |
| ScheduleController.PassDoes | internal/trigger/controller.go:165-233 | What an undisturbed pass does, outcome by outcome: an older generation is refused and a newer one starts a new cursor; a disabled Trigger, nothing due and more than 10000 instants due change nothing more; otherwise the last due instant is skipped past its deadline or beside an active one if that is forbidden, passed over if it was accepted before, and accepted otherwise if the Flow can be started, and the cursor stands at it unless that failed |
| ScheduleController.CatchesUpOnce | internal/trigger/controller.go:179-200 | Such a pass, completed, leaves no due instant behind its cursor |
| ScheduleController.Controller.Scan | internal/trigger/controller.go:179-197 | The scan lists the instants that follow each other from the cursor on and are due, up to 10000 of them, and if it lists fewer the next one is still to come |
| ScheduleController.Controller.EnsureTriggerState | internal/store/store.go:2080-2110 | A newer generation resets the cursor, an older one is refused, the same one is kept |
| ScheduleController.Controller.AcceptTrigger | internal/store/store.go:816-917 | Acceptance checks generation and switch in its own transaction, and records an occurrence once |
| ScheduleController.Controller.ReconcileSchedule | internal/trigger/controller.go:165-233 | With everyone else writing and crashes possible between any two calls, a pass is a stretch of a run of the system and accepts at most one occurrence, due and within its deadline; undisturbed, it is the pass in one go, with its outcome |

## Left out

- Conclusion.Recorder.InterpretRun: does not promise that an outcome is ever recorded; the activity that records it may never be delivered. That a workflow is cancelled only after the operator's request is on record is taken from `Daemon` and the API, not proved here again.
- Compile: diagnostics that are not errors, the plan hash, timeouts, retry policies and the CEL and schema checks themselves are left out; node and condition checks are parameters.
- Protocol: the loop and the handlers are stated on values because their steps interleave; `Daemon`, `Handlers` and `RetentionPass` give the same steps as code. Approval signals and the effect of signals on an instance are opaque.
- Daemon.Daemon.AwaitMutex: does not model fairness of the mutex, like `Handlers.Handler.DeliverOne`; a waiter that finds it still held may give up, where the source waits for as long as it takes.
- Ledger.Store.AcceptTrigger: does not model provider cursors, input payloads or timestamps; validation against the Trigger and the Flow is a parameter. The start command without a stored plan, kept for old databases, is left out.
- Ledger.Store.ClaimNext: does not model the clock; the set of due commands is a parameter, and nothing is claimed about a queued command's plan staying stored, because collection deletes a plan no Run row uses.
- RetentionPass.Collector.Pass: does not model a pass without a pruner, the removal of files and workspaces afterwards, or the refusal of more than 1000 Runs at once, which planning never returns.
- ResourceListing.ListAll: does not model the encoding of the continuation token; the key and revision it carries are passed on.
- LiveClient.LiveModel.ApplyResourceEvent: does not compare status, which the server projects anew on every send. Plugins, health and drawing are left out.
- RunView.RunModel.ReplaceRun: does not model Runs that disappear from the listing; a watch that breaks shows only as events handed over late or again, as in `LiveClient`.
- ActivityDelivery.Activities.ExecuteNode: does not model the executor's context or artifacts; the JSON encoding of a built-in action's configured result does not fail.
- PluginStream.Consume: does not model transport errors, timestamps, redaction or the persistence of evidence; a stream is read to its end. Blank types are recognised by four white-space characters, where the source trims all that Unicode counts as space.
- ScheduleController.Controller.ReconcileSchedule: makes no claim when the catch-up scan exceeds 10000 instants, which is an error exit; recurrence parsing and deletion of the Trigger are left out.
- Provider cursors written by resource writes, audit records, secrets, plugin activation and health, retention of plugins and backups, configuration and the command line: easy members or plumbing.
