/** One delivery of a node activity: at most one execution, whatever other deliveries and the Run do meanwhile. */
module ActivityDelivery {
  import opened Compiler
  import opened RunLog
  import opened Attempts

  /** What a node does: the two built-in actions, a task for the executor, or a task when there is no executor. */
  datatype Action = Noop(output: string) | CoreFail | Task | Unassigned(error: string)

  /** How the executor ends; `interrupted` says the delivery itself was cut off. */
  datatype Execution = Output(output: string) | Canceled(error: string, interrupted: bool) | TimedOut(error: string)
    | Broke(error: string)

  datatype Answer = Refusal | Failure(error: string) | Success(output: string, activated: seq<bool>)

  /** What a delivery writes when it closes its attempt. */
  datatype Record = Record(phase: AttemptPhase, output: string, error: string, outcome: string)

  const INTERRUPTED := "activity delivery was interrupted before durable completion"

  const NOT_RECORDED := "attempt could not be recorded"

  /** Edge conditions over an output; None when evaluation fails. */
  type Evaluation = string -> Option<seq<bool>>

  function Judged(output: string, evaluate: Evaluation): Answer {
    if evaluate(output).Some? then Success(output, evaluate(output).value) else Failure("evaluation failed")
  }

  /** The answer to a delivery whose attempt is already on record. */
  function FromRecord(a: Attempt, evaluate: Evaluation): Answer {
    if a.phase != Done then Failure(a.error) else Judged(a.output, evaluate)
  }

  function ResultOf(action: Action, execution: Execution): Execution {
    match action
    case Noop(output) => Output(output)
    case CoreFail => Broke("core.fail requested")
    case Task => execution
    case Unassigned(error) => Broke(error)
  }

  function BrokenOutcome(action: Action): string {
    match action
    case CoreFail => "core-error"
    case Unassigned(_) => "executor-unavailable"
    case _ => "plugin-failed"
  }

  /**
   * How an execution is recorded. After an interruption it depends on the phase the Run was read in, which is None
   * when it could not be read.
   */
  function Closing(action: Action, result: Execution, evaluate: Evaluation, read: Option<Phase>): (r: Record)
    ensures r.phase == Done <==> result.Output? && evaluate(result.output).Some?
    ensures r.phase != Started && r.outcome != ""
  {
    match result
    case Canceled(text, interrupted) =>
      if interrupted && read.Some? && read.value != Cancelled then Record(Errored, "", INTERRUPTED, "delivery-lost")
      else Record(Errored, "", text, "cancelled")
    case TimedOut(text) => Record(Errored, "", text, "deadline-exceeded")
    case Broke(text) => Record(Errored, "", text, BrokenOutcome(action))
    case Output(text) =>
      if evaluate(text).None? then Record(Errored, "", "evaluation failed", "evaluation-failed")
      else Record(Done, text, "", if action.Task? then "plugin-completed" else "completed")
  }

  /** The attempt was closed by a redelivery that found it open. */
  predicate Lost(a: Attempt) {
    a.completed && a.phase == Errored && a.error == LOST && a.outcome == "delivery-lost"
  }

  predicate IsAt(book: Book, p: nat, node: string, iteration: nat, number: nat) {
    p < |book.attempts| && Same(book.attempts[p], node, iteration) && book.attempts[p].number == number
  }

  // ---------------------------------------------------------------- an open attempt while others go on

  predicate Names(op: Operation, a: Attempt) {
    op.Naming? && Same(a, op.node, op.iteration) && a.number == op.number
  }

  /** The first outcome a plugin named for an attempt, or none. */
  ghost function FirstNamed(ops: seq<Operation>, a: Attempt): string {
    if ops == [] then "" else
      var before, last := FirstNamed(ops[..|ops| - 1], a), ops[|ops| - 1];
      if before != "" then before else if Names(last, a) then last.outcome else ""
  }

  /** A later operation begins the same delivery again. */
  ghost predicate Redelivered(ops: seq<Operation>, a: Attempt) {
    exists j :: 1 <= j < |ops| && ops[j] == Beginning(a.node, a.iteration, a.framework)
  }

  /** What may have become of an attempt that was opened as `mine`: a redelivery closed it, or it is still open. */
  ghost predicate Left(mine: Attempt, a: Attempt, ops: seq<Operation>) {
    && SameIdentity(mine, a)
    && ((Lost(a) && Redelivered(ops, mine)) || a == mine.(outcome := FirstNamed(ops, mine)))
  }

  ghost predicate Fresh(a: Attempt) {
    !a.completed && a.phase == Started && a.output == "" && a.error == "" && a.outcome == ""
  }

  lemma OneMoreOp(start: Book, ops: seq<Operation>, op: Operation, a: Attempt)
    ensures PerformAll(start, ops + [op]) == Perform(PerformAll(start, ops), op)
    ensures FirstNamed(ops + [op], a) ==
              if FirstNamed(ops, a) != "" then FirstNamed(ops, a) else if Names(op, a) then op.outcome else ""
    ensures Redelivered(ops, a) ==> Redelivered(ops + [op], a)
    ensures AllProper(ops) && Proper(op) ==> AllProper(ops + [op])
  {
    hide Perform;
    var longer := ops + [op];
    assert longer[..|ops|] == ops;
    if Redelivered(ops, a) {
      var j :| 1 <= j < |ops| && ops[j] == Beginning(a.node, a.iteration, a.framework);
      assert longer[j] == ops[j];
    }
  }

  lemma BeginTouches(book: Book, node: string, iteration: nat, framework: nat, p: nat)
    requires p < |book.attempts|
    ensures var next := Begin(book, node, iteration, framework).0;
            && p < |next.attempts|
            && (next.attempts[p] == book.attempts[p] ||
                (!book.attempts[p].completed && Delivers(book.attempts[p], node, iteration, framework)
                 && Lost(next.attempts[p]) && SameIdentity(book.attempts[p], next.attempts[p])))
  {
    hide Appended, LastNumber;
  }

  lemma CompleteTouches(book: Book, node: string, iteration: nat, number: nat, phase: AttemptPhase, output: string,
                        error: string, outcome: string, p: nat)
    requires p < |book.attempts| && !IsAt(book, p, node, iteration, number)
    ensures var next := Complete(book, node, iteration, number, phase, output, error, outcome);
            p < |next.attempts| && next.attempts[p] == book.attempts[p]
  {
    hide Appended;
  }

  lemma NameTouches(book: Book, op: Operation, p: nat)
    requires p < |book.attempts| && Numbered(book.attempts) && op.Naming?
    ensures var next := Name(book, op.node, op.iteration, op.number, op.outcome);
            && p < |next.attempts|
            && next.attempts[p] == if Names(op, book.attempts[p]) && op.outcome != "" && book.attempts[p].outcome == ""
                                   then book.attempts[p].(outcome := op.outcome) else book.attempts[p]
  {
    LocatesOwn(book, p);
    hide Numbered;
  }

  /** No operation of others does more to an attempt than close it as lost or name its outcome. */
  lemma OthersTouch(book: Book, op: Operation, p: nat, mine: Attempt, ops: seq<Operation>)
    requires p < |book.attempts| && !(op.Completing? && IsAt(book, p, op.node, op.iteration, op.number))
    requires Ledgered(book) && Fresh(mine) && ops != [] && Left(mine, book.attempts[p], ops)
    ensures p < |Perform(book, op).attempts| && Left(mine, Perform(book, op).attempts[p], ops + [op])
  {
    hide Ledgered, FirstNamed, Redelivered, Begin, Complete, Name, PerformAll, Perform;
    OneMoreOp(book, ops, op, mine);
    LedgeredNumbered(book);
    PerformIs(book, op);
    match op
    case Beginning(node, iteration, framework) =>
      BeginTouches(book, node, iteration, framework, p);
      BegunAgain(ops, op, mine);
    case Completing(node, iteration, number, phase, output, error, outcome) =>
      CompleteTouches(book, node, iteration, number, phase, output, error, outcome, p);
    case Naming(_, _, _, _) => NameTouches(book, op, p);
    case _ =>
  }

  lemma BegunAgain(ops: seq<Operation>, op: Operation, a: Attempt)
    requires ops != []
    ensures op == Beginning(a.node, a.iteration, a.framework) ==> Redelivered(ops + [op], a)
  {
    assert (ops + [op])[|ops|] == op;
  }

  lemma PerformIs(book: Book, op: Operation)
    ensures op.Beginning? ==> Perform(book, op) == Begin(book, op.node, op.iteration, op.framework).0
    ensures op.Completing? ==>
              Perform(book, op) ==
                Complete(book, op.node, op.iteration, op.number, op.result, op.output, op.error, op.outcome)
    ensures op.Naming? ==> Perform(book, op) == Name(book, op.node, op.iteration, op.number, op.outcome)
    ensures !op.Beginning? && !op.Completing? && !op.Naming? ==> Perform(book, op).attempts == book.attempts
  {
    hide Begin, Complete, Name;
  }

  // ---------------------------------------------------------------- what a delivery leaves behind

  /** The phase in which a delivery read the Run: after the first `seen` operations, if it read it at all. */
  ghost function PhaseRead(start: Book, ops: seq<Operation>, seen: Option<nat>): Option<Phase>
    requires seen.Some? ==> seen.value <= |ops|
  {
    if seen.Some? then Some(PerformAll(start, ops[..seen.value]).log.phase) else None
  }

  /** An attempt with its closing record; an outcome that was named before stays. */
  function Closed(mine: Attempt, record: Record, named: string): Attempt {
    mine.(phase := record.phase, output := record.output, error := record.error, completed := true,
          outcome := if named != "" then named else record.outcome)
  }

  function Answered(record: Record, evaluate: Evaluation, written: bool): Answer {
    if record.phase != Done then Failure(record.error)
    else if written then Judged(record.output, evaluate) else Failure(NOT_RECORDED)
  }

  /**
   * How the delivery that opened `mine`, first of the operations, has ended. Its own attempt `a` holds the closing
   * record, with the outcome a plugin named if one did, unless a redelivery closed it first or the record could not be
   * written; and the answer is that of the closing record, if it could be written.
   */
  ghost predicate Concluded(start: Book, ops: seq<Operation>, mine: Attempt, a: Attempt, action: Action,
                            result: Execution, evaluate: Evaluation, seen: Option<nat>, written: bool, answer: Answer)
  {
    && SameIdentity(mine, a) && (seen.Some? ==> result.Canceled? && result.interrupted && seen.value <= |ops|)
    && var record := Closing(action, result, evaluate, PhaseRead(start, ops, seen));
    && answer == Answered(record, evaluate, written)
    && ((Lost(a) && Redelivered(ops, mine)) || (written && a == Closed(mine, record, FirstNamed(ops, mine)))
        || (!written && !a.completed))
  }

  // ---------------------------------------------------------------- what a delivery answers and records

  /** The action comes to this output. */
  predicate Yields(action: Action, execution: Execution, output: string) {
    action == Noop(output) || (action.Task? && execution == Output(output))
  }

  /**
   * What may be answered: the output that the action came to, with the flags its conditions give, if that could be
   * recorded; and otherwise the error. `live` tells that the Run was read after an interruption and not cancelled.
   */
  ghost predicate AnswerFits(action: Action, execution: Execution, evaluate: Evaluation, live: bool, written: bool,
                             answer: Answer)
  {
    && (forall output :: Yields(action, execution, output) ==>
          if evaluate(output).None? then answer == Failure("evaluation failed")
          else if written then answer == Success(output, evaluate(output).value)
          else answer == Failure(NOT_RECORDED))
    && (action.CoreFail? ==> answer == Failure("core.fail requested"))
    && (action.Unassigned? ==> answer == Failure(action.error))
    && (action.Task? && execution.Canceled? ==>
          answer == Failure(if execution.interrupted && live then INTERRUPTED else execution.error))
    && (action.Task? && (execution.TimedOut? || execution.Broke?) ==> answer == Failure(execution.error))
  }

  /** A closing record that was written tells what was answered. */
  ghost predicate RecordFits(a: Attempt, answer: Answer) {
    && a.completed && !answer.Refusal?
    && (answer.Success? ==> a.phase == Done && a.output == answer.output && a.error == "")
    && (answer.Failure? ==> a.phase == Errored && a.output == "" && a.error == answer.error)
  }

  /** The outcome the engine records, if the plugin has named none. */
  ghost predicate OutcomeFits(action: Action, execution: Execution, live: bool, answer: Answer, outcome: string) {
    outcome ==
      match action
      case CoreFail => "core-error"
      case Unassigned(_) => "executor-unavailable"
      case Noop(_) => if answer.Success? then "completed" else "evaluation-failed"
      case Task =>
        match execution
        case Output(_) => if answer.Success? then "plugin-completed" else "evaluation-failed"
        case Canceled(_, interrupted) => if interrupted && live then "delivery-lost" else "cancelled"
        case TimedOut(_) => "deadline-exceeded"
        case Broke(_) => "plugin-failed"
  }

  /** What is answered to a delivery on record: its output, with the flags of now, or its error. */
  ghost predicate ReplayFits(a: Attempt, evaluate: Evaluation, answer: Answer) {
    if a.phase != Done then answer == Failure(a.error)
    else if evaluate(a.output).None? then answer == Failure("evaluation failed")
    else answer == Success(a.output, evaluate(a.output).value)
  }

  ghost predicate ReadLive(start: Book, ops: seq<Operation>, seen: Option<nat>) {
    seen.Some? && seen.value <= |ops| && PerformAll(start, ops[..seen.value]).log.phase != Cancelled
  }

  /** A concluded delivery answers and records what its action came to. */
  lemma ConcludedFits(start: Book, ops: seq<Operation>, mine: Attempt, a: Attempt, action: Action,
                      execution: Execution, evaluate: Evaluation, seen: Option<nat>, written: bool, answer: Answer)
    requires Concluded(start, ops, mine, a, action, ResultOf(action, execution), evaluate, seen, written, answer)
    ensures AnswerFits(action, execution, evaluate, ReadLive(start, ops, seen), written, answer)
    ensures written && !(Lost(a) && Redelivered(ops, mine)) ==>
              && RecordFits(a, answer)
              && (FirstNamed(ops, mine) == "" ==>
                    OutcomeFits(action, execution, ReadLive(start, ops, seen), answer, a.outcome))
  {
    hide PerformAll, FirstNamed, Redelivered;
  }

  lemma NoOps(book: Book)
    ensures AllProper([]) && PerformAll(book, []) == book && Preserved(book, book)
  {
  }

  /** What Begin reports about the record it found or made. */
  lemma BeginOpens(book: Book, node: string, iteration: nat, framework: nat)
    ensures var (next, begun) := Begin(book, node, iteration, framework);
            && (begun.Opened? ==>
                  && |next.attempts| == |book.attempts| + 1 && next.attempts[|book.attempts|] == begun.attempt
                  && Fresh(begun.attempt) && Delivers(begun.attempt, node, iteration, framework))
            && (begun.Replayed? ==> next == book && begun.attempt in book.attempts && begun.attempt.completed
                                    && Delivers(begun.attempt, node, iteration, framework))
            && (begun.BeginRefused? ==> next == book)
  {
    hide Appended, LastNumber;
  }

  /** The delivery's own beginning is the first operation of its run. */
  lemma FirstOp(book: Book, node: string, iteration: nat, framework: nat)
    requires Ledgered(book)
    ensures var (next, begun) := Begin(book, node, iteration, framework);
            var ops := [Beginning(node, iteration, framework)];
            && AllProper(ops) && PerformAll(book, ops) == next && Ledgered(next) && Preserved(book, next)
            && (begun.Opened? ==> Left(begun.attempt, begun.attempt, ops))
  {
    hide Begin, Ledgered, Preserved;
    var op := Beginning(node, iteration, framework);
    PerformIs(book, op);
    PerformKeeps(book, op);
    BeginOpens(book, node, iteration, framework);
    var begun := Begin(book, node, iteration, framework).1;
    OneMoreOp(book, [], op, if begun.Opened? then begun.attempt else Attempt("", 0, 0, 0, Started, "", "", "", false));
    assert [] + [op] == [op];
  }

  lemma ReadStays(start: Book, earlier: seq<Operation>, ops: seq<Operation>, seen: Option<nat>)
    requires earlier <= ops && (seen.Some? ==> seen.value == |earlier|)
    ensures seen.Some? ==> PhaseRead(start, ops, seen) == Some(PerformAll(start, earlier).log.phase)
    ensures seen.None? ==> PhaseRead(start, ops, seen) == None
  {
    assert ops[..|earlier|] == earlier;
  }

  lemma LeftConcludes(start: Book, ops: seq<Operation>, mine: Attempt, a: Attempt, action: Action, result: Execution,
                      evaluate: Evaluation, seen: Option<nat>)
    requires Fresh(mine) && Left(mine, a, ops)
    requires seen.Some? ==> result.Canceled? && result.interrupted && seen.value <= |ops|
    ensures SameIdentity(mine, a)
    ensures Concluded(start, ops, mine, a, action, result, evaluate, seen, false,
                      Answered(Closing(action, result, evaluate, PhaseRead(start, ops, seen)), evaluate, false))
  {
    hide Closing, PerformAll, FirstNamed, Redelivered;
  }

  /** Writing the closing record is one more operation, and concludes the delivery. */
  lemma CloseOwn(start: Book, ops: seq<Operation>, p: nat, mine: Attempt, book: Book, action: Action,
                 result: Execution, evaluate: Evaluation, seen: Option<nat>)
    requires Fresh(mine) && AllProper(ops) && Ledgered(book) && book == PerformAll(start, ops)
    requires p < |book.attempts| && Left(mine, book.attempts[p], ops)
    requires seen.Some? ==> result.Canceled? && result.interrupted && seen.value <= |ops|
    ensures var r := Closing(action, result, evaluate, PhaseRead(start, ops, seen));
            var op := Completing(mine.node, mine.iteration, mine.number, r.phase, r.output, r.error, r.outcome);
            var next := Perform(book, op);
            && AllProper(ops + [op]) && Ledgered(next) && next == PerformAll(start, ops + [op])
            && p < |next.attempts|
            && (!book.attempts[p].completed ==> next.attempts[p] == Closed(mine, r, FirstNamed(ops, mine)))
            && Concluded(start, ops + [op], mine, next.attempts[p], action, result, evaluate, seen, true,
                         Answered(r, evaluate, true))
  {
    hide Closing, PerformAll, FirstNamed, Redelivered, Ledgered, Complete, Perform, Answered;
    var r := Closing(action, result, evaluate, PhaseRead(start, ops, seen));
    var op := Completing(mine.node, mine.iteration, mine.number, r.phase, r.output, r.error, r.outcome);
    LedgeredNumbered(book);
    LocatesOwn(book, p);
    OneMoreOp(start, ops, op, mine);
    PerformKeeps(book, op);
    PerformIs(book, op);
    CompletesOwn(book, p, r.phase, r.output, r.error, r.outcome);
    assert seen.Some? ==> (ops + [op])[..seen.value] == ops[..seen.value];
    assert PhaseRead(start, ops + [op], seen) == PhaseRead(start, ops, seen);
    var a, next := book.attempts[p], Perform(book, op);
    assert FirstNamed(ops + [op], mine) == FirstNamed(ops, mine);
    assert next.attempts[p] == a || next.attempts[p] == Closed(mine, r, FirstNamed(ops, mine));
  }

  lemma CompletesOwn(book: Book, p: nat, phase: AttemptPhase, output: string, error: string, outcome: string)
    requires p < |book.attempts| && phase != Started
    requires var a := book.attempts[p]; Locate(book.attempts, a.node, a.iteration, a.number) == p
    ensures var a := book.attempts[p];
            var next := Complete(book, a.node, a.iteration, a.number, phase, output, error, outcome);
            && |next.attempts| == |book.attempts|
            && next.attempts[p] == if a.completed then a else
                 a.(phase := phase, output := output, error := error, completed := true,
                    outcome := if a.outcome == "" then outcome else a.outcome)
  {
    hide Appended;
  }

  // ---------------------------------------------------------------- what that means

  /**
   * A success is on record with the output answered, and the flags are those of that output, unless a redelivery
   * closed the attempt first.
   */
  lemma SuccessOnRecord(start: Book, ops: seq<Operation>, mine: Attempt, a: Attempt, action: Action,
                        execution: Execution, evaluate: Evaluation, seen: Option<nat>, written: bool, answer: Answer)
    requires Concluded(start, ops, mine, a, action, ResultOf(action, execution), evaluate, seen, written, answer)
    requires answer.Success?
    ensures Yields(action, execution, answer.output) && evaluate(answer.output) == Some(answer.activated)
    ensures a.completed && ((a.phase == Done && a.output == answer.output) || (Lost(a) && Redelivered(ops, mine)))
  {
    hide FirstNamed, Redelivered, PerformAll;
  }

  /** The i-th operation cancels the Run. */
  ghost predicate CancelsAt(start: Book, ops: seq<Operation>, i: nat) {
    i < |ops| && ops[i].Cancelling? && !Terminal(PerformAll(start, ops[..i]).log.phase)
  }

  ghost predicate CancelledWithin(start: Book, ops: seq<Operation>, first: nat, end: nat) {
    exists i :: first <= i < end && CancelsAt(start, ops, i)
  }

  lemma CancelStep(book: Book, op: Operation)
    requires Proper(op)
    ensures Perform(book, op).log.phase == Cancelled <==>
              book.log.phase == Cancelled || (op.Cancelling? && !Terminal(book.log.phase))
  {
    hide LastNumber, Latest, Locate;
  }

  /** The Run is cancelled exactly if it was to begin with or one of the operations so far has cancelled it. */
  lemma {:induction false} CancelledPhase(start: Book, ops: seq<Operation>, n: nat)
    requires AllProper(ops) && n <= |ops|
    ensures PerformAll(start, ops[..n]).log.phase == Cancelled <==>
              start.log.phase == Cancelled || CancelledWithin(start, ops, 0, n)
    decreases n
  {
    hide Perform, CancelsAt;
    if n > 0 {
      CancelledPhase(start, ops, n - 1);
      assert ops[..n][..n - 1] == ops[..n - 1];
      var before := PerformAll(start, ops[..n - 1]);
      CancelStep(before, ops[n - 1]);
      CancelsHere(start, ops, n - 1);
      if CancelledWithin(start, ops, 0, n) && !CancelsAt(start, ops, n - 1) {
        var i :| 0 <= i < n && CancelsAt(start, ops, i);
        assert i < n - 1;
      }
    }
  }

  lemma CancelsHere(start: Book, ops: seq<Operation>, i: nat)
    requires i < |ops|
    ensures CancelsAt(start, ops, i) <==> ops[i].Cancelling? && !Terminal(PerformAll(start, ops[..i]).log.phase)
  {
  }

  /** An interrupted delivery that wrote its record, with no redelivery and no outcome named by the plugin. */
  ghost predicate Stopped(start: Book, ops: seq<Operation>, mine: Attempt, a: Attempt, action: Action,
                          result: Execution, evaluate: Evaluation, seen: Option<nat>, answer: Answer)
  {
    && Concluded(start, ops, mine, a, action, result, evaluate, seen, true, answer)
    && result.Canceled? && result.interrupted && !Lost(a) && FirstNamed(ops, mine) == ""
    && AllProper(ops) && !Terminal(start.log.phase)
  }

  /**
   * Such a delivery is on record as lost exactly if the Run could be read and had not been cancelled by then, and
   * otherwise as cancelled.
   */
  lemma StopOnRecord(start: Book, ops: seq<Operation>, mine: Attempt, a: Attempt, action: Action, result: Execution,
                     evaluate: Evaluation, seen: Option<nat>, answer: Answer)
    requires Stopped(start, ops, mine, a, action, result, evaluate, seen, answer)
    ensures a.outcome == if seen.Some? && !CancelledWithin(start, ops, 0, seen.value)
                         then "delivery-lost" else "cancelled"
  {
    hide FirstNamed, Redelivered, PerformAll, CancelledWithin, AllProper;
    if seen.Some? {
      CancelledPhase(start, ops, seen.value);
    }
  }

  /**
   * The record and the Run agree on whether the Run was cancelled exactly if no cancellation came between the read and
   * the record, or, when the Run could not be read, exactly if one has come at all.
   */
  lemma StopAgrees(start: Book, ops: seq<Operation>, mine: Attempt, a: Attempt, action: Action, result: Execution,
                   evaluate: Evaluation, seen: Option<nat>, answer: Answer)
    requires Stopped(start, ops, mine, a, action, result, evaluate, seen, answer)
    ensures (a.outcome == "cancelled" <==> PerformAll(start, ops).log.phase == Cancelled) <==>
              if seen.Some? then !CancelledWithin(start, ops, seen.value, |ops|)
              else CancelledWithin(start, ops, 0, |ops|)
  {
    StopOnRecord(start, ops, mine, a, action, result, evaluate, seen, answer);
    CancelledPhase(start, ops, |ops|);
    assert ops[..|ops|] == ops;
    if seen.Some? {
      CancelledOnce(start, ops, seen.value);
    }
  }

  /** A Run is cancelled at most once. */
  lemma CancelledOnce(start: Book, ops: seq<Operation>, n: nat)
    requires AllProper(ops) && n <= |ops|
    ensures CancelledWithin(start, ops, 0, |ops|) <==>
              CancelledWithin(start, ops, 0, n) || CancelledWithin(start, ops, n, |ops|)
    ensures !(CancelledWithin(start, ops, 0, n) && CancelledWithin(start, ops, n, |ops|))
  {
    hide PerformAll, AllProper, Terminal;
    if CancelledWithin(start, ops, 0, n) && CancelledWithin(start, ops, n, |ops|) {
      var i :| 0 <= i < n && CancelsAt(start, ops, i);
      var j :| n <= j < |ops| && CancelsAt(start, ops, j);
      CancelledPhase(start, ops, j);
      assert CancelledWithin(start, ops, 0, j);
      CancelledEnds();
    }
    if CancelledWithin(start, ops, 0, |ops|) {
      var i :| 0 <= i < |ops| && CancelsAt(start, ops, i);
      assert i < n || n <= i;
    }
  }

  lemma CancelledEnds()
    ensures Terminal(Cancelled)
  {
  }

  /** A cancellation after the Run was read leaves a cancelled Run with an attempt on record as lost. */
  lemma CancelledYetLost(book: Book, node: string, iteration: nat, framework: nat, text: string, reason: string,
                         evaluate: Evaluation) returns (ops: seq<Operation>)
    requires Ledgered(book) && Begin(book, node, iteration, framework).1.Opened?
    ensures AllProper(ops) && |PerformAll(book, ops).attempts| > |book.attempts|
    ensures var mine, final := Begin(book, node, iteration, framework).1.attempt, PerformAll(book, ops);
            var a := final.attempts[|book.attempts|];
            && Concluded(book, ops, mine, a, Task, Canceled(text, true), evaluate, Some(1), true, Failure(INTERRUPTED))
            && final.log.phase == Cancelled && a.outcome == "delivery-lost" && !Lost(a)
  {
    hide Begin, Ledgered, PerformAll, FirstNamed, Redelivered, Perform, AllProper, Concluded;
    var mine, p := Begin(book, node, iteration, framework).1.attempt, |book.attempts|;
    BeginOpens(book, node, iteration, framework);
    FirstOp(book, node, iteration, framework);
    BeginLives(book, node, iteration, framework);
    ops := [Beginning(node, iteration, framework)];
    var begun := PerformAll(book, ops);
    assert ops[..1] == ops;
    var cancel := Cancelling(reason);
    OthersTouch(begun, cancel, p, mine, ops);
    OneMoreOp(book, ops, cancel, mine);
    PerformKeeps(begun, cancel);
    CancelStep(begun, cancel);
    PerformIs(begun, cancel);
    var later := ops + [cancel];
    assert later[..1] == ops;
    var cancelled := PerformAll(book, later);
    CloseOwn(book, later, p, mine, cancelled, Task, Canceled(text, true), evaluate, Some(1));
    var closing := Completing(mine.node, mine.iteration, mine.number, Errored, "", INTERRUPTED, "delivery-lost");
    CancelStep(cancelled, closing);
    NothingNamed(mine, Beginning(node, iteration, framework), cancel);
    ops := later + [closing];
  }

  /** A Run that could not be read goes on with an attempt on record as cancelled. */
  lemma UnreadYetCancelled(book: Book, node: string, iteration: nat, framework: nat, text: string,
                           evaluate: Evaluation) returns (ops: seq<Operation>)
    requires Ledgered(book) && Begin(book, node, iteration, framework).1.Opened?
    ensures AllProper(ops) && |PerformAll(book, ops).attempts| > |book.attempts|
    ensures var mine, final := Begin(book, node, iteration, framework).1.attempt, PerformAll(book, ops);
            var a := final.attempts[|book.attempts|];
            && Concluded(book, ops, mine, a, Task, Canceled(text, true), evaluate, None, true, Failure(text))
            && !Terminal(final.log.phase) && a.outcome == "cancelled"
  {
    hide Begin, Ledgered, PerformAll, FirstNamed, Redelivered, Perform, AllProper, Concluded, Terminal;
    var mine, p := Begin(book, node, iteration, framework).1.attempt, |book.attempts|;
    BeginOpens(book, node, iteration, framework);
    FirstOp(book, node, iteration, framework);
    BeginLives(book, node, iteration, framework);
    ops := [Beginning(node, iteration, framework)];
    var begun := PerformAll(book, ops);
    CloseOwn(book, ops, p, mine, begun, Task, Canceled(text, true), evaluate, None);
    var closing := Completing(mine.node, mine.iteration, mine.number, Errored, "", text, "cancelled");
    DeliveryPhase(begun, closing);
    NothingNamed(mine, Beginning(node, iteration, framework), Beginning(node, iteration, framework));
    ops := ops + [closing];
  }

  lemma BeginLives(book: Book, node: string, iteration: nat, framework: nat)
    ensures Begin(book, node, iteration, framework).1.Opened? ==>
              !Terminal(book.log.phase) && !Terminal(Begin(book, node, iteration, framework).0.log.phase)
  {
    hide LastNumber, Latest;
  }

  lemma NothingNamed(mine: Attempt, one: Operation, two: Operation)
    requires !one.Naming? && !two.Naming?
    ensures FirstNamed([one], mine) == "" && FirstNamed([one] + [two], mine) == ""
  {
    assert ([one] + [two])[..1] == [one];
  }

  /** With nobody else acting the attempt was not opened again. */
  lemma TwoOps(ops: seq<Operation>, mine: Attempt)
    requires |ops| == 2 && ops[1].Completing?
    ensures !Redelivered(ops, mine)
  {
  }

  lemma NoneYet(attempts: seq<Attempt>, node: string, iteration: nat, framework: nat)
    ensures Latest(attempts[..0], node, iteration, framework) == 0
  {
  }

  lemma LatestStep(attempts: seq<Attempt>, i: nat, node: string, iteration: nat, framework: nat)
    requires i < |attempts|
    ensures var before := Latest(attempts[..i], node, iteration, framework);
            Latest(attempts[..i + 1], node, iteration, framework) ==
              if Delivers(attempts[i], node, iteration, framework)
                  && (before == i || attempts[i].number >= attempts[before].number) then i
              else if before == i then i + 1 else before
  {
    hide Delivers;
    assert attempts[..i + 1][..i] == attempts[..i];
  }

  class Activities {
    var book: Book

    constructor (log: Log)
      ensures book == Book([], log)
    {
      book := Book([], log);
    }

    method BeginNodeAttempt(node: string, iteration: nat, framework: nat) returns (begun: Begun)
      modifies this
      ensures (book, begun) == Begin(old(book), node, iteration, framework)
    {
      hide Latest, LastNumber, Abandoned, Appended;
      if framework == 0 {
        return BeginRefused;
      }
      var p := Newest(node, iteration, framework);
      if p < |book.attempts| && book.attempts[p].completed {
        return Replayed(book.attempts[p]);
      }
      if Terminal(book.log.phase) {
        return BeginRefused;
      }
      var number := NextNumber(node, iteration);
      if p < |book.attempts| {
        book := Abandoned(book, p);
      }
      var a := Attempt(node, iteration, number, framework, Started, "", "", "", false);
      book := Book(book.attempts + [a], Appended(book.log, node, number, "node.started", Running));
      return Opened(a);
    }

    /** The attempt of the delivery with the highest number, if there is one. */
    method Newest(node: string, iteration: nat, framework: nat) returns (p: nat)
      ensures p == Latest(book.attempts, node, iteration, framework)
    {
      hide Latest, Delivers;
      p := |book.attempts|;
      NoneYet(book.attempts, node, iteration, framework);
      for i := 0 to |book.attempts|
        invariant if Latest(book.attempts[..i], node, iteration, framework) == i then p == |book.attempts|
                  else p == Latest(book.attempts[..i], node, iteration, framework)
      {
        LatestStep(book.attempts, i, node, iteration, framework);
        if Delivers(book.attempts[i], node, iteration, framework)
            && (p == |book.attempts| || book.attempts[i].number >= book.attempts[p].number) {
          p := i;
        }
      }
      assert book.attempts[..|book.attempts|] == book.attempts;
    }

    method NextNumber(node: string, iteration: nat) returns (number: nat)
      ensures number == LastNumber(book.attempts, node, iteration) + 1
    {
      var max := 0;
      for i := 0 to |book.attempts|
        invariant max == LastNumber(book.attempts[..i], node, iteration)
      {
        assert book.attempts[..i + 1][..i] == book.attempts[..i];
        if Same(book.attempts[i], node, iteration) && book.attempts[i].number > max {
          max := book.attempts[i].number;
        }
      }
      assert book.attempts[..|book.attempts|] == book.attempts;
      number := max + 1;
    }

    method Find(node: string, iteration: nat, number: nat) returns (p: nat)
      ensures p == Locate(book.attempts, node, iteration, number)
    {
      p := 0;
      while p < |book.attempts| && !(Same(book.attempts[p], node, iteration) && book.attempts[p].number == number)
        invariant 0 <= p <= |book.attempts|
        invariant Locate(book.attempts, node, iteration, number) ==
                    p + Locate(book.attempts[p..], node, iteration, number)
      {
        assert book.attempts[p..][1..] == book.attempts[p + 1..];
        p := p + 1;
      }
    }

    method CompleteNodeAttempt(node: string, iteration: nat, number: nat, phase: AttemptPhase, output: string,
                               error: string, outcome: string)
      modifies this
      ensures book == Complete(old(book), node, iteration, number, phase, output, error, outcome)
    {
      if phase == Started {
        return;
      }
      var p := Find(node, iteration, number);
      if p == |book.attempts| || book.attempts[p].completed {
        return;
      }
      var a := book.attempts[p];
      var done := a.(phase := phase, output := output, error := error, completed := true,
                     outcome := if a.outcome == "" then outcome else a.outcome);
      var event := if phase == Done then "node.completed" else "node.failed";
      book := Book(book.attempts[p := done], Appended(book.log, node, number, event, Running));
    }

    method SetNodeAttemptOutcome(node: string, iteration: nat, number: nat, outcome: string)
      modifies this
      ensures book == Name(old(book), node, iteration, number, outcome)
    {
      if outcome == "" {
        return;
      }
      var p := Find(node, iteration, number);
      if p < |book.attempts| && book.attempts[p].outcome == "" {
        book := book.(attempts := book.attempts[p := book.attempts[p].(outcome := outcome)]);
      }
    }

    /** A transition of the Run, evidence of a plugin, or an operator's cancellation. */
    method RunMoves(op: Operation)
      requires op.Moving? || op.Noting? || op.Cancelling?
      modifies this
      ensures book == Perform(old(book), op)
    {
      match op {
        case Moving(node, attempt, eventType, phase) =>
          book := book.(log := Appended(book.log, node, attempt, eventType, phase));
        case Noting(node, attempt, eventType) => book := book.(log := WithEvidence(book.log, node, attempt, eventType));
        case Cancelling(reason) =>
          if !Terminal(book.log.phase) {
            book := book.(log := WithCancellation(book.log, reason));
          }
      }
    }

    method Apply(op: Operation)
      modifies this
      ensures book == Perform(old(book), op)
    {
      hide Begin, Complete, Name, Appended, WithEvidence, WithCancellation;
      match op {
        case Beginning(node, iteration, framework) => var _ := BeginNodeAttempt(node, iteration, framework);
        case Completing(node, iteration, number, phase, output, error, outcome) =>
          CompleteNodeAttempt(node, iteration, number, phase, output, error, outcome);
        case Naming(node, iteration, number, outcome) => SetNodeAttemptOutcome(node, iteration, number, outcome);
        case _ => RunMoves(op);
      }
    }

    /**
     * Other deliveries of the Run come and go, plugins name outcomes, and the Run itself moves on, ends or is
     * cancelled. None of them completes an attempt it did not open.
     */
    method OthersRun(p: nat, quiet: bool, ghost start: Book, ghost mine: Attempt, ghost ops0: seq<Operation>)
      returns (ghost ops: seq<Operation>)
      requires Under(start, ops0) && p < |book.attempts| && ops0 != []
      requires Fresh(mine) && Left(mine, book.attempts[p], ops0)
      modifies this
      ensures Under(start, ops) && p < |book.attempts| && ops0 <= ops
      ensures Left(mine, book.attempts[p], ops) && (quiet ==> ops == ops0)
    {
      hide Ledgered, Perform, PerformAll, Left, AllProper;
      ops := ops0;
      var left: nat := *;
      while left > 0 && !quiet
        invariant Under(start, ops) && p < |book.attempts| && ops0 <= ops && (quiet ==> ops == ops0)
        invariant Left(mine, book.attempts[p], ops)
      {
        var op: Operation := *;
        if Proper(op) && !(op.Completing? && IsAt(book, p, op.node, op.iteration, op.number)) {
          OthersTouch(book, op, p, mine, ops);
          OneMoreOp(start, ops, op, mine);
          PerformKeeps(book, op);
          Apply(op);
          ops := ops + [op];
        }
        left := left - 1;
      }
    }

    /** The ledger is where these operations have led from `start`. */
    ghost predicate Under(start: Book, ops: seq<Operation>)
      reads this
    {
      AllProper(ops) && Ledgered(book) && book == PerformAll(start, ops)
    }

    /**
     * One delivery. `called` tells whether the executor ran. A delivery already on record is answered from it and
     * executes nothing; otherwise its own attempt is the one it opened, and how that ends is said by `Concluded`:
     * `seen` is when the Run was read after an interruption, `written` whether the closing record could be written.
     * If the call is `quiet`, nobody else acts and nothing fails meanwhile.
     */
    method ExecuteNode(node: string, iteration: int, framework: int, retryLimit: nat, action: Action,
                       execution: Execution, evaluate: Evaluation, quiet: bool)
      returns (answer: Answer, called: bool, ghost ops: seq<Operation>, ghost seen: Option<nat>, ghost written: bool)
      requires Ledgered(book)
      modifies this
      ensures Under(old(book), ops) && Preserved(old(book), book)
      ensures !(0 <= iteration < 1000 && 1 <= framework <= retryLimit + 1) ==>
                answer == Refusal && !called && book == old(book)
      ensures 0 <= iteration < 1000 && 1 <= framework <= retryLimit + 1 ==>
                match Begin(old(book), node, iteration, framework).1
                case BeginRefused => answer == Refusal && !called && book == old(book)
                case Replayed(a) => ReplayFits(a, evaluate, answer) && !called && book == old(book)
                case Opened(a) =>
                  && called == action.Task? && |old(book).attempts| < |book.attempts|
                  && Concluded(old(book), ops, a, book.attempts[|old(book).attempts|], action,
                               ResultOf(action, execution), evaluate, seen, written, answer)
                  && AnswerFits(action, execution, evaluate, ReadLive(old(book), ops, seen), written, answer)
                  && (quiet ==>
                        && written && |ops| == 2 && RecordFits(book.attempts[|old(book).attempts|], answer)
                        && (action.Task? && execution.Canceled? && execution.interrupted ==> seen == Some(1)))
    {
      hide Ledgered, Complete, Begin, PerformAll, Preserved, Concluded, AllProper;
      called, ops, seen, written := false, [], None, false;
      NoOps(book);
      if iteration < 0 || iteration >= 1000 || framework < 1 || framework > retryLimit + 1 {
        return Refusal, called, ops, seen, written;
      }
      BeginOpens(book, node, iteration, framework);
      FirstOp(book, node, iteration, framework);
      var begun := BeginNodeAttempt(node, iteration, framework);
      match begun {
        case BeginRefused =>
          return Refusal, called, ops, seen, written;
        case Replayed(a) =>
          return FromRecord(a, evaluate), called, ops, seen, written;
        case Opened(a) =>
          var result := ResultOf(action, execution);
          called := action.Task?;
          ops := [Beginning(node, iteration, framework)];
          answer, ops, seen, written :=
            Conclude(|book.attempts| - 1, action, result, evaluate, quiet, old(book), a, ops);
          LedgerHolds(old(book), ops);
          ConcludedFits(old(book), ops, a, book.attempts[|old(book).attempts|], action, execution, evaluate, seen,
                        written, answer);
          if quiet {
            TwoOps(ops, a);
          }
      }
    }

    /**
     * The execution, and then the closing record. After an interruption the phase of the Run is read first; between
     * the two everyone else may go on. Both the read and the write can fail.
     */
    method Conclude(p: nat, action: Action, result: Execution, evaluate: Evaluation, quiet: bool, ghost start: Book,
                    ghost mine: Attempt, ghost ops0: seq<Operation>)
      returns (answer: Answer, ghost ops: seq<Operation>, ghost seen: Option<nat>, ghost written: bool)
      requires Under(start, ops0) && p < |book.attempts| && ops0 != []
      requires Fresh(mine) && Left(mine, book.attempts[p], ops0)
      modifies this
      ensures Under(start, ops) && p < |book.attempts| && answer != Refusal
      ensures Concluded(start, ops, mine, book.attempts[p], action, result, evaluate, seen, written, answer)
      ensures quiet ==>
                && written && |ops| == |ops0| + 1 && ops[..|ops0|] == ops0 && ops[|ops0|].Completing?
                && (result.Canceled? && result.interrupted ==> seen == Some(|ops0|))
    {
      hide Ledgered, Complete, PerformAll, AllProper, FirstNamed, Redelivered, Left, Concluded, Closing;
      ops := OthersRun(p, quiet, start, mine, ops0);
      var read: Option<Phase> := None;
      seen := None;
      if result.Canceled? && result.interrupted {
        var readable: bool := *;
        if readable || quiet {
          read, seen := Some(book.log.phase), Some(|ops|);
          assert ops[..|ops|] == ops;
        }
      }
      ghost var earlier := ops;
      ops := OthersRun(p, quiet, start, mine, ops);
      ReadStays(start, earlier, ops, seen);
      var record := Closing(action, result, evaluate, read);
      var stored: bool := *;
      stored := stored || quiet;
      written := stored;
      LeftConcludes(start, ops, mine, book.attempts[p], action, result, evaluate, seen);
      if stored {
        ghost var before := book;
        CloseOwn(start, ops, p, mine, book, action, result, evaluate, seen);
        var a := book.attempts[p];
        CompleteNodeAttempt(a.node, a.iteration, a.number, record.phase, record.output, record.error, record.outcome);
        ghost var op := Completing(mine.node, mine.iteration, mine.number, record.phase, record.output, record.error,
                                   record.outcome);
        PerformIs(before, op);
        ops := ops + [op];
      }
      answer := Answered(record, evaluate, stored);
    }
  }
}
