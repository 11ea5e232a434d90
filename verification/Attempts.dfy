/** The ledger of physical attempts behind at-least-once activity delivery, for one Run. */
module Attempts {
  import opened Compiler
  import opened RunLog

  datatype AttemptPhase = Started | Done | Errored

  /** One physical execution; `framework` is the delivery attempt the workflow engine is making. */
  datatype Attempt = Attempt(node: string, iteration: nat, number: nat, framework: nat, phase: AttemptPhase,
                             output: string, error: string, outcome: string, completed: bool)

  /** The Run's attempts in the order they were recorded, and its log. */
  datatype Book = Book(attempts: seq<Attempt>, log: Log)

  datatype Begun = BeginRefused | Replayed(attempt: Attempt) | Opened(attempt: Attempt)

  const LOST := "activity delivery ended without a durable completion"

  predicate Same(a: Attempt, node: string, iteration: nat) {
    a.node == node && a.iteration == iteration
  }

  /** The largest attempt number of a node iteration, or zero. */
  function LastNumber(attempts: seq<Attempt>, node: string, iteration: nat): nat {
    if attempts == [] then 0 else
      var rest := LastNumber(attempts[..|attempts| - 1], node, iteration);
      var last := attempts[|attempts| - 1];
      if Same(last, node, iteration) && last.number > rest then last.number else rest
  }

  predicate Delivers(a: Attempt, node: string, iteration: nat, framework: nat) {
    Same(a, node, iteration) && a.framework == framework
  }

  /** The position of the highest-numbered attempt of one delivery, or the length when there is none. */
  function Latest(attempts: seq<Attempt>, node: string, iteration: nat, framework: nat): (p: nat)
    ensures p <= |attempts|
    ensures p < |attempts| ==>
              && Delivers(attempts[p], node, iteration, framework)
              && forall i :: 0 <= i < |attempts| && Delivers(attempts[i], node, iteration, framework) ==>
                  attempts[i].number <= attempts[p].number
    ensures p == |attempts| ==> forall i :: 0 <= i < |attempts| ==> !Delivers(attempts[i], node, iteration, framework)
  {
    if attempts == [] then 0 else
      var init, last := attempts[..|attempts| - 1], attempts[|attempts| - 1];
      var before := Latest(init, node, iteration, framework);
      if Delivers(last, node, iteration, framework)
          && (before == |init| || last.number >= init[before].number) then |init|
      else if before == |init| then |attempts| else before
  }

  /** Closes an attempt whose delivery ended without a completion. */
  function Abandoned(book: Book, p: nat): Book
    requires p < |book.attempts|
  {
    var a := book.attempts[p];
    Book(book.attempts[p := a.(phase := Errored, error := LOST, outcome := "delivery-lost", completed := true)],
         Appended(book.log, a.node, a.number, "node.failed", Running))
  }

  function Begin(book: Book, node: string, iteration: nat, framework: nat): (Book, Begun) {
    var p := Latest(book.attempts, node, iteration, framework);
    if framework == 0 then (book, BeginRefused)
    else if p < |book.attempts| && book.attempts[p].completed then (book, Replayed(book.attempts[p]))
    else if Terminal(book.log.phase) then (book, BeginRefused)
    else
      var closed := if p < |book.attempts| then Abandoned(book, p) else book;
      var number := LastNumber(book.attempts, node, iteration) + 1;
      var a := Attempt(node, iteration, number, framework, Started, "", "", "", false);
      (Book(closed.attempts + [a], Appended(closed.log, node, number, "node.started", Running)), Opened(a))
  }

  /** The position of one physical attempt, or the length when there is none. */
  function Locate(attempts: seq<Attempt>, node: string, iteration: nat, number: nat): (p: nat)
    ensures p <= |attempts|
    ensures p < |attempts| ==> Same(attempts[p], node, iteration) && attempts[p].number == number
    ensures p == |attempts| ==>
              forall i :: 0 <= i < |attempts| ==> !(Same(attempts[i], node, iteration) && attempts[i].number == number)
  {
    if attempts == [] then 0
    else if Same(attempts[0], node, iteration) && attempts[0].number == number then 0
    else 1 + Locate(attempts[1..], node, iteration, number)
  }

  /** The first terminal outcome wins; later ones are answered with it. */
  function Complete(book: Book, node: string, iteration: nat, number: nat, phase: AttemptPhase, output: string,
                    error: string, outcome: string): Book {
    var p := Locate(book.attempts, node, iteration, number);
    if phase == Started || p == |book.attempts| || book.attempts[p].completed then book else
      var a := book.attempts[p];
      Book(book.attempts[p := a.(phase := phase, output := output, error := error, completed := true,
                                 outcome := if a.outcome == "" then outcome else a.outcome)],
           Appended(book.log, node, number, if phase == Done then "node.completed" else "node.failed", Running))
  }

  /** A plugin names the outcome of its attempt, if it has none yet. */
  function Name(book: Book, node: string, iteration: nat, number: nat, outcome: string): Book {
    var p := Locate(book.attempts, node, iteration, number);
    if outcome == "" || p == |book.attempts| || book.attempts[p].outcome != "" then book
    else book.(attempts := book.attempts[p := book.attempts[p].(outcome := outcome)])
  }

  // ---------------------------------------------------------------- what every operation keeps

  ghost function Earlier(attempts: seq<Attempt>, node: string, iteration: nat): nat {
    if attempts == [] then 0 else
      Earlier(attempts[..|attempts| - 1], node, iteration) + if Same(attempts[|attempts| - 1], node, iteration) then 1
          else 0
  }

  /** The attempts of each node iteration are numbered 1..n in the order they were recorded. */
  ghost predicate Numbered(attempts: seq<Attempt>) {
    forall i :: 0 <= i < |attempts| ==>
             attempts[i].number == 1 + Earlier(attempts[..i], attempts[i].node, attempts[i].iteration)
  }

  /** Of one delivery, only the newest attempt may be open. */
  ghost predicate OneOpen(attempts: seq<Attempt>) {
    forall i, j ::
      && 0 <= i < j < |attempts|
      && Delivers(attempts[j], attempts[i].node, attempts[i].iteration, attempts[i].framework) ==>
        attempts[i].completed
  }

  ghost predicate InPhase(a: Attempt) {
    a.completed <==> a.phase != Started
  }

  /** A cancellation is on record exactly when the phase says so. */
  ghost predicate Ledgered(book: Book) {
    && Numbered(book.attempts) && OneOpen(book.attempts) && Projected(book.log, book.log.phase == Cancelled)
    && forall i :: 0 <= i < |book.attempts| ==> InPhase(book.attempts[i])
  }

  lemma {:induction false} NumbersCount(attempts: seq<Attempt>, node: string, iteration: nat)
    requires Numbered(attempts)
    ensures LastNumber(attempts, node, iteration) == Earlier(attempts, node, iteration)
  {
    if attempts != [] {
      var init := attempts[..|attempts| - 1];
      assert forall i :: 0 <= i < |init| ==> init[..i] == attempts[..i];
      NumbersCount(init, node, iteration);
    }
  }

  lemma {:induction false} EarlierGrows(attempts: seq<Attempt>, i: nat, j: nat)
    requires i < j <= |attempts|
    ensures Earlier(attempts[..i], attempts[i].node, attempts[i].iteration) < Earlier(attempts[..j], attempts[i].node,
              attempts[i].iteration)
    decreases j
  {
    assert attempts[..j][..j - 1] == attempts[..j - 1];
    if i < j - 1 {
      EarlierGrows(attempts, i, j - 1);
    }
  }

  /** Of the same node iteration, a later record has a higher number. */
  lemma NumbersIncrease(attempts: seq<Attempt>, i: nat, j: nat)
    requires Numbered(attempts) && i < j < |attempts| && Same(attempts[j], attempts[i].node, attempts[i].iteration)
    ensures attempts[i].number < attempts[j].number
  {
    EarlierGrows(attempts, i, j);
  }

  /** Rewriting an attempt's outcome does not touch its identity. */
  predicate SameIdentity(a: Attempt, b: Attempt) {
    a.node == b.node && a.iteration == b.iteration && a.number == b.number && a.framework == b.framework
  }

  lemma {:induction false} EarlierSame(one: seq<Attempt>, two: seq<Attempt>, node: string, iteration: nat)
    requires |one| == |two| && forall i :: 0 <= i < |one| ==> SameIdentity(one[i], two[i])
    ensures Earlier(one, node, iteration) == Earlier(two, node, iteration)
  {
    if one != [] {
      EarlierSame(one[..|one| - 1], two[..|two| - 1], node, iteration);
    }
  }

  lemma RewriteNumbered(one: seq<Attempt>, two: seq<Attempt>)
    requires Numbered(one) && |one| == |two| && forall i :: 0 <= i < |one| ==> SameIdentity(one[i], two[i])
    ensures Numbered(two)
  {
    forall i | 0 <= i < |two| ensures two[i].number == 1 + Earlier(two[..i], two[i].node, two[i].iteration) {
      assert SameIdentity(one[i], two[i]);
      EarlierSame(one[..i], two[..i], two[i].node, two[i].iteration);
    }
  }

  lemma AppendNumbered(attempts: seq<Attempt>, a: Attempt)
    requires Numbered(attempts) && a.number == LastNumber(attempts, a.node, a.iteration) + 1
    ensures Numbered(attempts + [a])
  {
    var longer := attempts + [a];
    NumbersCount(attempts, a.node, a.iteration);
    forall i | 0 <= i < |longer| ensures longer[i].number ==
             1 + Earlier(longer[..i], longer[i].node, longer[i].iteration) {
      assert longer[..i] == attempts[..i];
      assert attempts[..|attempts|] == attempts;
    }
  }

  lemma LastNumberSame(one: seq<Attempt>, two: seq<Attempt>, node: string, iteration: nat)
    requires Numbered(one) && |one| == |two| && forall i :: 0 <= i < |one| ==> SameIdentity(one[i], two[i])
    ensures LastNumber(one, node, iteration) == LastNumber(two, node, iteration)
  {
    RewriteNumbered(one, two);
    NumbersCount(one, node, iteration);
    NumbersCount(two, node, iteration);
    EarlierSame(one, two, node, iteration);
  }

  /** The latest attempt of a delivery is its only candidate for being open. */
  lemma LatestOpen(attempts: seq<Attempt>, node: string, iteration: nat, framework: nat, i: nat)
    requires Numbered(attempts) && OneOpen(attempts) && i < |attempts|
             && Delivers(attempts[i], node, iteration, framework)
    ensures i != Latest(attempts, node, iteration, framework) ==> attempts[i].completed
  {
    var p := Latest(attempts, node, iteration, framework);
    if p < i {
      NumbersIncrease(attempts, p, i);
    }
  }

  lemma BeginKeeps(book: Book, node: string, iteration: nat, framework: nat)
    requires Ledgered(book)
    ensures Ledgered(Begin(book, node, iteration, framework).0)
  {
    hide Projected, Numbered, Appended, Terminal, LastNumber;
    var p := Latest(book.attempts, node, iteration, framework);
    var (next, result) := Begin(book, node, iteration, framework);
    if result.Opened? {
      var closed := if p < |book.attempts| then Abandoned(book, p) else book;
      if p < |book.attempts| {
        var a := book.attempts[p];
        AppendedProjected(book.log, book.log.phase == Cancelled, a.node, a.number, "node.failed", Running);
        RewriteNumbered(book.attempts, closed.attempts);
        LastNumberSame(book.attempts, closed.attempts, node, iteration);
      }
      AppendedProjected(closed.log, closed.log.phase == Cancelled, node, result.attempt.number, "node.started",
          Running);
      AppendNumbered(closed.attempts, result.attempt);
      forall i | 0 <= i < |closed.attempts| && Delivers(closed.attempts[i], node, iteration, framework)
        ensures closed.attempts[i].completed {
        LatestOpen(book.attempts, node, iteration, framework, i);
      }
    }
  }

  lemma CompleteKeeps(book: Book, node: string, iteration: nat, number: nat, phase: AttemptPhase, output: string,
                      error: string, outcome: string)
    requires Ledgered(book)
    ensures Ledgered(Complete(book, node, iteration, number, phase, output, error, outcome))
  {
    hide Projected, Numbered, Appended, Terminal, LastNumber;
    var p := Locate(book.attempts, node, iteration, number);
    var next := Complete(book, node, iteration, number, phase, output, error, outcome);
    if next != book {
      AppendedProjected(book.log, book.log.phase == Cancelled, node, number,
          if phase == Done then "node.completed" else "node.failed", Running);
      RewriteNumbered(book.attempts, next.attempts);
    }
  }

  /** An outcome that is still empty may be named later; nothing else changes. */
  predicate SameButOutcome(a: Attempt, b: Attempt) {
    b == a || (a.outcome == "" && b == a.(outcome := b.outcome))
  }

  /**
   * A completed attempt is never rewritten, but for an outcome that was left empty, no attempt is ever dropped or
   * renumbered, and an ended Run stays ended.
   */
  ghost predicate Preserved(before: Book, after: Book) {
    && |before.attempts| <= |after.attempts|
    && (Terminal(before.log.phase) ==> after.log.phase == before.log.phase)
    && forall i :: 0 <= i < |before.attempts| ==>
         SameIdentity(before.attempts[i], after.attempts[i])
             && (before.attempts[i].completed ==> SameButOutcome(before.attempts[i], after.attempts[i]))
  }

  // ---------------------------------------------------------------- runs of deliveries

  /**
   * Deliveries begin and complete attempts, plugins name outcomes; the Run moves on, gets evidence, or is cancelled by
   * an operator.
   */
  datatype Operation =
    | Beginning(node: string, iteration: nat, framework: nat)
    | Completing(node: string, iteration: nat, number: nat, result: AttemptPhase, output: string, error: string,
        outcome: string)
    | Naming(node: string, iteration: nat, number: nat, outcome: string)
    | Moving(node: string, attempt: nat, eventType: string, phase: Phase)
    | Noting(node: string, attempt: nat, eventType: string)
    | Cancelling(reason: string)

  /** Only an operator cancels. */
  predicate Proper(op: Operation) {
    op.Moving? ==> op.phase != Cancelled
  }

  function Perform(book: Book, op: Operation): Book {
    match op
    case Beginning(node, iteration, framework) => Begin(book, node, iteration, framework).0
    case Completing(node, iteration, number, phase, output, error, outcome) =>
      Complete(book, node, iteration, number, phase, output, error, outcome)
    case Naming(node, iteration, number, outcome) => Name(book, node, iteration, number, outcome)
    case Moving(node, attempt, eventType, phase) => book.(log := Appended(book.log, node, attempt, eventType, phase))
    case Noting(node, attempt, eventType) => book.(log := WithEvidence(book.log, node, attempt, eventType))
    case Cancelling(reason) => if Terminal(book.log.phase) then book
        else book.(log := WithCancellation(book.log, reason))
  }

  ghost function PerformAll(book: Book, ops: seq<Operation>): Book {
    if ops == [] then book else Perform(PerformAll(book, ops[..|ops| - 1]), ops[|ops| - 1])
  }

  ghost predicate AllProper(ops: seq<Operation>) {
    forall i :: 0 <= i < |ops| ==> Proper(ops[i])
  }

  lemma NameKeeps(book: Book, node: string, iteration: nat, number: nat, outcome: string)
    requires Ledgered(book)
    ensures Ledgered(Name(book, node, iteration, number, outcome))
    ensures Preserved(book, Name(book, node, iteration, number, outcome))
  {
    hide Projected, Numbered, Terminal;
    var next := Name(book, node, iteration, number, outcome);
    RewriteNumbered(book.attempts, next.attempts);
  }

  lemma LogKeeps(book: Book, op: Operation)
    requires Ledgered(book) && Proper(op) && !op.Beginning? && !op.Completing? && !op.Naming?
    ensures Ledgered(Perform(book, op)) && Preserved(book, Perform(book, op))
  {
    hide Numbered, Projected, Appended, WithEvidence, OneOpen;
    match op
    case Moving(node, attempt, eventType, phase) =>
      AppendedProjected(book.log, book.log.phase == Cancelled, node, attempt, eventType, phase);
      AppendedPhase(book.log, node, attempt, eventType, phase);
    case Noting(node, attempt, eventType) =>
      EvidenceProjected(book.log, book.log.phase == Cancelled, node, attempt, eventType);
    case Cancelling(reason) =>
      if !Terminal(book.log.phase) {
        CancellationProjected(book.log, reason);
      }
  }

  lemma AppendedPhase(log: Log, node: string, attempt: nat, eventType: string, phase: Phase)
    ensures Appended(log, node, attempt, eventType, phase).phase == if Terminal(log.phase) then log.phase else phase
  {
  }

  /** Beginning or completing an attempt never ends the Run or revives it. */
  lemma DeliveryPhase(book: Book, op: Operation)
    requires op.Beginning? || op.Completing?
    ensures Terminal(book.log.phase) ==> Perform(book, op).log == book.log
    ensures !Terminal(book.log.phase) ==> !Terminal(Perform(book, op).log.phase)
  {
    hide LastNumber;
  }

  lemma PerformKeeps(book: Book, op: Operation)
    requires Ledgered(book) && Proper(op)
    ensures Ledgered(Perform(book, op)) && Preserved(book, Perform(book, op))
  {
    hide Ledgered, Appended, LastNumber, Terminal;
    match op
    case Beginning(node, iteration, framework) =>
      DeliveryPhase(book, op);
      BeginKeeps(book, node, iteration, framework);
    case Completing(node, iteration, number, phase, output, error, outcome) =>
      DeliveryPhase(book, op);
      CompleteKeeps(book, node, iteration, number, phase, output, error, outcome);
    case Naming(node, iteration, number, outcome) => NameKeeps(book, node, iteration, number, outcome);
    case _ => LogKeeps(book, op);
  }

  /**
   * However deliveries overlap, and whenever the Run ends or is cancelled meanwhile, attempts stay numbered 1..n per
   * node iteration with at most one open per delivery, the phase stays the replay of the log, and whatever was
   * completed stays as it was.
   */
  lemma {:induction false} LedgerHolds(book: Book, ops: seq<Operation>)
    requires Ledgered(book) && AllProper(ops)
    ensures Ledgered(PerformAll(book, ops)) && Preserved(book, PerformAll(book, ops))
  {
    hide Ledgered, Perform, Terminal;
    if ops != [] {
      LedgerHolds(book, ops[..|ops| - 1]);
      PerformKeeps(PerformAll(book, ops[..|ops| - 1]), ops[|ops| - 1]);
    }
  }

  /** A Run's ledger starts empty, so it is exact at every moment. */
  lemma LedgerIsExact(log: Log, cancelled: bool, ops: seq<Operation>)
    requires Projected(log, cancelled) && AllProper(ops)
    ensures Ledgered(PerformAll(Book([], log), ops))
  {
    hide Perform, PerformAll, Replay, Endings, Stops;
    LedgerHolds(Book([], log), ops);
  }

  /** Nothing but evidence. */
  ghost predicate OnlyEvidence(events: seq<Event>, n: nat) {
    forall i :: n <= i < |events| ==> events[i].what.Evidence?
  }

  /**
   * Once the Run has ended no attempt is opened any more and nothing but evidence is logged. Attempts still open may be
   * closed late, each with the first outcome reported for it.
   */
  lemma {:induction false} EndedRun(book: Book, ops: seq<Operation>)
    requires Ledgered(book) && Terminal(book.log.phase) && AllProper(ops)
    ensures var later := PerformAll(book, ops);
            && later.log.phase == book.log.phase && book.log.events <= later.log.events
            && OnlyEvidence(later.log.events, |book.log.events|) && |later.attempts| == |book.attempts|
  {
    hide Perform, Projected, Numbered, OneOpen;
    if ops != [] {
      var before := PerformAll(book, ops[..|ops| - 1]);
      EndedRun(book, ops[..|ops| - 1]);
      EndedStep(before, ops[|ops| - 1]);
    }
  }

  lemma EndedStep(book: Book, op: Operation)
    requires Terminal(book.log.phase)
    ensures var later := Perform(book, op);
            && later.log.phase == book.log.phase && book.log.events <= later.log.events
            && OnlyEvidence(later.log.events, |book.log.events|) && |later.attempts| == |book.attempts|
  {
    hide LastNumber;
  }

  /** A late completion of an attempt that is still open closes it and leaves the ended Run's log alone. */
  lemma LateCompletion(book: Book, p: nat, phase: AttemptPhase, output: string, error: string, outcome: string)
    requires Ledgered(book) && p < |book.attempts| && !book.attempts[p].completed && phase != Started
             && Terminal(book.log.phase)
    ensures var a := book.attempts[p];
            var later := Complete(book, a.node, a.iteration, a.number, phase, output, error, outcome);
            && later.log == book.log
            && later.attempts == book.attempts[p :=
                  a.(phase := phase, output := output, error := error, completed := true,
                                                       outcome := if a.outcome == "" then outcome else a.outcome)]
  {
    hide Projected, OneOpen, Numbered;
    LocatesOwn(book, p);
  }

  /** Numbers identify attempts, so an attempt is where it will be looked for. */
  lemma LocatesOwn(book: Book, p: nat)
    requires Numbered(book.attempts) && p < |book.attempts|
    ensures var a := book.attempts[p]; Locate(book.attempts, a.node, a.iteration, a.number) == p
  {
    var a := book.attempts[p];
    var q := Locate(book.attempts, a.node, a.iteration, a.number);
    if q < p {
      NumbersIncrease(book.attempts, q, p);
    } else if q > p {
      assert Same(book.attempts[p], a.node, a.iteration);
      if q < |book.attempts| {
        NumbersIncrease(book.attempts, p, q);
      }
    }
  }

  /**
   * A delivery that was ever completed is answered with the same record ever after, even when the Run has ended. Only
   * an outcome that the completion left empty may be named later.
   */
  lemma {:induction false} CompletedReplays(book: Book, ops: seq<Operation>, node: string, iteration: nat,
                                            framework: nat)
    requires Ledgered(book) && framework > 0 && AllProper(ops)
    requires Begin(book, node, iteration, framework).1.Replayed?
    ensures var (same, begun) := Begin(PerformAll(book, ops), node, iteration, framework);
            && same == PerformAll(book, ops) && begun.Replayed?
            && SameButOutcome(Begin(book, node, iteration, framework).1.attempt, begun.attempt)
  {
    hide Perform, Begin, Ledgered;
    if ops == [] {
      ReplayChangesNothing(book, node, iteration, framework);
    } else {
      var before := PerformAll(book, ops[..|ops| - 1]);
      LedgerHolds(book, ops[..|ops| - 1]);
      CompletedReplays(book, ops[..|ops| - 1], node, iteration, framework);
      ReplayStays(before, ops[|ops| - 1], node, iteration, framework);
    }
  }

  lemma ReplayChangesNothing(book: Book, node: string, iteration: nat, framework: nat)
    ensures Begin(book, node, iteration, framework).1.Replayed? ==> Begin(book, node, iteration, framework).0 == book
  {
    hide Appended, LastNumber;
  }

  lemma LedgeredNumbered(book: Book)
    requires Ledgered(book)
    ensures Numbered(book.attempts)
  {
  }

  lemma ReplayStays(book: Book, op: Operation, node: string, iteration: nat, framework: nat)
    requires Ledgered(book) && framework > 0 && Proper(op)
    requires Begin(book, node, iteration, framework).1.Replayed?
    ensures var (same, begun) := Begin(Perform(book, op), node, iteration, framework);
            && same == Perform(book, op) && begun.Replayed?
            && SameButOutcome(Begin(book, node, iteration, framework).1.attempt, begun.attempt)
  {
    hide Projected, Appended, LastNumber, Perform, Numbered, OneOpen, Terminal;
    PerformKeeps(book, op);
    var later := Perform(book, op);
    var p, q := Latest(book.attempts, node, iteration, framework), Latest(later.attempts, node, iteration, framework);
    assert SameIdentity(book.attempts[p], later.attempts[p]);
    NoNewAttempt(book, op, node, iteration, framework);
    LedgeredNumbered(later);
    if q != p {
      if q < p {
        NumbersIncrease(later.attempts, q, p);
      } else {
        NumbersIncrease(later.attempts, p, q);
      }
    }
  }

  /** Operations open no attempt for a delivery that has been answered. */
  lemma NoNewAttempt(book: Book, op: Operation, node: string, iteration: nat, framework: nat)
    requires Begin(book, node, iteration, framework).1.Replayed?
    ensures forall i :: |book.attempts| <= i < |Perform(book, op).attempts| ==>
              !Delivers(Perform(book, op).attempts[i], node, iteration, framework)
  {
    hide Appended, LastNumber;
  }
}
