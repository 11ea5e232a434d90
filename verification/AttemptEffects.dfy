/** What each write to the ledger of attempts does, told by the ledger before and after. */
module AttemptEffects {
  import opened Compiler
  import opened RunLog
  import opened Attempts

  /** The last attempt recorded for a delivery. */
  ghost predicate Newest(attempts: seq<Attempt>, node: string, iteration: nat, framework: nat, p: nat) {
    && p < |attempts| && Delivers(attempts[p], node, iteration, framework)
    && forall j :: p < j < |attempts| ==> !Delivers(attempts[j], node, iteration, framework)
  }

  ghost predicate Replayable(attempts: seq<Attempt>, node: string, iteration: nat, framework: nat) {
    exists p :: 0 <= p < |attempts| && Newest(attempts, node, iteration, framework, p) && attempts[p].completed
  }

  /** A live Run gets this event; an ended one stays as it is. */
  ghost predicate Notes(before: Log, after: Log, node: string, number: nat, eventType: string) {
    if Terminal(before.phase) then after == before
    else
      && after.phase == Running
      && after.events == before.events + [Event(|before.events| + 1, node, number, Moved(eventType, Running))]
  }

  lemma AppendedNotes(log: Log, node: string, number: nat, eventType: string)
    requires Projected(log, log.phase == Cancelled)
    ensures Notes(log, Appended(log, node, number, eventType, Running), node, number, eventType)
  {
    SequencesCount(log.events);
  }

  lemma LatestIsNewest(attempts: seq<Attempt>, node: string, iteration: nat, framework: nat)
    requires Numbered(attempts)
    ensures var p := Latest(attempts, node, iteration, framework);
            && (p < |attempts| ==> Newest(attempts, node, iteration, framework, p))
            && (forall q: nat :: Newest(attempts, node, iteration, framework, q) ==> q == p)
  {
    hide Numbered, Latest;
    var p := Latest(attempts, node, iteration, framework);
    if p < |attempts| {
      forall j | p < j < |attempts| ensures !Delivers(attempts[j], node, iteration, framework) {
        if Delivers(attempts[j], node, iteration, framework) {
          NumbersIncrease(attempts, p, j);
        }
      }
    }
  }

  /** The open attempt of the delivery is closed as lost, and a new one is added with the next number. */
  ghost predicate Reopened(before: Book, after: Book, node: string, iteration: nat, framework: nat) {
    var n := |before.attempts|;
    && |after.attempts| == n + 1
    && after.attempts[n] == Attempt(node, iteration, Earlier(before.attempts, node, iteration) + 1, framework,
                                    Started, "", "", "", false)
    && forall i :: 0 <= i < n ==>
         after.attempts[i] ==
           if Newest(before.attempts, node, iteration, framework, i)
           then before.attempts[i].(phase := Errored, error := LOST, outcome := "delivery-lost", completed := true)
           else before.attempts[i]
  }

  /**
   * Beginning a delivery: it is replayed iff its last attempt is completed; otherwise it is refused iff the Run has
   * ended; otherwise an attempt is opened, after the delivery's open one, if there is one, has been closed as lost.
   */
  lemma BeginDoes(book: Book, node: string, iteration: nat, framework: nat)
    requires Ledgered(book)
    ensures var (after, begun) := Begin(book, node, iteration, framework);
            var replays := framework > 0 && Replayable(book.attempts, node, iteration, framework);
            && (begun.Replayed? <==> replays)
            && (begun.BeginRefused? <==> framework == 0 || (!replays && Terminal(book.log.phase)))
            && (!begun.Opened? ==> after == book)
            && (begun.Replayed? ==>
                  exists p :: 0 <= p < |book.attempts| && Newest(book.attempts, node, iteration, framework, p)
                              && begun.attempt == book.attempts[p] && begun.attempt.completed)
            && (begun.Opened? ==>
                  && Reopened(book, after, node, iteration, framework)
                  && begun.attempt == after.attempts[|book.attempts|])
  {
    hide Newest, Numbered, Latest, LastNumber, Appended;
    LatestIsNewest(book.attempts, node, iteration, framework);
    NumbersCount(book.attempts, node, iteration);
    hide Ledgered;
    var p := Latest(book.attempts, node, iteration, framework);
    if p < |book.attempts| && book.attempts[p].completed {
      assert Replayable(book.attempts, node, iteration, framework);
    }
  }

  /** The log tells of the attempt that was lost and of the one that was opened. */
  lemma BeginLogs(book: Book, node: string, iteration: nat, framework: nat)
    requires Ledgered(book) && Begin(book, node, iteration, framework).1.Opened?
    ensures var (after, begun) := Begin(book, node, iteration, framework);
            var p := Latest(book.attempts, node, iteration, framework);
            exists middle ::
              && (if p < |book.attempts| then Notes(book.log, middle, node, book.attempts[p].number, "node.failed")
                  else middle == book.log)
              && !Terminal(middle.phase) && Notes(middle, after.log, node, begun.attempt.number, "node.started")
  {
    hide Latest, LastNumber, Numbered, OneOpen, InPhase;
    var (after, begun) := Begin(book, node, iteration, framework);
    var p := Latest(book.attempts, node, iteration, framework);
    var middle := if p < |book.attempts| then Abandoned(book, p).log else book.log;
    if p < |book.attempts| {
      AppendedNotes(book.log, node, book.attempts[p].number, "node.failed");
      AppendedProjected(book.log, false, node, book.attempts[p].number, "node.failed", Running);
    }
    AppendedNotes(middle, node, begun.attempt.number, "node.started");
  }

  ghost predicate IsAttempt(a: Attempt, node: string, iteration: nat, number: nat) {
    a.node == node && a.iteration == iteration && a.number == number
  }

  /** The attempt with this number gets the closing record iff it is open; nothing else happens. */
  lemma CompleteDoes(book: Book, node: string, iteration: nat, number: nat, phase: AttemptPhase, output: string,
                     error: string, outcome: string)
    requires Ledgered(book)
    ensures var after := Complete(book, node, iteration, number, phase, output, error, outcome);
            var closes := phase != Started && exists i ::
              0 <= i < |book.attempts| && IsAttempt(book.attempts[i], node, iteration, number)
              && !book.attempts[i].completed;
            && |after.attempts| == |book.attempts| && (!closes ==> after == book)
            && (closes ==>
                  Notes(book.log, after.log, node, number, if phase == Done then "node.completed" else "node.failed"))
            && forall i :: 0 <= i < |book.attempts| ==>
                 after.attempts[i] ==
                   if closes && IsAttempt(book.attempts[i], node, iteration, number)
                   then book.attempts[i].(phase := phase, output := output, error := error, completed := true,
                     outcome := if book.attempts[i].outcome == "" then outcome else book.attempts[i].outcome)
                   else book.attempts[i]
  {
    hide Appended, Numbered, OneOpen, InPhase;
    AppendedNotes(book.log, node, number, if phase == Done then "node.completed" else "node.failed");
    OnlyAttempt(book, node, iteration, number);
    hide Ledgered;
  }

  lemma OnlyAttempt(book: Book, node: string, iteration: nat, number: nat)
    requires Ledgered(book)
    ensures forall i :: 0 <= i < |book.attempts| && IsAttempt(book.attempts[i], node, iteration, number) ==>
              i == Locate(book.attempts, node, iteration, number)
  {
    LedgeredNumbered(book);
    hide Ledgered, Numbered, Locate;
    forall i | 0 <= i < |book.attempts| && IsAttempt(book.attempts[i], node, iteration, number)
      ensures i == Locate(book.attempts, node, iteration, number) {
      LocatesOwn(book, i);
    }
  }

  /** The attempt with this number gets the outcome iff it has none; nothing else happens. */
  lemma NameDoes(book: Book, node: string, iteration: nat, number: nat, outcome: string)
    requires Ledgered(book)
    ensures var after := Name(book, node, iteration, number, outcome);
            && after.log == book.log && |after.attempts| == |book.attempts|
            && forall i :: 0 <= i < |book.attempts| ==>
                 after.attempts[i] ==
                   if IsAttempt(book.attempts[i], node, iteration, number) && book.attempts[i].outcome == ""
                   then book.attempts[i].(outcome := outcome) else book.attempts[i]
  {
    OnlyAttempt(book, node, iteration, number);
    hide Ledgered;
  }
}
