/** The event stream of a plugin call: the SDK's sink that produces it and the host's reader that checks it. */
module PluginStream {
  import opened Compiler

  datatype Event = Event(sequence: nat, kind: string, payload: string)

  /** `sent` is what reached the stream; a failed send uses up its sequence. */
  datatype Sink = Sink(sequence: nat, closed: bool, sent: seq<Event>)

  const OPEN := Sink(0, false, [])

  predicate IsSpace(c: char) {
    c == ' ' || c == '\t' || c == '\n' || c == '\r'
  }

  predicate Blank(s: string) {
    forall i :: 0 <= i < |s| ==> IsSpace(s[i])
  }

  predicate HasSuffix(s: string, suffix: string) {
    |suffix| <= |s| && s[|s| - |suffix|..] == suffix
  }

  predicate Terminal(kind: string) {
    HasSuffix(kind, ".completed") || HasSuffix(kind, ".failed")
  }

  /** One send: `payload` is None when it cannot be encoded, `delivered` whether the transport took the event. */
  datatype Send = Send(kind: string, payload: Option<string>, terminal: bool, delivered: bool)

  function Sending(sink: Sink, send: Send): (Sink, bool) {
    if sink.closed || Blank(send.kind) || (!send.terminal && Terminal(send.kind))
        || send.payload.None? then (sink, false)
    else if !send.delivered then (sink.(sequence := sink.sequence + 1), false)
    else
      (Sink(sink.sequence + 1, send.terminal, sink.sent + [Event(sink.sequence + 1, send.kind, send.payload.value)]),
          true)
  }

  function SendingAll(sink: Sink, sends: seq<Send>): Sink
    decreases |sends|
  {
    if sends == [] then sink else SendingAll(Sending(sink, sends[0]).0, sends[1..])
  }

  class EventSink {
    var sequence: nat
    var closed: bool
    var sent: seq<Event>

    constructor ()
      ensures Contents() == OPEN
    {
      sequence, closed, sent := 0, false, [];
    }

    function Contents(): Sink
      reads this
    {
      Sink(sequence, closed, sent)
    }

    method SendEvent(kind: string, payload: Option<string>, terminal: bool, delivered: bool) returns (ok: bool)
      modifies this
      ensures (Contents(), ok) == Sending(old(Contents()), Send(kind, payload, terminal, delivered))
    {
      if closed {
        return false;
      }
      if Blank(kind) {
        return false;
      }
      if !terminal && (HasSuffix(kind, ".completed") || HasSuffix(kind, ".failed")) {
        return false;
      }
      if payload.None? {
        return false;
      }
      sequence := sequence + 1;
      if !delivered {
        return false;
      }
      sent := sent + [Event(sequence, kind, payload.value)];
      if terminal {
        closed := true;
      }
      return true;
    }
  }

  // ---------------------------------------------------------------- the host's reader

  datatype Verdict =
    | Completed(output: string)
    | ReportedFailure(kind: string, payload: string)
    | Malformed(at: nat)
    | AfterTerminal
    | NoTerminal

  /** What the reader makes of the rest of a stream; `terminal` is the terminal event it has seen, if any. */
  function Reading(events: seq<Event>, expected: nat, terminal: Option<Event>): Verdict
    decreases |events|
  {
    if events == [] then
      if terminal.None? then NoTerminal
      else if HasSuffix(terminal.value.kind, ".failed") then
          ReportedFailure(terminal.value.kind, terminal.value.payload)
      else Completed(terminal.value.payload)
    else if terminal.Some? then AfterTerminal
    else if events[0].sequence != expected || Blank(events[0].kind) then Malformed(expected)
    else Reading(events[1..], expected + 1, if Terminal(events[0].kind) then Some(events[0]) else None)
  }

  /** The receive loop over a stream that ends without a transport error. */
  method Consume(events: seq<Event>) returns (verdict: Verdict)
    ensures verdict == Reading(events, 1, None)
  {
    var expected, i := 1, 0;
    var terminal: Option<Event> := None;
    while true
      invariant 0 <= i <= |events|
      invariant Reading(events, 1, None) == Reading(events[i..], expected, terminal)
      decreases |events| - i
    {
      if i == |events| {
        if terminal.None? {
          return NoTerminal;
        }
        if HasSuffix(terminal.value.kind, ".failed") {
          return ReportedFailure(terminal.value.kind, terminal.value.payload);
        }
        return Completed(terminal.value.payload);
      }
      var event := events[i];
      assert events[i..][0] == event && events[i..][1..] == events[i + 1..];
      if terminal.Some? {
        return AfterTerminal;
      }
      if event.sequence != expected || Blank(event.kind) {
        return Malformed(expected);
      }
      expected, i := expected + 1, i + 1;
      if HasSuffix(event.kind, ".failed") || HasSuffix(event.kind, ".completed") {
        terminal := Some(event);
      }
    }
  }

  predicate InOrder(event: Event, expected: nat) {
    event.sequence == expected && !Blank(event.kind)
  }

  /** The first n events are named, run from `expected` without a gap, and none of them is a last word. */
  predicate Plain(events: seq<Event>, n: nat, expected: nat)
    requires n <= |events|
  {
    forall i :: 0 <= i < n ==> InOrder(events[i], expected + i) && !Terminal(events[i].kind)
  }

  /** Event k is the first last word, and everything up to it is in order. */
  predicate LastWordAt(events: seq<Event>, k: nat, expected: nat) {
    k < |events| && Plain(events, k, expected) && InOrder(events[k], expected + k) && Terminal(events[k].kind)
  }

  /** Event k is the first that is out of order, with no last word before it. */
  predicate WrongAt(events: seq<Event>, k: nat, expected: nat) {
    k < |events| && Plain(events, k, expected) && !InOrder(events[k], expected + k)
  }

  /**
   * What the reader answers, case by case: a payload exactly for a gapless stream that ends with its only last word,
   * and for any other stream what is wrong with it first.
   */
  lemma {:induction false} ReadsExactly(events: seq<Event>, expected: nat)
    ensures var verdict, n := Reading(events, expected, None), |events|;
            && (verdict.Completed? || verdict.ReportedFailure? <==> n > 0 && LastWordAt(events, n - 1, expected))
            && (verdict.Completed? ==>
                verdict.output == events[n - 1].payload && !HasSuffix(events[n - 1].kind, ".failed"))
            && (verdict.ReportedFailure? ==>
                verdict == ReportedFailure(events[n - 1].kind, events[n - 1].payload)
                && HasSuffix(events[n - 1].kind, ".failed"))
            && (verdict.NoTerminal? <==> Plain(events, n, expected))
            && (verdict.Malformed? ==> verdict.at >= expected && WrongAt(events, verdict.at - expected, expected))
            && (verdict.AfterTerminal? ==> exists k :: 0 <= k < n - 1 && LastWordAt(events, k, expected))
    decreases |events|
  {
    hide Blank, HasSuffix, Reading, InOrder, Terminal;
    if events == [] {
      NothingRead(expected);
    } else if InOrder(events[0], expected) && !Terminal(events[0].kind) {
      ReadsExactly(events[1..], expected + 1);
      ReadsNext(events, expected);
      forall k {:trigger Plain(events[1..], k, expected + 1)} | 0 <= k < |events|
        ensures Plain(events[1..], k, expected + 1) <==> Plain(events, k + 1, expected)
      {
        PlainNext(events, k, expected);
      }
      assert Plain(events[1..], |events| - 1, expected + 1) <==> Plain(events, |events|, expected);
      if Reading(events, expected, None).AfterTerminal? {
        var k :| 0 <= k < |events| - 2 && LastWordAt(events[1..], k, expected + 1);
        assert LastWordAt(events, k + 1, expected);
      }
    } else {
      assert Plain(events, 0, expected);
      assert |events| > 1 ==> !Plain(events, 1, expected);
      ReadsFirst(events, expected);
      if Reading(events, expected, None).AfterTerminal? {
        assert LastWordAt(events, 0, expected);
      }
    }
  }

  lemma NothingRead(expected: nat)
    ensures Reading([], expected, None) == NoTerminal
  {
  }

  /** Behind a plain first event the rest is read as a stream of its own. */
  lemma ReadsNext(events: seq<Event>, expected: nat)
    requires events != [] && InOrder(events[0], expected) && !Terminal(events[0].kind)
    ensures Reading(events, expected, None) == Reading(events[1..], expected + 1, None)
  {
    hide Blank, HasSuffix, Terminal;
  }

  /** A first event that is out of order, or a last word, decides. */
  lemma ReadsFirst(events: seq<Event>, expected: nat)
    requires events != [] && (InOrder(events[0], expected) ==> Terminal(events[0].kind))
    ensures Reading(events, expected, None) ==
            if !InOrder(events[0], expected) then Malformed(expected)
            else if |events| > 1 then AfterTerminal
            else if HasSuffix(events[0].kind, ".failed") then ReportedFailure(events[0].kind, events[0].payload)
            else Completed(events[0].payload)
  {
    hide Blank, HasSuffix, Terminal;
    assert |events| > 1 <==> events[1..] != [];
    assert events[1..] != [] ==> Reading(events[1..], expected + 1, Some(events[0])) == AfterTerminal;
  }

  lemma PlainNext(events: seq<Event>, k: nat, expected: nat)
    requires k < |events| && InOrder(events[0], expected) && !Terminal(events[0].kind)
    ensures Plain(events[1..], k, expected + 1) <==> Plain(events, k + 1, expected)
  {
    hide InOrder, Terminal;
    if Plain(events, k + 1, expected) {
      forall i | 0 <= i < k ensures InOrder(events[1..][i], expected + 1 + i) && !Terminal(events[1..][i].kind) {
        assert events[1..][i] == events[i + 1];
      }
    }
    if Plain(events[1..], k, expected + 1) {
      forall i | 0 <= i < k + 1 ensures InOrder(events[i], expected + i) && !Terminal(events[i].kind) {
        if i > 0 {
          assert events[1..][i - 1] == events[i];
        }
      }
    }
  }

  // ---------------------------------------------------------------- producer and reader agree

  /** A send is fit for the stream: named, of an ordinary kind unless it is the last word, and encodable. */
  predicate Fit(send: Send) {
    !Blank(send.kind) && (send.terminal || !Terminal(send.kind)) && send.payload.Some?
  }

  function Fitting(sends: seq<Send>): seq<Send> {
    if sends == [] then [] else (if Fit(sends[0]) then [sends[0]] else []) + Fitting(sends[1..])
  }

  /** Up to the last word that was delivered, and with it. */
  function ThroughLastWord(sends: seq<Send>): seq<Send> {
    if sends == [] then []
    else [sends[0]] + if sends[0].terminal && sends[0].delivered then [] else ThroughLastWord(sends[1..])
  }

  /** The delivered ones of these sends, each under its number among all of them. */
  function Numbered(sends: seq<Send>, from: nat): seq<Event> {
    if sends == [] then []
    else
      (if sends[0].delivered && sends[0].payload.Some? then
          [Event(from + 1, sends[0].kind, sends[0].payload.value)] else [])
      + Numbered(sends[1..], from + 1)
  }

  predicate HasLastWord(sends: seq<Send>) {
    exists k :: 0 <= k < |sends| && sends[k].terminal && sends[k].delivered
  }

  /**
   * Whatever is sent, in whatever order: the stream gets exactly the fit sends up to the last word that are
   * delivered, numbered over the lost ones too, and the sink is closed exactly when the last word got through.
   */
  lemma {:induction false} StreamExactly(sink: Sink, sends: seq<Send>)
    requires !sink.closed
    ensures var after, taken := SendingAll(sink, sends), ThroughLastWord(Fitting(sends));
            && after.sent == sink.sent + Numbered(taken, sink.sequence)
            && after.sequence == sink.sequence + |taken|
            && (after.closed <==> HasLastWord(taken))
    decreases |sends|
  {
    hide Fit, Sending;
    if sends != [] {
      var next := Sending(sink, sends[0]).0;
      var fitting, rest := Fitting(sends), Fitting(sends[1..]);
      OneSend(sink, sends[0]);
      if !Fit(sends[0]) {
        assert fitting == rest;
        StreamExactly(next, sends[1..]);
      } else {
        assert fitting[0] == sends[0] && fitting[1..] == rest;
        if next.closed {
          ClosedStays(next, sends[1..]);
          assert ThroughLastWord(fitting) == [sends[0]];
        } else {
          StreamExactly(next, sends[1..]);
          FirstTaken(sends[0], ThroughLastWord(rest), sink.sequence);
        }
      }
    }
  }

  lemma OneSend(sink: Sink, send: Send)
    requires !sink.closed
    ensures var next := Sending(sink, send).0;
            if !Fit(send) then next == sink
            else next == Sink(sink.sequence + 1, send.terminal && send.delivered,
                              sink.sent + Numbered([send], sink.sequence))
  {
    hide Blank, HasSuffix, Terminal;
    assert [send][1..] == [];
  }

  lemma FirstTaken(first: Send, rest: seq<Send>, from: nat)
    ensures Numbered([first] + rest, from) == Numbered([first], from) + Numbered(rest, from + 1)
    ensures !(first.terminal && first.delivered) ==> HasLastWord([first] + rest) == HasLastWord(rest)
  {
    var all := [first] + rest;
    assert all[1..] == rest && [first][1..] == [];
    if HasLastWord(rest) {
      var k :| 0 <= k < |rest| && rest[k].terminal && rest[k].delivered;
      assert all[k + 1] == rest[k];
    }
  }

  /** Before the terminal event: only ordinary events, in increasing sequence; a lost send shows as a gap. */
  ghost predicate Producing(sink: Sink) {
    && !sink.closed && |sink.sent| <= sink.sequence
    && (forall i :: 0 <= i < |sink.sent| ==> !Blank(sink.sent[i].kind) && !Terminal(sink.sent[i].kind))
    && (forall i :: 0 <= i < |sink.sent| ==> i + 1 <= sink.sent[i].sequence <= sink.sequence)
    && (forall i, j :: 0 <= i < j < |sink.sent| ==> sink.sent[i].sequence < sink.sent[j].sequence)
  }

  /** No send was lost. */
  ghost predicate Whole(sink: Sink) {
    |sink.sent| == sink.sequence
  }

  lemma {:induction false} EmitsProduce(sink: Sink, sends: seq<Send>)
    requires Producing(sink) && forall i :: 0 <= i < |sends| ==> !sends[i].terminal
    ensures var after := SendingAll(sink, sends);
            Producing(after) && |after.sent| - |sink.sent| <= after.sequence - sink.sequence
    decreases |sends|
  {
    hide Blank, HasSuffix;
    if sends != [] {
      EmitsProduce(Sending(sink, sends[0]).0, sends[1..]);
    }
  }

  /** With every send delivered nothing is lost. */
  lemma {:induction false} DeliveredWhole(sink: Sink, sends: seq<Send>)
    requires Whole(sink) && forall i :: 0 <= i < |sends| ==> sends[i].delivered
    ensures Whole(SendingAll(sink, sends))
    decreases |sends|
  {
    if sends != [] {
      DeliveredWhole(Sending(sink, sends[0]).0, sends[1..]);
    }
  }

  /** Once the sink is closed nothing more is sent. */
  lemma {:induction false} ClosedStays(sink: Sink, sends: seq<Send>)
    requires sink.closed
    ensures SendingAll(sink, sends) == sink
    decreases |sends|
  {
    if sends != [] {
      ClosedStays(sink, sends[1..]);
    }
  }

  /** In a producing sink, sequences run from 1 without gap exactly when nothing was lost. */
  lemma GapOrWhole(sink: Sink, next: nat)
    requires Producing(sink) && next == sink.sequence + 1
    ensures Whole(sink) <==> |sink.sent| + 1 == next
    ensures Whole(sink) ==> forall i :: 0 <= i < |sink.sent| ==> sink.sent[i].sequence == i + 1
  {
    if Whole(sink) {
      forall i | 0 <= i < |sink.sent| ensures sink.sent[i].sequence == i + 1 {
        TailBound(sink, i);
      }
    }
  }

  lemma {:induction false} TailBound(sink: Sink, i: nat)
    requires Producing(sink) && i < |sink.sent|
    ensures sink.sent[i].sequence + (|sink.sent| - 1 - i) <= sink.sequence
    decreases |sink.sent| - i
  {
    if i + 1 < |sink.sent| {
      TailBound(sink, i + 1);
    }
  }

  /** Reading ordinary events and then one more. */
  lemma {:induction false} ReadingThrough(events: seq<Event>, expected: nat, last: Event)
    requires forall i :: 0 <= i < |events| ==> !Blank(events[i].kind) && !Terminal(events[i].kind)
    requires forall i, j :: 0 <= i < j < |events| ==> events[i].sequence < events[j].sequence
    requires (forall i :: 0 <= i < |events| ==> expected + i <= events[i].sequence < last.sequence)
             && last.sequence >= expected + |events|
    requires !Blank(last.kind) && Terminal(last.kind)
    ensures Reading(events + [last], expected, None) ==
            if last.sequence == expected + |events| then
              (if HasSuffix(last.kind, ".failed") then ReportedFailure(last.kind, last.payload)
                  else Completed(last.payload))
            else Malformed(FirstGap(events + [last], expected))
    decreases |events|
  {
    hide Blank, HasSuffix;
    var all := events + [last];
    if events == [] {
      assert all[1..] == [];
      assert Reading([], expected + 1, Some(last)) ==
             if HasSuffix(last.kind, ".failed") then ReportedFailure(last.kind, last.payload)
                 else Completed(last.payload);
    } else {
      assert all[0] == events[0] && all[1..] == events[1..] + [last];
      if events[0].sequence == expected {
        ReadingThrough(events[1..], expected + 1, last);
      } else {
        GapAhead(events, expected, last);
      }
    }
  }

  /** The first position whose event does not carry the expected sequence. */
  function FirstGap(events: seq<Event>, expected: nat): nat
    decreases |events|
  {
    if events == [] || events[0].sequence != expected then expected else FirstGap(events[1..], expected + 1)
  }

  lemma {:induction false} GapAhead(events: seq<Event>, expected: nat, last: Event)
    requires events != [] && events[0].sequence > expected
    requires forall i, j :: 0 <= i < j < |events| ==> events[i].sequence < events[j].sequence
    requires forall i :: 0 <= i < |events| ==> events[i].sequence < last.sequence
    ensures last.sequence > expected + |events|
    decreases |events|
  {
    if |events| > 1 {
      GapAhead(events[1..], expected + 1, last);
    }
  }

  /**
   * Whatever the handler emits, accepted or refused, before it finishes and after: the host accepts the stream
   * exactly when no send before the last was lost, and then returns the finish payload exactly for a completion.
   * After a lost send it stops at the first missing sequence.
   */
  lemma ProducerAndReaderAgree(before: seq<Send>, kind: string, payload: string, after: seq<Send>)
    requires forall i :: 0 <= i < |before| ==> !before[i].terminal
    requires kind == "task.completed" || kind == "task.failed"
    ensures var emitted := SendingAll(OPEN, before);
            var final := SendingAll(Sending(emitted, Send(kind, Some(payload), true, true)).0, after);
            && final.sent == emitted.sent + [Event(emitted.sequence + 1, kind, payload)] && final.closed
            && Reading(final.sent, 1, None) ==
               (if !Whole(emitted) then Malformed(FirstGap(final.sent, 1))
                else if kind == "task.completed" then Completed(payload)
                else ReportedFailure(kind, payload))
            && (Whole(emitted) ==> forall i :: 0 <= i < |final.sent| ==> final.sent[i].sequence == i + 1)
  {
    hide Blank, HasSuffix, SendingAll, Sending, Reading, FirstGap, Terminal;
    var emitted := SendingAll(OPEN, before);
    var last := Event(emitted.sequence + 1, kind, payload);
    KindFacts(kind);
    StartsProducing(before);
    Finishing(emitted, kind, payload);
    ClosedStays(Sending(emitted, Send(kind, Some(payload), true, true)).0, after);
    GapOrWhole(emitted, last.sequence);
    ReadingThrough(emitted.sent, 1, last);
  }

  /** With every send delivered, the host returns the payload the handler finished with, whatever else was emitted. */
  lemma DeliveredCompletes(before: seq<Send>, kind: string, payload: string, after: seq<Send>)
    requires forall i :: 0 <= i < |before| ==> !before[i].terminal && before[i].delivered
    requires kind == "task.completed" || kind == "task.failed"
    ensures var final := SendingAll(Sending(SendingAll(OPEN, before), Send(kind, Some(payload), true, true)).0, after);
            Reading(final.sent, 1, None) == if kind == "task.completed" then Completed(payload)
                else ReportedFailure(kind, payload)
  {
    hide Reading, Sending, FirstGap;
    DeliveredWhole(OPEN, before);
    ProducerAndReaderAgree(before, kind, payload, after);
  }

  lemma StartsProducing(before: seq<Send>)
    requires forall i :: 0 <= i < |before| ==> !before[i].terminal
    ensures Producing(SendingAll(OPEN, before))
  {
    EmitsProduce(OPEN, before);
  }

  lemma Finishing(sink: Sink, kind: string, payload: string)
    requires !sink.closed && !Blank(kind)
    ensures Sending(sink, Send(kind, Some(payload), true, true)) ==
            (Sink(sink.sequence + 1, true, sink.sent + [Event(sink.sequence + 1, kind, payload)]), true)
  {
  }

  lemma KindFacts(kind: string)
    requires kind == "task.completed" || kind == "task.failed"
    ensures !Blank(kind) && Terminal(kind)
    ensures HasSuffix(kind, ".failed") <==> kind == "task.failed"
  {
    assert kind[0] == 't';
    assert "task.completed"[4..] == ".completed" && "task.failed"[4..] == ".failed";
    assert "task.completed"[7..] != ".failed";
  }

  /** A handler that returns without a terminal event reaching the stream is always rejected. */
  lemma UnfinishedRejected(before: seq<Send>)
    requires forall i :: 0 <= i < |before| ==> !before[i].terminal
    ensures var verdict := Reading(SendingAll(OPEN, before).sent, 1, None); verdict == NoTerminal || verdict.Malformed?
  {
    EmitsProduce(OPEN, before);
    NeverTerminal(SendingAll(OPEN, before).sent, 1);
  }

  lemma {:induction false} NeverTerminal(events: seq<Event>, expected: nat)
    requires forall i :: 0 <= i < |events| ==> !Terminal(events[i].kind)
    ensures Reading(events, expected, None) == NoTerminal || Reading(events, expected, None).Malformed?
    decreases |events|
  {
    hide HasSuffix;
    if events != [] {
      NeverTerminal(events[1..], expected + 1);
    }
  }
}
