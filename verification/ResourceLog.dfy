/** The resource table and its global revision log. */
module ResourceLog {
  import opened Compiler
  import opened Ordering

  datatype Key = Key(kind: string, namespace: string, name: string)

  /** A stored resource; `spec` stands for its canonical form, so equal specs are equal values. */
  datatype Row = Row(uid: nat, version: nat, generation: nat, spec: string, labels: map<string, string>, status: string)

  datatype EventType = Added | Modified | Deleted

  /** A deletion carries no document. */
  datatype Event = Event(revision: nat, kind: EventType, key: Key, uid: nat, document: Option<Row>)

  datatype Db = Db(table: map<Key, Row>, revision: nat, events: seq<Event>, nextUid: nat)

  const EMPTY := Db(map[], 0, [], 0)

  datatype WriteError = NotFound | Conflict(expected: nat, current: nat) | StaleGeneration(expected: nat, current: nat)

  datatype Outcome = Written(row: Row) | Unchanged(row: Row) | Removed | Failed(error: WriteError)

  // ---------------------------------------------------------------- the writes, as functions

  function Logging(db: Db, kind: EventType, key: Key, uid: nat, document: Option<Row>): Db {
    Db(if document.Some? then db.table[key := document.value] else db.table - {key}, db.revision + 1,
       db.events + [Event(db.revision + 1, kind, key, uid, document)], db.nextUid)
  }

  /** Compare-and-swap apply: the spec and labels are the client's, identity, generation and status the server's. */
  function Apply(db: Db, key: Key, spec: string, labels: map<string, string>, expected: nat): (Db, Outcome) {
    if key in db.table then
      var current := db.table[key];
      if expected != current.version then (db, Failed(Conflict(expected, current.version))) else
      var generation := if spec == current.spec then current.generation else current.generation + 1;
      var row := Row(current.uid, db.revision + 1, generation, spec, labels, current.status);
      (Logging(db, Modified, key, row.uid, Some(row)), Written(row))
    else if expected != 0 then (db, Failed(Conflict(expected, 0)))
    else
      var row := Row(db.nextUid, db.revision + 1, 1, spec, labels, "");
      (Logging(db, Added, key, row.uid, Some(row)).(nextUid := db.nextUid + 1), Written(row))
  }

  /** A status write that changes nothing is not an event. */
  function UpdateStatus(db: Db, key: Key, expectedGeneration: nat, status: string): (Db, Outcome) {
    if key !in db.table then (db, Failed(NotFound)) else
    var current := db.table[key];
    if expectedGeneration != 0 && current.generation != expectedGeneration then
      (db, Failed(StaleGeneration(expectedGeneration, current.generation)))
    else if current.status == status then (db, Unchanged(current))
    else
      var row := current.(version := db.revision + 1, status := status);
      (Logging(db, Modified, key, row.uid, Some(row)), Written(row))
  }

  function Delete(db: Db, key: Key, expected: nat): (Db, Outcome) {
    if key !in db.table then (db, Failed(NotFound))
    else if db.table[key].version != expected then (db, Failed(Conflict(expected, db.table[key].version)))
    else (Logging(db, Deleted, key, db.table[key].uid, None), Removed)
  }

  datatype Write =
    | Applying(key: Key, spec: string, labels: map<string, string>, expected: nat)
    | Updating(key: Key, generation: nat, status: string)
    | Deleting(key: Key, expected: nat)

  function Perform(db: Db, write: Write): Db {
    match write
    case Applying(key, spec, labels, expected) => Apply(db, key, spec, labels, expected).0
    case Updating(key, generation, status) => UpdateStatus(db, key, generation, status).0
    case Deleting(key, expected) => Delete(db, key, expected).0
  }

  ghost function PerformAll(db: Db, writes: seq<Write>): Db {
    if writes == [] then db else Perform(PerformAll(db, writes[..|writes| - 1]), writes[|writes| - 1])
  }

  // ---------------------------------------------------------------- replay

  function Effect(table: map<Key, Row>, event: Event): map<Key, Row> {
    if event.document.Some? then table[event.key := event.document.value] else table - {event.key}
  }

  /** The table the events build from nothing. */
  function Replay(events: seq<Event>): map<Key, Row> {
    if events == [] then map[] else Effect(Replay(events[..|events| - 1]), events[|events| - 1])
  }

  /** What one event may be, given the table before it. */
  ghost predicate Lawful(before: map<Key, Row>, event: Event, revision: nat) {
    && event.revision == revision
    && (event.document.None? <==> event.kind == Deleted)
    && (event.document.Some? ==> event.document.value.version == revision && event.document.value.uid == event.uid)
    && (event.kind == Added <==> event.key !in before)
    && (event.kind == Added ==> event.document.value.generation == 1)
    && (event.kind != Added ==> event.key in before && before[event.key].uid == event.uid)
    && (event.kind == Modified ==>
          event.document.value.generation ==
          before[event.key].generation + if event.document.value.spec == before[event.key].spec then 0 else 1)
  }

  /** A resource that is created has an identity no earlier event mentions. */
  ghost predicate FreshUids(events: seq<Event>) {
    forall i, j :: 0 <= j < i < |events| && events[i].kind == Added ==> events[j].uid != events[i].uid
  }

  /**
   * Revisions are 1, 2, ... with one event each; every event follows the table the earlier ones build; generations
   * rise by one exactly when the spec changes; and the whole log builds the table.
   */
  ghost predicate Logged(db: Db) {
    && db.revision == |db.events|
    && (forall i :: 0 <= i < |db.events| ==>
          Lawful(Replay(db.events[..i]), db.events[i], i + 1) && db.events[i].uid < db.nextUid)
    && FreshUids(db.events)
    && Replay(db.events) == db.table
  }

  lemma LoggingKeeps(db: Db, kind: EventType, key: Key, uid: nat, document: Option<Row>, nextUid: nat)
    requires Logged(db) && nextUid >= db.nextUid && uid < nextUid
    requires Lawful(db.table, Event(db.revision + 1, kind, key, uid, document), db.revision + 1)
    requires kind == Added ==> uid >= db.nextUid
    ensures Logged(Logging(db, kind, key, uid, document).(nextUid := nextUid))
  {
    hide Lawful, Replay, FreshUids;
    var event := Event(db.revision + 1, kind, key, uid, document);
    AppendFresh(db.events, event, db.nextUid);
    AppendReplay(db.events, event);
    var longer := db.events + [event];
    forall i | 0 <= i < |longer| ensures Lawful(Replay(longer[..i]), longer[i], i + 1) && longer[i].uid < nextUid {
      if i < |db.events| {
        assert longer[..i] == db.events[..i];
      } else {
        assert longer[..i] == db.events;
      }
    }
  }

  lemma AppendFresh(events: seq<Event>, event: Event, nextUid: nat)
    requires FreshUids(events) && (forall i :: 0 <= i < |events| ==> events[i].uid < nextUid)
    requires event.kind == Added ==> event.uid >= nextUid
    ensures FreshUids(events + [event])
  {
  }

  lemma AppendReplay(events: seq<Event>, event: Event)
    ensures Replay(events + [event]) == Effect(Replay(events), event)
  {
    assert (events + [event])[..|events|] == events;
  }

  /** Live resources carry identities already handed out. */
  lemma {:induction false} TableUids(events: seq<Event>, nextUid: nat)
    requires forall i :: 0 <= i < |events| ==>
               events[i].uid < nextUid && (events[i].document.Some? ==> events[i].document.value.uid == events[i].uid)
    ensures forall key :: key in Replay(events) ==> Replay(events)[key].uid < nextUid
  {
    if events != [] {
      TableUids(events[..|events| - 1], nextUid);
    }
  }

  lemma PerformKeeps(db: Db, write: Write)
    requires Logged(db)
    ensures Logged(Perform(db, write)) && db.events <= Perform(db, write).events
    ensures db.nextUid <= Perform(db, write).nextUid
  {
    LawfulUids(db);
    TableUids(db.events, db.nextUid);
    hide Logged;
    match write
    case Applying(key, spec, labels, expected) =>
      var (next, outcome) := Apply(db, key, spec, labels, expected);
      if outcome.Written? {
        LoggingKeeps(db, if key in db.table then Modified else Added, key, outcome.row.uid, Some(outcome.row),
            next.nextUid);
      }
    case Updating(key, generation, status) =>
      var (next, outcome) := UpdateStatus(db, key, generation, status);
      if outcome.Written? {
        LoggingKeeps(db, Modified, key, outcome.row.uid, Some(outcome.row), db.nextUid);
      }
    case Deleting(key, expected) =>
      if Delete(db, key, expected).1 == Removed {
        LoggingKeeps(db, Deleted, key, db.table[key].uid, None, db.nextUid);
      }
  }

  lemma LawfulUids(db: Db)
    requires Logged(db)
    ensures db.table == Replay(db.events)
    ensures forall i :: 0 <= i < |db.events| ==>
              db.events[i].uid < db.nextUid
                  && (db.events[i].document.Some? ==> db.events[i].document.value.uid == db.events[i].uid)
  {
  }

  /** Any sequence of writes, refused ones included, keeps the log exact and only appends to it. */
  lemma {:induction false} WritesKeep(db: Db, writes: seq<Write>)
    requires Logged(db)
    ensures Logged(PerformAll(db, writes)) && db.events <= PerformAll(db, writes).events
  {
    hide Logged, Perform;
    if writes != [] {
      WritesKeep(db, writes[..|writes| - 1]);
      PerformKeeps(PerformAll(db, writes[..|writes| - 1]), writes[|writes| - 1]);
    }
  }

  /** From the empty store, any sequence of writes leaves an exact log. */
  lemma LogIsExact(writes: seq<Write>)
    ensures Logged(PerformAll(EMPTY, writes))
  {
    assert Logged(EMPTY);
    WritesKeep(EMPTY, writes);
  }

  /** Folding the events up to an earlier revision rebuilds the table as it stood then. */
  lemma ReplayRebuilds(db: Db, writes: seq<Write>)
    requires Logged(db)
    ensures var later := PerformAll(db, writes);
            db.revision <= |later.events| && Replay(later.events[..db.revision]) == db.table
  {
    hide Perform, Effect, Lawful, FreshUids;
    WritesKeep(db, writes);
    assert PerformAll(db, writes).events[..db.revision] == db.events;
  }

  /** Two states of one history at the same revision have the same table. */
  lemma RevisionFixesTable(db: Db, writes: seq<Write>)
    requires Logged(db) && PerformAll(db, writes).revision == db.revision
    ensures PerformAll(db, writes).table == db.table
  {
    hide Perform, Effect, Lawful, FreshUids;
    ReplayRebuilds(db, writes);
    WritesKeep(db, writes);
    var later := PerformAll(db, writes);
    assert later.events[..db.revision] == later.events;
  }

  /** A write that is refused, or a status that is already there, leaves no trace; any other is the next revision. */
  lemma OneEventPerWrite(db: Db, write: Write)
    ensures var next := Perform(db, write);
            next == db || (next.revision == db.revision + 1 && |next.events| == |db.events| + 1)
    ensures write.Updating? && write.key in db.table ==>
              write.key in Perform(db, write).table && Perform(db, write).table[write.key].generation ==
                  db.table[write.key].generation
  {
  }
}
