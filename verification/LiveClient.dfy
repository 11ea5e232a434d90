/** The client's cache of resources, fed by listings and watch streams that break, repeat and lag behind. */
module LiveClient {
  import opened Compiler
  import opened Ordering
  import opened ResourceLog
  import opened ResourceListing

  /** What the client compares: identity, version and generation. Status is projected anew on every send. */
  datatype View = View(uid: nat, version: nat, generation: nat)

  datatype Cache = Cache(resources: map<Key, View>, revision: nat)

  function ViewOf(row: Row): View {
    View(row.uid, row.version, row.generation)
  }

  function Views(table: map<Key, Row>): map<Key, View> {
    map key | key in table :: ViewOf(table[key])
  }

  /** The cache has the same keys as the table, each with its identity, version and generation. */
  ghost predicate Shows(c: Cache, table: map<Key, Row>) {
    && c.resources.Keys == table.Keys
    && forall key :: key in table ==>
         && c.resources[key].uid == table[key].uid
         && c.resources[key].version == table[key].version && c.resources[key].generation == table[key].generation
  }

  /** An event that is not newer than the cache is ignored. */
  function Received(c: Cache, event: Event): Cache {
    if event.revision <= c.revision then c
    else if event.kind == Deleted then Cache(c.resources - {event.key}, event.revision)
    else if event.document.Some? then Cache(c.resources[event.key := ViewOf(event.document.value)], event.revision)
    else c.(revision := event.revision)
  }

  function Listed(keys: seq<Key>, rows: seq<Row>): map<Key, View>
    requires |rows| == |keys|
  {
    if keys == [] then map[] else
      Listed(keys[..|keys| - 1], rows[..|keys| - 1])[keys[|keys| - 1] := ViewOf(rows[|keys| - 1])]
  }

  class LiveModel {
    var resources: map<Key, View>
    var revision: nat

    constructor ()
      ensures Contents() == Cache(map[], 0)
    {
      resources, revision := map[], 0;
    }

    function Contents(): Cache
      reads this
    {
      Cache(resources, revision)
    }

    method ReplaceResources(keys: seq<Key>, rows: seq<Row>, newRevision: nat)
      requires |rows| == |keys|
      modifies this
      ensures Contents() == Cache(Listed(keys, rows), newRevision)
    {
      resources := map[];
      for i := 0 to |keys|
        invariant resources == Listed(keys[..i], rows[..i])
      {
        assert keys[..i + 1][..i] == keys[..i] && rows[..i + 1][..i] == rows[..i];
        resources := resources[keys[i] := ViewOf(rows[i])];
      }
      assert keys[..|keys|] == keys && rows[..|keys|] == rows;
      revision := newRevision;
    }

    method ApplyResourceEvent(event: Event) returns (applied: bool)
      modifies this
      ensures Contents() == Received(old(Contents()), event)
      ensures applied <==> event.revision > old(revision)
    {
      if event.revision <= revision {
        return false;
      }
      if event.kind == Deleted {
        resources := resources - {event.key};
      } else if event.document.Some? {
        resources := resources[event.key := ViewOf(event.document.value)];
      }
      revision := event.revision;
      return true;
    }
  }

  // ---------------------------------------------------------------- the server, the stream and the client together

  /** An open watch: how far the server has sent, and what has not arrived yet. */
  datatype Stream = Stream(cursor: nat, flight: seq<Event>)

  datatype Live = Live(db: Db, cache: Cache, stream: Option<Stream>)

  datatype Step =
    | Writing(write: Write)
    | Connect
    | SendNext
    | SendAgain(revision: nat)
    | Arrive
    | Disconnect
    | Resync(keys: seq<Key>, rows: seq<Row>, snapshot: Db)

  ghost predicate Enabled(l: Live, step: Step) {
    match step
    case Writing(_) => true
    case Connect => l.stream.None?
    case SendNext => l.stream.Some? && l.stream.value.cursor < |l.db.events|
    case SendAgain(revision) => l.stream.Some? && 1 <= revision <= l.stream.value.cursor && revision <= |l.db.events|
    case Arrive => l.stream.Some? && l.stream.value.flight != []
    case Disconnect => l.stream.Some?
    case Resync(keys, rows, snapshot) =>
      && Logged(snapshot) && snapshot.events <= l.db.events
      && IsListing(snapshot.table, Filter("", "", map[]), keys) && |rows| == |keys|
      && forall i :: 0 <= i < |keys| ==> keys[i] in snapshot.table && rows[i] == snapshot.table[keys[i]]
  }

  /** A watch starts from the cache's own revision; a resync drops the stream and takes over a listing. */
  function Next(l: Live, step: Step): Live
    requires Enabled(l, step)
  {
    match step
    case Writing(write) => l.(db := Perform(l.db, write))
    case Connect => l.(stream := Some(Stream(l.cache.revision, [])))
    case SendNext =>
      var s := l.stream.value;
      l.(stream := Some(Stream(s.cursor + 1, s.flight + [l.db.events[s.cursor]])))
    case SendAgain(revision) =>
      var s := l.stream.value;
      l.(stream := Some(s.(flight := s.flight + [l.db.events[revision - 1]])))
    case Arrive =>
      var s := l.stream.value;
      l.(cache := Received(l.cache, s.flight[0]), stream := Some(s.(flight := s.flight[1..])))
    case Disconnect => l.(stream := None)
    case Resync(keys, rows, snapshot) => l.(cache := Cache(Listed(keys, rows), snapshot.revision), stream := None)
  }

  // ---------------------------------------------------------------- coherence

  /** Events in flight are the log's own, and reading them in order leaves no gap before the cursor. */
  ghost predicate Readable(events: seq<Event>, from: nat, flight: seq<Event>, cursor: nat)
    decreases |flight|
  {
    if flight == [] then from == cursor else
      var revision := flight[0].revision;
      && 1 <= revision <= from + 1 && revision <= |events| && flight[0] == events[revision - 1]
      && Readable(events, if revision > from then revision else from, flight[1..], cursor)
  }

  ghost predicate Coherent(l: Live) {
    && Logged(l.db)
    && l.cache.revision <= |l.db.events|
    && l.cache.resources == Views(Replay(l.db.events[..l.cache.revision]))
    && (l.stream.Some? ==>
          l.stream.value.cursor <= |l.db.events|
              && Readable(l.db.events, l.cache.revision, l.stream.value.flight, l.stream.value.cursor))
  }

  lemma {:induction false} ReadableGrows(events: seq<Event>, more: seq<Event>, from: nat, flight: seq<Event>,
                                         cursor: nat)
    requires events <= more && Readable(events, from, flight, cursor)
    ensures Readable(more, from, flight, cursor)
    decreases |flight|
  {
    if flight != [] {
      ReadableGrows(events, more, if flight[0].revision > from then flight[0].revision else from, flight[1..], cursor);
    }
  }

  /** The next event, or any event sent before, may follow. */
  lemma {:induction false} ReadableAppend(events: seq<Event>, from: nat, flight: seq<Event>, cursor: nat, event: Event)
    requires Readable(events, from, flight, cursor)
    requires 1 <= event.revision <= cursor + 1 && event.revision <= |events| && event == events[event.revision - 1]
    ensures Readable(events, from, flight + [event], if event.revision > cursor then event.revision else cursor)
    decreases |flight|
  {
    var longer := flight + [event];
    assert longer[0] == if flight == [] then event else flight[0];
    if flight != [] {
      assert longer[1..] == flight[1..] + [event];
      ReadableAppend(events, if flight[0].revision > from then flight[0].revision else from, flight[1..], cursor,
          event);
    } else {
      assert longer[1..] == [];
    }
  }

  lemma {:induction false} ListedIsView(table: map<Key, Row>, keys: seq<Key>, rows: seq<Row>)
    requires |rows| == |keys| && NoDuplicates(keys)
    requires forall i :: 0 <= i < |keys| ==> keys[i] in table && rows[i] == table[keys[i]]
    ensures forall key :: key in Listed(keys, rows) <==> key in keys
    ensures forall key :: key in keys ==> Listed(keys, rows)[key] == ViewOf(table[key])
  {
    if keys != [] {
      var init := keys[..|keys| - 1];
      ListedIsView(table, init, rows[..|keys| - 1]);
      assert keys == init + [keys[|keys| - 1]];
    }
  }

  /** Applying the next event of the log moves the cache to the next table. */
  lemma ReceiveNext(db: Db, c: Cache)
    requires Logged(db) && c.revision < |db.events|
    requires c.resources == Views(Replay(db.events[..c.revision]))
    ensures var after := Received(c, db.events[c.revision]);
            after.revision == c.revision + 1 && after.resources == Views(Replay(db.events[..c.revision + 1]))
  {
    hide Replay, FreshUids, Views, Effect;
    var event := db.events[c.revision];
    assert Lawful(Replay(db.events[..c.revision]), event, c.revision + 1);
    ReplayStep(db.events, c.revision);
    EffectView(Replay(db.events[..c.revision]), event, c);
  }

  lemma ReplayStep(events: seq<Event>, n: nat)
    requires n < |events|
    ensures Replay(events[..n + 1]) == Effect(Replay(events[..n]), events[n])
  {
    assert events[..n + 1][..n] == events[..n];
  }

  lemma EffectView(before: map<Key, Row>, event: Event, c: Cache)
    requires c.resources == Views(before) && event.revision > c.revision
    requires event.document.None? <==> event.kind == Deleted
    ensures Received(c, event) == Cache(Views(Effect(before, event)), event.revision)
  {
    assert Views(Effect(before, event)) == Received(c, event).resources;
  }

  lemma ArriveCoherent(l: Live)
    requires Coherent(l) && Enabled(l, Arrive)
    ensures Coherent(Next(l, Arrive))
  {
    hide Replay, Lawful, FreshUids;
    var event := l.stream.value.flight[0];
    if event.revision > l.cache.revision {
      ReceiveNext(l.db, l.cache);
    }
  }

  lemma ResyncCoherent(l: Live, step: Step)
    requires Coherent(l) && Enabled(l, step) && step.Resync?
    ensures Coherent(Next(l, step))
  {
    hide Replay, Lawful, FreshUids, KeyLess;
    var table := step.snapshot.table;
    ListedIsView(table, step.keys, step.rows);
    assert forall key :: key in step.keys <==> key in table;
    assert Listed(step.keys, step.rows) == Views(table);
    assert l.db.events[..step.snapshot.revision] == step.snapshot.events;
  }

  lemma WriteCoherent(l: Live, write: Write)
    requires Coherent(l)
    ensures Coherent(Next(l, Writing(write)))
  {
    hide Replay, Perform, Readable, Logged;
    PerformKeeps(l.db, write);
    var after := Perform(l.db, write);
    assert after.events[..l.cache.revision] == l.db.events[..l.cache.revision];
    if l.stream.Some? {
      ReadableGrows(l.db.events, after.events, l.cache.revision, l.stream.value.flight, l.stream.value.cursor);
    }
  }

  lemma SendCoherent(l: Live, step: Step)
    requires Coherent(l) && Enabled(l, step) && (step.SendNext? || step.SendAgain?)
    ensures Coherent(Next(l, step))
  {
    hide Logged, Views, Replay, Perform, Listed, Readable, Received;
    LoggedInOrder(l.db);
    var s := l.stream.value;
    var event := l.db.events[if step.SendNext? then s.cursor else step.revision - 1];
    ReadableAppend(l.db.events, l.cache.revision, s.flight, s.cursor, event);
  }

  /** The server sends the next n events. */
  ghost function Sent(l: Live, n: nat): Live
    requires l.stream.Some? && l.stream.value.cursor + n <= |l.db.events|
    ensures var s := l.stream.value;
            Sent(l, n) == l.(stream := Some(Stream(s.cursor + n, s.flight + l.db.events[s.cursor..s.cursor + n])))
  {
    var s := l.stream.value;
    if n == 0 then assert s.flight + l.db.events[s.cursor..s.cursor] == s.flight; l else
      assert l.db.events[s.cursor..s.cursor + n] ==
          l.db.events[s.cursor..s.cursor + n - 1] + [l.db.events[s.cursor + n - 1]];
      Next(Sent(l, n - 1), SendNext)
  }

  /** A page that the store reads for an unfiltered watch, sent in order, is that many sends of the next event. */
  lemma PageIsSent(l: Live, page: seq<Event>)
    requires Logged(l.db) && l.stream.Some? && l.stream.value.cursor <= |l.db.events|
    requires page <= Selected(l.db.events, "", "", l.stream.value.cursor)
    ensures l.stream.value.cursor + |page| <= |l.db.events|
    ensures var s := l.stream.value; Sent(l, |page|) == l.(stream := Some(Stream(s.cursor + |page|, s.flight + page)))
  {
    hide Logged, Sent;
    var s := l.stream.value;
    PageIsNext(l.db, s.cursor, page);
    SentIs(l, |page|);
  }

  lemma PageIsNext(db: Db, cursor: nat, page: seq<Event>)
    requires Logged(db) && cursor <= |db.events| && page <= Selected(db.events, "", "", cursor)
    ensures cursor + |page| <= |db.events| && page == db.events[cursor..cursor + |page|]
  {
    hide Logged, Selected;
    LoggedInOrder(db);
    WatchIsContiguous(db.events, cursor);
    PrefixOfTail(db.events, cursor, page);
  }

  lemma SentIs(l: Live, n: nat)
    requires l.stream.Some? && l.stream.value.cursor + n <= |l.db.events|
    ensures var s := l.stream.value;
            Sent(l, n) == l.(stream := Some(Stream(s.cursor + n, s.flight + l.db.events[s.cursor..s.cursor + n])))
  {
  }

  lemma PrefixOfTail(events: seq<Event>, cursor: nat, page: seq<Event>)
    requires cursor <= |events| && page <= events[cursor..]
    ensures cursor + |page| <= |events| && page == events[cursor..cursor + |page|]
  {
  }

  lemma LoggedInOrder(db: Db)
    requires Logged(db)
    ensures forall i :: 0 <= i < |db.events| ==> db.events[i].revision == i + 1
  {
    hide Replay, FreshUids;
    forall i | 0 <= i < |db.events| ensures db.events[i].revision == i + 1 {
      assert Lawful(Replay(db.events[..i]), db.events[i], i + 1);
    }
  }

  /** The listing that reading all pages returns may be taken over, and the cache is then the table it was read from. */
  lemma ListingResyncs(l: Live, keys: seq<Key>, rows: seq<Row>, snapshot: Db)
    requires Logged(snapshot) && snapshot.events <= l.db.events
    requires IsListing(snapshot.table, Filter("", "", map[]), keys)
    requires (forall key :: key in keys ==> key in snapshot.table) && rows == RowsOf(snapshot.table, keys)
    ensures Enabled(l, Resync(keys, rows, snapshot))
    ensures Next(l, Resync(keys, rows, snapshot)).cache == Cache(Views(snapshot.table), snapshot.revision)
    ensures Shows(Next(l, Resync(keys, rows, snapshot)).cache, snapshot.table)
  {
    hide Replay, Lawful, FreshUids, KeyLess, Logged;
    ListedIsView(snapshot.table, keys, rows);
    assert forall key :: key in keys <==> key in snapshot.table;
    assert Listed(keys, rows) == Views(snapshot.table);
  }

  lemma StepCoherent(l: Live, step: Step)
    requires Coherent(l) && Enabled(l, step)
    ensures Coherent(Next(l, step)) && l.db.events <= Next(l, step).db.events
  {
    hide Logged, Replay, Readable;
    match step
    case Writing(write) =>
      WriteCoherent(l, write);
      PerformAppends(l.db, write);
    case SendNext => SendCoherent(l, step);
    case SendAgain(_) => SendCoherent(l, step);
    case Arrive => ArriveCoherent(l);
    case Resync(_, _, _) => ResyncCoherent(l, step);
    case Connect => NothingInFlight(l.db.events, l.cache.revision);
    case Disconnect =>
  }

  lemma PerformAppends(db: Db, write: Write)
    ensures db.events <= Perform(db, write).events
  {
  }

  lemma NothingInFlight(events: seq<Event>, revision: nat)
    ensures Readable(events, revision, [], revision)
  {
  }

  ghost predicate IsRun(states: seq<Live>, steps: seq<Step>) {
    && |states| == |steps| + 1 && states[0] == Live(EMPTY, Cache(map[], 0), None)
    && forall i :: 0 <= i < |steps| ==> Enabled(states[i], steps[i]) && states[i + 1] == Next(states[i], steps[i])
  }

  lemma {:induction false} RunCoherent(states: seq<Live>, steps: seq<Step>, i: nat)
    requires IsRun(states, steps) && i <= |steps|
    ensures Coherent(states[i])
  {
    hide Coherent, Next, Enabled;
    if i == 0 {
      StartCoherent();
    } else {
      RunCoherent(states, steps, i - 1);
      StepCoherent(states[i - 1], steps[i - 1]);
    }
  }

  lemma StartCoherent()
    ensures Coherent(Live(EMPTY, Cache(map[], 0), None))
  {
    assert Views(map[]) == map[];
  }

  lemma {:induction false} LogGrows(states: seq<Live>, steps: seq<Step>, i: nat, j: nat)
    requires IsRun(states, steps) && i <= j <= |steps|
    ensures states[i].db.events <= states[j].db.events
    decreases j
  {
    hide Coherent, Next, Enabled;
    if i < j {
      LogGrows(states, steps, i, j - 1);
      RunCoherent(states, steps, j - 1);
      StepCoherent(states[j - 1], steps[j - 1]);
    }
  }

  /**
   * At every moment, through disconnects, repeated events and resyncs, the cache holds exactly the keys, identities,
   * versions and generations that the server's table had when the server was at the cache's revision.
   */
  lemma CacheShowsTable(states: seq<Live>, steps: seq<Step>, i: nat, j: nat)
    requires IsRun(states, steps) && i <= j <= |steps|
    requires states[i].db.revision == states[j].cache.revision
    ensures states[j].cache.resources == Views(states[i].db.table)
    ensures Shows(states[j].cache, states[i].db.table)
  {
    hide Next, Enabled, Readable, Replay, Lawful, FreshUids;
    RunCoherent(states, steps, i);
    RunCoherent(states, steps, j);
    LogGrows(states, steps, i, j);
    assert states[j].db.events[..states[i].db.revision] == states[i].db.events;
  }

  /** Once everything the server has written was sent and has arrived, the cache is the server's table. */
  lemma CaughtUp(states: seq<Live>, steps: seq<Step>, j: nat)
    requires IsRun(states, steps) && j <= |steps|
    requires states[j].stream == Some(Stream(states[j].db.revision, []))
    ensures states[j].cache.revision == states[j].db.revision && Shows(states[j].cache, states[j].db.table)
  {
    hide Next, Enabled, Replay, Lawful, FreshUids;
    RunCoherent(states, steps, j);
    CacheShowsTable(states, steps, j, j);
  }
}
