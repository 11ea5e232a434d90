/** Paged listing of the resource table while writers go on, and the client that reads all pages. */
module ResourceListing {
  import opened Compiler
  import opened Ordering
  import opened ResourceLog

  /** The order of the listing: kind, then namespace, then name. */
  predicate KeyLess(a: Key, b: Key) {
    StrLess(a.kind, b.kind)
    || (a.kind == b.kind && (StrLess(a.namespace, b.namespace)
        || (a.namespace == b.namespace && StrLess(a.name, b.name))))
  }

  lemma KeyLessTotal(a: Key, b: Key)
    ensures KeyLess(a, b) ==> !KeyLess(b, a)
    ensures !KeyLess(a, b) && !KeyLess(b, a) ==> a == b
  {
    hide StrLess;
    StrLessTotal(a.kind, b.kind);
    StrLessTotal(a.namespace, b.namespace);
    StrLessTotal(a.name, b.name);
  }

  lemma StrBetween(a: string, b: string)
    ensures !StrLess(b, a) <==> StrLess(a, b) || a == b
  {
    StrLessTotal(a, b);
    StrLessTotal(b, a);
  }

  lemma KeyLessTrans(a: Key, b: Key, c: Key)
    requires !KeyLess(b, a) && !KeyLess(c, b)
    ensures !KeyLess(c, a)
  {
    hide StrLess;
    StrBetween(a.kind, b.kind); StrBetween(b.kind, c.kind); StrBetween(c.kind, a.kind); StrBetween(a.kind, c.kind);
    StrBetween(b.kind, a.kind); StrBetween(c.kind, b.kind);
    StrBetween(a.namespace, b.namespace); StrBetween(b.namespace, c.namespace); StrBetween(a.namespace, c.namespace);
    StrBetween(a.name, b.name); StrBetween(b.name, c.name); StrBetween(a.name, c.name);
    if !StrLess(b.kind, a.kind) && !StrLess(c.kind, b.kind) { StrLessTrans(a.kind, b.kind, c.kind); }
    if !StrLess(b.namespace, a.namespace)
        && !StrLess(c.namespace, b.namespace) { StrLessTrans(a.namespace, b.namespace, c.namespace); }
    if !StrLess(b.name, a.name) && !StrLess(c.name, b.name) { StrLessTrans(a.name, b.name, c.name); }
  }

  lemma KeyLessIsTotalOrder()
    ensures StrictWeakOrder(KeyLess)
    ensures forall s :: TiesAreEqual(KeyLess, s)
  {
    hide KeyLess;
    forall x, y ensures KeyLess(x, y) ==> !KeyLess(y, x)
                ensures !KeyLess(x, y) && !KeyLess(y, x) ==> x == y
    {
      KeyLessTotal(x, y);
    }
    forall x, y, z | !KeyLess(y, x) && !KeyLess(z, y) ensures !KeyLess(z, x) {
      KeyLessTrans(x, y, z);
    }
  }

  // ---------------------------------------------------------------- what a listing is

  /** Empty kind and namespace match anything; every required label must be there with its value. */
  datatype Filter = Filter(kind: string, namespace: string, labels: map<string, string>)

  predicate KeyMatches(filter: Filter, key: Key) {
    (filter.kind == "" || key.kind == filter.kind) && (filter.namespace == "" || key.namespace == filter.namespace)
  }

  predicate LabelsMatch(actual: map<string, string>, required: map<string, string>) {
    forall name :: name in required ==> name in actual && actual[name] == required[name]
  }

  predicate Matches(table: map<Key, Row>, filter: Filter, key: Key) {
    key in table && KeyMatches(filter, key) && LabelsMatch(table[key].labels, filter.labels)
  }

  /** All matching keys once each, in order. */
  ghost predicate IsListing(table: map<Key, Row>, filter: Filter, list: seq<Key>) {
    NoDuplicates(list) && Sorted(KeyLess, list) && forall key :: key in list <==> Matches(table, filter, key)
  }

  /** Of two keys of a listing the earlier one has the smaller kind, namespace or name, in this order. */
  lemma ListingOrdered(table: map<Key, Row>, filter: Filter, list: seq<Key>, i: nat, j: nat)
    requires IsListing(table, filter, list) && i < j < |list|
    ensures StrLess(list[i].kind, list[j].kind) || list[i].kind == list[j].kind
    ensures list[i].kind == list[j].kind ==>
              StrLess(list[i].namespace, list[j].namespace) || list[i].namespace == list[j].namespace
    ensures list[i].kind == list[j].kind && list[i].namespace == list[j].namespace ==>
              StrLess(list[i].name, list[j].name)
  {
    hide StrLess, Matches;
    assert !KeyLess(list[j], list[i]);
    StrBetween(list[i].kind, list[j].kind);
    StrBetween(list[i].namespace, list[j].namespace);
    StrBetween(list[i].name, list[j].name);
  }

  predicate Beyond(after: Option<Key>, key: Key) {
    after.None? || KeyLess(after.value, key)
  }

  /** The matching keys after a given one. */
  ghost predicate IsRest(table: map<Key, Row>, filter: Filter, after: Option<Key>, list: seq<Key>) {
    NoDuplicates(list) && Sorted(KeyLess, list) && forall key :: key in list <==>
        Matches(table, filter, key) && Beyond(after, key)
  }

  datatype Page = SnapshotChanged(current: nat) | Page(keys: seq<Key>, rows: seq<Row>, revision: nat, more: bool)

  function RowsOf(table: map<Key, Row>, keys: seq<Key>): (rows: seq<Row>)
    requires forall key :: key in keys ==> key in table
  {
    seq(|keys|, i requires 0 <= i < |keys| => table[keys[i]])
  }

  function EffectiveLimit(limit: int): (n: nat)
    ensures n >= 1
  {
    if limit <= 0 || limit > 1000 then 100 else limit
  }

  /** A page is the first keys of the rest, and says whether any are left. */
  ghost predicate IsPage(table: map<Key, Row>, filter: Filter, after: Option<Key>, limit: nat, page: Page) {
    && page.Page?
    && (forall key :: key in page.keys ==> key in table) && page.rows == RowsOf(table, page.keys)
    && forall rest :: IsRest(table, filter, after, rest) ==>
         if |rest| > limit then page.keys == rest[..limit] && page.more else page.keys == rest && !page.more
  }

  lemma RestUnique(table: map<Key, Row>, filter: Filter, after: Option<Key>, one: seq<Key>, two: seq<Key>)
    requires IsRest(table, filter, after, one) && IsRest(table, filter, after, two)
    ensures one == two
  {
    hide KeyLess, Matches;
    KeyLessIsTotalOrder();
    SameMembersSameMultiset(one, two);
    SortedUnique(KeyLess, one, two);
  }

  // ---------------------------------------------------------------- the server

  /** The keys whose labels match, in the order given. */
  function Kept(table: map<Key, Row>, filter: Filter, keys: seq<Key>): seq<Key>
    requires forall key :: key in keys ==> key in table
  {
    if keys == [] then [] else
      var last := keys[|keys| - 1];
      var before := Kept(table, filter, keys[..|keys| - 1]);
      if LabelsMatch(table[last].labels, filter.labels) then before + [last] else before
  }

  lemma {:induction false} KeptFacts(table: map<Key, Row>, filter: Filter, keys: seq<Key>)
    requires forall key :: key in keys ==> key in table
    requires NoDuplicates(keys) && Sorted(KeyLess, keys)
    ensures var kept := Kept(table, filter, keys);
            && NoDuplicates(kept) && Sorted(KeyLess, kept)
            && forall key :: key in kept <==> key in keys && LabelsMatch(table[key].labels, filter.labels)
  {
    hide KeyLess, LabelsMatch;
    if keys != [] {
      var init, last := keys[..|keys| - 1], keys[|keys| - 1];
      assert keys == init + [last];
      KeptFacts(table, filter, init);
      var kept := Kept(table, filter, init);
      forall i | 0 <= i < |kept| ensures kept[i] != last && !KeyLess(last, kept[i]) {
        assert kept[i] in init;
        var j :| 0 <= j < |init| && init[j] == kept[i];
        assert keys[j] == kept[i] && keys[|keys| - 1] == last;
      }
      OneMoreKept(kept, last);
    }
  }

  lemma OneMoreKept(keys: seq<Key>, last: Key)
    requires NoDuplicates(keys) && Sorted(KeyLess, keys)
    requires forall i :: 0 <= i < |keys| ==> keys[i] != last && !KeyLess(last, keys[i])
    ensures NoDuplicates(keys + [last]) && Sorted(KeyLess, keys + [last])
    ensures forall key :: key in keys + [last] <==> key in keys || key == last
  {
    hide KeyLess;
  }

  lemma {:induction false} KeptPrefix(table: map<Key, Row>, filter: Filter, keys: seq<Key>, i: nat)
    requires forall key :: key in keys ==> key in table
    requires i <= |keys|
    ensures Kept(table, filter, keys[..i]) <= Kept(table, filter, keys)
    decreases |keys|
  {
    if i < |keys| {
      KeptPrefix(table, filter, keys[..|keys| - 1], i);
      assert keys[..|keys| - 1][..i] == keys[..i];
    } else {
      assert keys[..i] == keys;
    }
  }

  /** The keys of a set in some order. */
  method Enumerate(keys0: set<Key>) returns (list: seq<Key>)
    ensures NoDuplicates(list) && forall key :: key in list <==> key in keys0
  {
    list := [];
    var keys := keys0;
    while keys != {}
      invariant NoDuplicates(list) && keys <= keys0
      invariant forall key :: key in list <==> key in keys0 && key !in keys
    {
      var key :| key in keys;
      list := list + [key];
      keys := keys - {key};
    }
  }

  /** The store of resources; each method is one transaction. */
  class ResourceStore {
    var table: map<Key, Row>
    var revision: nat
    var events: seq<Event>
    var nextUid: nat

    constructor ()
      ensures Contents() == EMPTY
    {
      table, revision, events, nextUid := map[], 0, [], 0;
    }

    function Contents(): Db
      reads this
    {
      Db(table, revision, events, nextUid)
    }

    method NextRevision() returns (next: nat)
      modifies this`revision
      ensures next == revision == old(revision) + 1
    {
      revision := revision + 1;
      next := revision;
    }

    method ApplyResource(key: Key, spec: string, labels: map<string, string>, expected: nat) returns (outcome: Outcome)
      modifies this
      ensures (Contents(), outcome) == Apply(old(Contents()), key, spec, labels, expected)
    {
      var exists_ := key in table;
      if exists_ && expected != table[key].version {
        return Failed(Conflict(expected, table[key].version));
      }
      if !exists_ && expected != 0 {
        return Failed(Conflict(expected, 0));
      }
      var next := NextRevision();
      var row;
      if exists_ {
        var current := table[key];
        var generation := current.generation;
        if spec != current.spec {
          generation := generation + 1;
        }
        row := Row(current.uid, next, generation, spec, labels, current.status);
      } else {
        row := Row(nextUid, next, 1, spec, labels, "");
        nextUid := nextUid + 1;
      }
      table := table[key := row];
      events := events + [Event(next, if exists_ then Modified else Added, key, row.uid, Some(row))];
      return Written(row);
    }

    method UpdateResourceStatus(key: Key, expectedGeneration: nat, status: string) returns (outcome: Outcome)
      modifies this
      ensures (Contents(), outcome) == UpdateStatus(old(Contents()), key, expectedGeneration, status)
    {
      if key !in table {
        return Failed(NotFound);
      }
      var current := table[key];
      if expectedGeneration != 0 && current.generation != expectedGeneration {
        return Failed(StaleGeneration(expectedGeneration, current.generation));
      }
      if current.status == status {
        return Unchanged(current);
      }
      var next := NextRevision();
      var row := current.(version := next, status := status);
      table := table[key := row];
      events := events + [Event(next, Modified, key, row.uid, Some(row))];
      return Written(row);
    }

    method DeleteResource(key: Key, expected: nat) returns (outcome: Outcome)
      modifies this
      ensures (Contents(), outcome) == Delete(old(Contents()), key, expected)
    {
      if key !in table {
        return Failed(NotFound);
      }
      if table[key].version != expected {
        return Failed(Conflict(expected, table[key].version));
      }
      var next := NextRevision();
      var uid := table[key].uid;
      table := table - {key};
      events := events + [Event(next, Deleted, key, uid, None)];
      return Removed;
    }

    /** One page of the listing; a continuation is refused once the revision has moved. */
    method ListResourcePage(filter: Filter, after: Option<Key>, expected: nat, limit: int)
      returns (page: Page, ghost rest: seq<Key>)
      ensures page.SnapshotChanged? <==> expected != 0 && expected != revision
      ensures page.Page? ==>
                && page.revision == revision
                && IsPage(table, filter, after, if limit <= 0 || limit > 1000 then 100 else limit, page)
      ensures page.Page? ==> IsRest(table, filter, after, rest)
    {
      hide KeyLess, LabelsMatch;
      if expected != 0 && expected != revision {
        return SnapshotChanged(revision), [];
      }
      var n := EffectiveLimit(limit);
      KeyLessIsTotalOrder();
      var candidates := Enumerate(set key | key in table && KeyMatches(filter, key) && Beyond(after, key));
      var rows := Sort(KeyLess, candidates);
      PermutationFacts(candidates, rows);
      var keys, more := TakePage(filter, rows, n);
      KeptIsRest(table, filter, after, rows);
      KeptMember(table, filter, rows, keys);
      PageFromKept(table, filter, after, n, rows, keys, more, revision);
      page, rest := Page(keys, RowsOf(table, keys), revision, more), Kept(table, filter, rows);
    }

    /** Reads rows in order until the page is full and one more is seen. */
    method TakePage(filter: Filter, rows: seq<Key>, n: nat) returns (keys: seq<Key>, more: bool)
      requires forall key :: key in rows ==> key in table
      ensures keys <= Kept(table, filter, rows)
      ensures |keys| <= n
      ensures if more then |keys| == n && |Kept(table, filter, rows)| > n else keys == Kept(table, filter, rows)
    {
      hide LabelsMatch;
      keys, more := [], false;
      for i := 0 to |rows|
        invariant keys == Kept(table, filter, rows[..i]) && |keys| <= n
      {
        assert rows[..i + 1][..i] == rows[..i];
        KeptPrefix(table, filter, rows, i);
        KeptPrefix(table, filter, rows, i + 1);
        if LabelsMatch(table[rows[i]].labels, filter.labels) {
          if |keys| == n {
            return keys, true;
          }
          keys := keys + [rows[i]];
        }
      }
      assert rows[..|rows|] == rows;
    }

    /** A page of the watch log: the first matching events after a revision. */
    method EventsAfter(kind: string, namespace: string, after: nat, limit: int) returns (page: seq<Event>)
      ensures page <= Selected(events, kind, namespace, after)
      ensures |page| <= if limit <= 0 || limit > 1000 then 100 else limit
      ensures |page| < (if limit <= 0 || limit > 1000 then 100 else limit) ==>
                page == Selected(events, kind, namespace, after)
    {
      var n := EffectiveLimit(limit);
      page := [];
      for i := 0 to |events|
        invariant page == Selected(events[..i], kind, namespace, after) && |page| <= n
      {
        assert events[..i + 1][..i] == events[..i];
        SelectedPrefix(events, kind, namespace, after, i);
        if |page| == n {
          return page;
        }
        if Selects(events[i], kind, namespace, after) {
          page := page + [events[i]];
        }
      }
      assert events[..|events|] == events;
    }

    /** Writers go on, any number of them, unless it is quiet. */
    method OthersWrite(quiet: bool)
      requires Logged(Contents())
      modifies this
      ensures Later(old(Contents()), Contents()) && (quiet ==> Contents() == old(Contents()))
    {
      hide Logged;
      var left: nat := *;
      while left > 0 && !quiet
        invariant Logged(Contents()) && old(Contents()).events <= Contents().events
        invariant quiet ==> Contents() == old(Contents())
      {
        var key: Key, spec: string, labels: map<string, string>, expected: nat := *, *, *, *;
        var which: nat := *;
        ghost var before := Contents();
        var outcome;
        if which == 0 {
          PerformKeeps(before, Applying(key, spec, labels, expected));
          outcome := ApplyResource(key, spec, labels, expected);
        } else if which == 1 {
          PerformKeeps(before, Updating(key, expected, spec));
          outcome := UpdateResourceStatus(key, expected, spec);
        } else {
          PerformKeeps(before, Deleting(key, expected));
          outcome := DeleteResource(key, expected);
        }
        left := left - 1;
      }
    }
  }

  predicate Selects(event: Event, kind: string, namespace: string, after: nat) {
    event.revision > after && (kind == "" || event.key.kind == kind)
        && (namespace == "" || event.key.namespace == namespace)
  }

  function Selected(events: seq<Event>, kind: string, namespace: string, after: nat): seq<Event> {
    if events == [] then [] else
      var before := Selected(events[..|events| - 1], kind, namespace, after);
      if Selects(events[|events| - 1], kind, namespace, after) then before + [events[|events| - 1]] else before
  }

  lemma {:induction false} SelectedPrefix(events: seq<Event>, kind: string, namespace: string, after: nat, i: nat)
    requires i <= |events|
    ensures Selected(events[..i], kind, namespace, after) <= Selected(events, kind, namespace, after)
    decreases |events|
  {
    if i < |events| {
      SelectedPrefix(events[..|events| - 1], kind, namespace, after, i);
      assert events[..|events| - 1][..i] == events[..i];
    } else {
      assert events[..i] == events;
    }
  }

  /** A watcher reads the events it selects, each once, in the order of their revisions. */
  lemma {:induction false} SelectedFacts(events: seq<Event>, kind: string, namespace: string, after: nat)
    requires forall i :: 0 <= i < |events| ==> events[i].revision == i + 1
    ensures var selected := Selected(events, kind, namespace, after);
            && (forall event :: event in selected <==>
                  && event in events && event.revision > after && (kind == "" || event.key.kind == kind)
                  && (namespace == "" || event.key.namespace == namespace))
            && (forall i, j :: 0 <= i < j < |selected| ==> selected[i].revision < selected[j].revision)
  {
    if events != [] {
      var init, last := events[..|events| - 1], events[|events| - 1];
      SelectedFacts(init, kind, namespace, after);
      assert events == init + [last];
      assert forall event :: event in events <==> event in init || event == last;
      assert forall event :: event in init ==> event.revision < last.revision;
    }
  }

  /** Without filters, what a watcher reads after a revision is the log from there on. */
  lemma {:induction false} WatchIsContiguous(events: seq<Event>, after: nat)
    requires forall i :: 0 <= i < |events| ==> events[i].revision == i + 1
    ensures Selected(events, "", "", after) == if after <= |events| then events[after..] else []
  {
    if events != [] {
      var init, last := events[..|events| - 1], events[|events| - 1];
      WatchIsContiguous(init, after);
      if after <= |init| {
        assert events[after..] == init[after..] + [last];
      }
    }
  }

  /** A later state of the same history. */
  ghost predicate Later(before: Db, after: Db) {
    Logged(after) && before.events <= after.events
  }

  lemma SameRevisionSameTable(before: Db, after: Db)
    requires Logged(before) && Later(before, after) && before.revision == after.revision
    ensures before.table == after.table && before.events == after.events
  {
    hide Lawful, FreshUids, Replay;
    assert before.events == after.events;
  }

  // ---------------------------------------------------------------- the client reads every page

  datatype Listing = Listing(keys: seq<Key>, rows: seq<Row>, revision: nat)

  /** What is left after the first k keys of a listing. */
  lemma RestOfListing(table: map<Key, Row>, filter: Filter, list: seq<Key>, k: nat)
    requires IsListing(table, filter, list) && 0 < k <= |list|
    ensures IsRest(table, filter, Some(list[k - 1]), list[k..])
  {
    hide KeyLess, Matches;
    KeyLessIsTotalOrder();
    var rest := list[k..];
    forall key ensures key in rest <==> Matches(table, filter, key) && KeyLess(list[k - 1], key) {
      if key in list {
        var i :| 0 <= i < |list| && list[i] == key;
        assert !KeyLess(key, key);
        if i >= k {
          assert rest[i - k] == key;
          KeyLessTotal(list[k - 1], key);
        } else {
          assert !KeyLess(list[k - 1], list[i]);
          assert forall j :: 0 <= j < |rest| ==> rest[j] == list[j + k];
        }
      }
    }
  }

  /**
   * Lists page after page while writers go on. If no page is refused, the pages together are the whole listing,
   * without gap or repetition, of the table as it stood at the one revision they all report. If nobody writes, none is
   * refused.
   */
  method ListAll(store: ResourceStore, filter: Filter, limit: int, quiet: bool)
    returns (result: Option<Listing>, ghost snapshot: Db)
    requires Logged(store.Contents())
    modifies store
    ensures Later(old(store.Contents()), store.Contents())
    ensures result.Some? ==>
              && Logged(snapshot) && old(store.Contents()).events <= snapshot.events <= store.Contents().events
              && result.value.revision == snapshot.revision
              && IsListing(snapshot.table, filter, result.value.keys)
              && result.value.rows == RowsOf(snapshot.table, result.value.keys)
              && AreRows(snapshot.table, result.value.keys, result.value.rows)
    ensures quiet ==> result.Some? && store.Contents() == snapshot == old(store.Contents())
  {
    hide Logged, KeyLess, Matches, IsPage, RowsOf, IsListing, IsRest, AreRows;
    store.OthersWrite(quiet);
    snapshot := store.Contents();
    var page, list := store.ListResourcePage(filter, None, 0, limit);
    PageIsPrefix(snapshot.table, filter, None, EffectiveLimit(limit), page, list);
    WholeRest(snapshot.table, filter, list);
    var keys, rows, revision := page.keys, page.rows, page.revision;
    SomethingWritten(snapshot, keys);
    while page.more && keys != []
      invariant Logged(store.Contents()) && old(store.Contents()).events <= snapshot.events <= store.Contents().events
      invariant Logged(snapshot) && snapshot.revision == revision
      invariant quiet ==> store.Contents() == snapshot == old(store.Contents())
      invariant page.Page? && IsListing(snapshot.table, filter, list) && |keys| <= |list| && keys == list[..|keys|]
      invariant (forall key :: key in keys ==> key in snapshot.table) && rows == RowsOf(snapshot.table, keys)
      invariant if page.more then revision != 0 && keys != [] && |keys| < |list| else keys == list
      decreases |list| - |keys|
    {
      store.OthersWrite(quiet);
      ghost var rest;
      page, rest := store.ListResourcePage(filter, Some(keys[|keys| - 1]), revision, limit);
      if page.SnapshotChanged? {
        return None, snapshot;
      }
      SameRevisionSameTable(snapshot, store.Contents());
      RestOfListing(snapshot.table, filter, list, |keys|);
      RestUnique(snapshot.table, filter, Some(keys[|keys| - 1]), rest, list[|keys|..]);
      PageIsPrefix(snapshot.table, filter, Some(keys[|keys| - 1]), EffectiveLimit(limit), page, rest);
      RowsTogether(snapshot.table, keys, page.keys);
      keys, rows := keys + page.keys, rows + page.rows;
    }
    RowsMean(snapshot.table, keys);
    result := Some(Listing(keys, rows, revision));
  }

  lemma WholeRest(table: map<Key, Row>, filter: Filter, list: seq<Key>)
    requires IsRest(table, filter, None, list)
    ensures IsListing(table, filter, list)
  {
  }

  /** The documents of the keys, in the same order. */
  ghost predicate AreRows(table: map<Key, Row>, keys: seq<Key>, rows: seq<Row>) {
    |rows| == |keys| && forall i :: 0 <= i < |keys| ==> keys[i] in table && rows[i] == table[keys[i]]
  }

  lemma RowsMean(table: map<Key, Row>, keys: seq<Key>)
    requires forall key :: key in keys ==> key in table
    ensures AreRows(table, keys, RowsOf(table, keys))
  {
  }

  lemma RowsTogether(table: map<Key, Row>, keys: seq<Key>, more: seq<Key>)
    requires forall key :: key in keys ==> key in table
    requires forall key :: key in more ==> key in table
    ensures forall key :: key in keys + more ==> key in table
    ensures RowsOf(table, keys + more) == RowsOf(table, keys) + RowsOf(table, more)
  {
  }

  lemma SomethingWritten(db: Db, keys: seq<Key>)
    requires Logged(db) && forall key :: key in keys ==> key in db.table
    ensures keys != [] ==> db.revision != 0
  {
    hide Lawful, FreshUids;
    if keys != [] {
      assert keys[0] in keys;
    }
  }

  lemma PageIsPrefix(table: map<Key, Row>, filter: Filter, after: Option<Key>, limit: nat, page: Page, rest: seq<Key>)
    requires IsPage(table, filter, after, limit, page) && IsRest(table, filter, after, rest) && limit >= 1
    ensures |page.keys| <= |rest| && page.keys == rest[..|page.keys|]
    ensures rest != [] ==> page.keys != []
    ensures if page.more then |page.keys| < |rest| else page.keys == rest
    ensures (forall key :: key in page.keys ==> key in table) && page.rows == RowsOf(table, page.keys)
  {
    hide IsRest, KeyLess, Matches;
  }

  lemma KeptIsRest(table: map<Key, Row>, filter: Filter, after: Option<Key>, rows: seq<Key>)
    requires NoDuplicates(rows) && Sorted(KeyLess, rows)
    requires forall key :: key in rows <==> key in table && KeyMatches(filter, key) && Beyond(after, key)
    ensures IsRest(table, filter, after, Kept(table, filter, rows))
  {
    hide KeyLess, LabelsMatch;
    KeptFacts(table, filter, rows);
  }

  lemma KeptMember(table: map<Key, Row>, filter: Filter, rows: seq<Key>, keys: seq<Key>)
    requires forall key :: key in rows ==> key in table
    requires NoDuplicates(rows) && Sorted(KeyLess, rows)
    requires keys <= Kept(table, filter, rows)
    ensures forall key :: key in keys ==> key in table
  {
    hide KeyLess, LabelsMatch;
    KeptFacts(table, filter, rows);
    forall key | key in keys ensures key in Kept(table, filter, rows) {
      var i :| 0 <= i < |keys| && keys[i] == key;
      assert Kept(table, filter, rows)[i] == key;
    }
  }

  lemma PageFromKept(table: map<Key, Row>, filter: Filter, after: Option<Key>, n: nat, rows: seq<Key>, keys: seq<Key>,
                     more: bool, revision: nat)
    requires forall key :: key in rows ==> key in table
    requires IsRest(table, filter, after, Kept(table, filter, rows))
    requires keys <= Kept(table, filter, rows) && forall key :: key in keys ==> key in table
    requires |keys| <= n
    requires if more then |keys| == n && |Kept(table, filter, rows)| > n else keys == Kept(table, filter, rows)
    ensures IsPage(table, filter, after, n, Page(keys, RowsOf(table, keys), revision, more))
  {
    hide IsRest;
    forall rest | IsRest(table, filter, after, rest) ensures rest == Kept(table, filter, rows) {
      RestUnique(table, filter, after, rest, Kept(table, filter, rows));
    }
  }
}
