/** What a conditional write does, and what conditions promise when several clients write. */
module ResourceWrites {
  import opened Compiler
  import opened ResourceLog

  /** The version of a key, or 0 when it is absent; no row has version 0. */
  function VersionOf(table: map<Key, Row>, key: Key): nat {
    if key in table then table[key].version else 0
  }

  lemma {:induction false} Versions(events: seq<Event>, key: Key)
    requires forall i :: 0 <= i < |events| ==> Lawful(Replay(events[..i]), events[i], i + 1)
    ensures key in Replay(events) ==> 0 < Replay(events)[key].version <= |events|
    ensures key in Replay(events) ==> Replay(events)[key].generation >= 1
  {
    if events != [] {
      var init := events[..|events| - 1];
      assert forall i :: 0 <= i < |init| ==> init[i] == events[i] && init[..i] == events[..i];
      assert events[..|events| - 1] == init;
      assert Lawful(Replay(init), events[|events| - 1], |events|);
      Versions(init, key);
    }
  }

  lemma LoggedVersions(db: Db, key: Key)
    requires Logged(db)
    ensures key in db.table ==> 0 < db.table[key].version <= db.revision && db.table[key].generation >= 1
  {
    Versions(db.events, key);
  }

  // ---------------------------------------------------------------- one write

  /** One more revision with one more event, and nothing changed but this key. */
  ghost predicate Moves(db: Db, next: Db, key: Key, kind: EventType) {
    && next.revision == db.revision + 1
    && |next.events| == |db.events| + 1 && next.events[..|db.events|] == db.events
    && next.events[|db.events|].kind == kind && next.events[|db.events|].key == key
    && next.events[|db.events|].revision == next.revision
    && next.events[|db.events|].document == (if key in next.table then Some(next.table[key]) else None)
    && (forall other :: other != key ==>
          (other in next.table <==> other in db.table) && (other in db.table ==> next.table[other] == db.table[other]))
  }

  /**
   * Apply is compare-and-swap: it takes effect iff the client names the version that the key has, or 0 for a key that
   * is absent; then spec and labels are the client's, identity and status are kept, and the generation rises iff the
   * spec changes. Otherwise nothing happens, and the client is told both versions.
   */
  lemma ApplyingSwaps(db: Db, key: Key, spec: string, labels: map<string, string>, expected: nat)
    requires Logged(db)
    ensures var next, outcome := Perform(db, Applying(key, spec, labels, expected)),
                                 Apply(db, key, spec, labels, expected).1;
            if expected == VersionOf(db.table, key) then
              && Moves(db, next, key, if key in db.table then Modified else Added)
              && key in next.table && outcome == Written(next.table[key])
              && var row := next.table[key];
                 && row.version == next.revision && row.spec == spec && row.labels == labels
                 && if key in db.table then
                      && row.uid == db.table[key].uid && row.status == db.table[key].status
                      && (row.generation == db.table[key].generation <==> spec == db.table[key].spec)
                      && row.generation <= db.table[key].generation + 1
                      && row.generation >= db.table[key].generation
                    else row.uid == db.nextUid < next.nextUid && row.generation == 1 && row.status == ""
            else next == db && outcome == Failed(Conflict(expected, VersionOf(db.table, key)))
  {
    hide Logged;
    LoggedVersions(db, key);
  }

  /** A deletion takes effect iff the client names the version of a key that is there. */
  lemma DeletingSwaps(db: Db, key: Key, expected: nat)
    requires Logged(db)
    ensures var next, outcome := Perform(db, Deleting(key, expected)), Delete(db, key, expected).1;
            if key in db.table && expected == db.table[key].version then
              Moves(db, next, key, Deleted) && key !in next.table && outcome == Removed
            else
              && next == db
              && outcome == Failed(if key in db.table then Conflict(expected, db.table[key].version) else NotFound)
  {
    hide Logged;
  }

  /**
   * A status write takes effect iff the key is there, the generation is the one named, if one is, and the status is
   * new; it changes the status and the version and nothing else.
   */
  lemma UpdatingSwaps(db: Db, key: Key, generation: nat, status: string)
    requires Logged(db)
    ensures var next, outcome := Perform(db, Updating(key, generation, status)),
                                 UpdateStatus(db, key, generation, status).1;
            if key !in db.table then next == db && outcome == Failed(NotFound)
            else
              var row := db.table[key];
              if generation != 0 && generation != row.generation then
                next == db && outcome == Failed(StaleGeneration(generation, row.generation))
              else if status == row.status then next == db && outcome == Unchanged(row)
              else
                && Moves(db, next, key, Modified) && key in next.table && outcome == Written(next.table[key])
                && next.table[key] ==
                     Row(row.uid, next.revision, row.generation, row.spec, row.labels, status)
  {
    hide Logged;
  }

  // ---------------------------------------------------------------- several clients

  ghost function At(db: Db, writes: seq<Write>, i: nat): Db
    requires i <= |writes|
  {
    PerformAll(db, writes[..i])
  }

  lemma AtNext(db: Db, writes: seq<Write>, i: nat)
    requires i < |writes|
    ensures At(db, writes, i + 1) == Perform(At(db, writes, i), writes[i])
  {
    assert writes[..i + 1][..i] == writes[..i];
  }

  predicate Conditional(write: Write, key: Key, expected: nat) {
    !write.Updating? && write.key == key && write.expected == expected
  }

  ghost predicate TakesEffect(db: Db, writes: seq<Write>, i: nat)
    requires i < |writes|
  {
    |At(db, writes, i + 1).events| > |At(db, writes, i).events|
  }

  lemma WriteVersions(db: Db, write: Write, key: Key)
    requires Logged(db)
    ensures var before, after := VersionOf(db.table, key), VersionOf(Perform(db, write).table, key);
            after == before || after == 0 || (after == db.revision + 1 > before)
    ensures Perform(db, write).revision >= db.revision
  {
    LoggedVersions(db, key);
    hide Logged;
  }

  /** Once a key's version has been passed, it does not come back. */
  lemma {:induction false} VersionPassed(db: Db, writes: seq<Write>, key: Key, r: nat, i: nat, j: nat)
    requires Logged(db) && i <= j <= |writes|
    requires var version := VersionOf(At(db, writes, i).table, key);
             At(db, writes, i).revision >= r && (version == 0 || version > r)
    ensures var version := VersionOf(At(db, writes, j).table, key);
            At(db, writes, j).revision >= r && (version == 0 || version > r)
    decreases j
  {
    hide Perform, Logged;
    if i < j {
      VersionPassed(db, writes, key, r, i, j - 1);
      WritesKeep(db, writes[..j - 1]);
      WriteVersions(At(db, writes, j - 1), writes[j - 1], key);
      AtNext(db, writes, j - 1);
    }
  }

  lemma EffectPasses(db: Db, write: Write, key: Key, expected: nat)
    requires Logged(db) && Conditional(write, key, expected) && expected != 0
    requires |Perform(db, write).events| > |db.events|
    ensures expected == VersionOf(db.table, key) <= db.revision < Perform(db, write).revision
    ensures var version := VersionOf(Perform(db, write).table, key); version == 0 || version > db.revision
  {
    LoggedVersions(db, key);
    hide Logged;
  }

  /**
   * No lost update: over any run of writes by anybody, of all applies and deletions of one key that name the same
   * version, at most one takes effect.
   */
  lemma NoLostUpdate(db: Db, writes: seq<Write>, key: Key, expected: nat, i: nat, j: nat)
    requires Logged(db) && i < j < |writes| && expected != 0
    requires Conditional(writes[i], key, expected) && Conditional(writes[j], key, expected)
    ensures !(TakesEffect(db, writes, i) && TakesEffect(db, writes, j))
  {
    hide Perform, Logged, At;
    if TakesEffect(db, writes, i) && TakesEffect(db, writes, j) {
      StaysLogged(db, writes, i);
      StaysLogged(db, writes, j);
      AtNext(db, writes, i);
      AtNext(db, writes, j);
      EffectPasses(At(db, writes, i), writes[i], key, expected);
      VersionPassed(db, writes, key, At(db, writes, i).revision, i + 1, j);
      EffectPasses(At(db, writes, j), writes[j], key, expected);
      assert false;
    }
  }

  lemma StaysLogged(db: Db, writes: seq<Write>, i: nat)
    requires Logged(db) && i <= |writes|
    ensures Logged(At(db, writes, i))
  {
    hide Logged, Perform;
    WritesKeep(db, writes[..i]);
  }

  // ---------------------------------------------------------------- status writes and re-creation

  /** While a resource keeps its identity its generation does not fall, and stands still only with its spec. */
  ghost predicate Ages(before: Row, after: Row) {
    && after.generation >= before.generation
    && (after.generation == before.generation ==> after.spec == before.spec)
  }

  lemma WriteAges(db: Db, write: Write, key: Key)
    requires Logged(db) && key in db.table && key in Perform(db, write).table
    ensures Perform(db, write).table[key].uid == db.table[key].uid && Ages(db.table[key], Perform(db, write).table[key])
  {
    hide Logged;
  }

  lemma WriteUids(db: Db, write: Write, key: Key, uid: nat)
    requires Logged(db) && uid < db.nextUid && (key in db.table ==> db.table[key].uid != uid)
    ensures var next := Perform(db, write);
            uid < next.nextUid && (key in next.table ==> next.table[key].uid != uid)
  {
    hide Logged;
  }

  lemma TableUid(db: Db, key: Key)
    requires Logged(db) && key in db.table
    ensures db.table[key].uid < db.nextUid
  {
    LawfulUids(db);
    TableUids(db.events, db.nextUid);
  }

  /** Between two times at which a resource has the same identity it was there throughout, and has only aged. */
  lemma {:induction false} IdentityAges(db: Db, writes: seq<Write>, key: Key, i: nat, j: nat)
    requires Logged(db) && i <= j <= |writes| && key in At(db, writes, i).table
    ensures var row, later := At(db, writes, i).table[key], At(db, writes, j).table;
            && row.uid < At(db, writes, j).nextUid
            && (key in later && later[key].uid == row.uid ==> Ages(row, later[key]))
    decreases j
  {
    hide Perform, Logged, At;
    StaysLogged(db, writes, i);
    if i == j {
      TableUid(At(db, writes, i), key);
    } else {
      IdentityAges(db, writes, key, i, j - 1);
      StaysLogged(db, writes, j - 1);
      AtNext(db, writes, j - 1);
      IdentityStep(At(db, writes, i).table[key], At(db, writes, j - 1), writes[j - 1], key);
    }
  }

  lemma IdentityStep(row: Row, db: Db, write: Write, key: Key)
    requires Logged(db) && row.uid < db.nextUid
    requires key in db.table && db.table[key].uid == row.uid ==> Ages(row, db.table[key])
    ensures var next := Perform(db, write);
            && row.uid < next.nextUid
            && (key in next.table && next.table[key].uid == row.uid ==> Ages(row, next.table[key]))
  {
    hide Logged, Perform;
    var next := Perform(db, write);
    PerformKeeps(db, write);
    if key in db.table {
      if key in next.table {
        WriteAges(db, write, key);
      }
    } else {
      WriteUids(db, write, key, row.uid);
    }
  }

  /**
   * A status that was computed from a resource and names its generation lands only on the spec it was computed from,
   * as long as the resource keeps its identity.
   */
  lemma StatusFitsSpec(db: Db, writes: seq<Write>, key: Key, i: nat, j: nat, status: string)
    requires Logged(db) && i <= j < |writes| && key in At(db, writes, i).table
    requires writes[j] == Updating(key, At(db, writes, i).table[key].generation, status) && TakesEffect(db, writes, j)
    ensures key in At(db, writes, j).table
    ensures var row, later := At(db, writes, i).table[key], At(db, writes, j).table[key];
            later.uid == row.uid ==> later.spec == row.spec
  {
    hide Perform, Logged, At;
    StaysLogged(db, writes, i);
    StaysLogged(db, writes, j);
    AtNext(db, writes, j);
    LoggedVersions(At(db, writes, i), key);
    UpdatingSwaps(At(db, writes, j), key, At(db, writes, i).table[key].generation, status);
    IdentityAges(db, writes, key, i, j);
  }

  /**
   * The generation alone does not tell: a resource that is created, deleted and created anew has generation 1 again,
   * so a status computed from the first lands on the second, whatever its spec.
   */
  lemma StatusOutlives(db: Db, key: Key, old_: string, spec: string, status: string) returns (writes: seq<Write>)
    requires Logged(db) && key !in db.table && status != ""
    ensures |writes| == 4 && key in At(db, writes, 1).table && key in At(db, writes, 4).table
    ensures var row, later := At(db, writes, 1).table[key], At(db, writes, 4).table[key];
            && row.spec == old_ && writes[3] == Updating(key, row.generation, status)
            && later.spec == spec && later.status == status && later.uid != row.uid
  {
    hide Perform, Logged, PerformAll;
    var one := Applying(key, old_, map[], 0);
    ApplyingSwaps(db, key, old_, map[], 0);
    PerformKeeps(db, one);
    var first := Perform(db, one);
    var two := Deleting(key, first.table[key].version);
    DeletingSwaps(first, key, first.table[key].version);
    PerformKeeps(first, two);
    var second := Perform(first, two);
    var three := Applying(key, spec, map[], 0);
    ApplyingSwaps(second, key, spec, map[], 0);
    PerformKeeps(second, three);
    var third := Perform(second, three);
    var four := Updating(key, 1, status);
    UpdatingSwaps(third, key, 1, status);
    writes := [one, two, three, four];
    FourWrites(db, one, two, three, four);
  }

  lemma FourWrites(db: Db, one: Write, two: Write, three: Write, four: Write)
    ensures var writes := [one, two, three, four];
            && At(db, writes, 1) == Perform(db, one)
            && At(db, writes, 4) == Perform(Perform(Perform(Perform(db, one), two), three), four)
  {
    hide Perform;
    var writes := [one, two, three, four];
    assert At(db, writes, 0) == db;
    AtNext(db, writes, 0);
    AtNext(db, writes, 1);
    AtNext(db, writes, 2);
    AtNext(db, writes, 3);
  }
}
