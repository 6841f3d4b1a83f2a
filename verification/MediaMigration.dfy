/**
 Resumable copy of the legacy media database (packages/onebot/src/media-store-migration.ts).

 A source table is its rows in rowid order. A destination is two tables and the saved
 (phase, cursor); a transaction either commits a whole batch or leaves all of them as they were.
 */
module MediaMigration {
  import opened Options

  datatype Phase = Entries | Keys | Complete

  /** Both source tables are read into one row type; each phase uses its own columns. */
  datatype Row = Row(rowid: int, kind: string, key: string, primaryKey: string, data: string, lastSeen: int)

  datatype Source = Source(entries: seq<Row>, keys: seq<Row>)

  type Id = (string, string)

  datatype Tables = Tables(entries: map<Id, (string, int)>, keys: map<Id, string>)

  /** Key folding, and JSON reading with re-serialisation: None for anything but an object. */
  datatype Codec = Codec(fold: string -> string, serialize: string -> Option<string>)

  const BATCH_SIZE: nat := 200

  // ------------------------------------------------------------------ one pass

  predicate Accepts(codec: Codec, phase: Phase, row: Row) {
    row.kind in {"image", "record", "video"} && (phase == Entries ==> codec.serialize(row.data).Some?)
  }

  /** ON CONFLICT DO NOTHING. */
  function PutFirst<K, V>(m: map<K, V>, k: K, v: V): map<K, V> {
    if k in m then m else m[k := v]
  }

  function EntryOf(codec: Codec, row: Row): (Id, (string, int))
    requires Accepts(codec, Entries, row)
  {
    ((row.kind, codec.fold(row.primaryKey)), (codec.serialize(row.data).value, row.lastSeen))
  }

  function KeyOf(codec: Codec, row: Row): (Id, string) {
    ((row.kind, codec.fold(row.key)), codec.fold(row.primaryKey))
  }

  function Insert(codec: Codec, phase: Phase, row: Row, t: Tables): Tables
    requires Accepts(codec, phase, row)
  {
    if phase == Entries then t.(entries := PutFirst(t.entries, EntryOf(codec, row).0, EntryOf(codec, row).1))
    else t.(keys := PutFirst(t.keys, KeyOf(codec, row).0, KeyOf(codec, row).1))
  }

  /** All rows in order, or None at the first one that is not accepted. */
  function Pass(codec: Codec, phase: Phase, rows: seq<Row>, t: Tables): Option<Tables> {
    if rows == [] then Some(t)
    else if !Accepts(codec, phase, rows[0]) then None
    else Pass(codec, phase, rows[1..], Insert(codec, phase, rows[0], t))
  }

  function Then(codec: Codec, phase: Phase, rows: seq<Row>, t: Option<Tables>): Option<Tables> {
    if t == None then None else Pass(codec, phase, rows, t.value)
  }

  /** A single pass over the entries and then the keys. */
  function OnePass(codec: Codec, entries: seq<Row>, keys: seq<Row>, t: Tables): Option<Tables> {
    Then(codec, Keys, keys, Pass(codec, Entries, entries, t))
  }

  lemma {:induction false} PassSplits(codec: Codec, phase: Phase, a: seq<Row>, b: seq<Row>, t: Tables)
    ensures Pass(codec, phase, a + b, t) == Then(codec, phase, b, Pass(codec, phase, a, t))
    decreases |a|
  {
    if a == [] {
      assert a + b == b;
    } else {
      assert (a + b)[1..] == a[1..] + b;
      if Accepts(codec, phase, a[0]) {
        PassSplits(codec, phase, a[1..], b, Insert(codec, phase, a[0], t));
      }
    }
  }

  // ------------------------------------------------------------------ what a pass leaves

  /** A pass succeeds exactly when every row is accepted. */
  lemma {:induction false} PassSucceeds(codec: Codec, phase: Phase, rows: seq<Row>, t: Tables)
    ensures Pass(codec, phase, rows, t).Some? <==>
              forall i :: 0 <= i < |rows| ==>
                && (rows[i].kind == "image" || rows[i].kind == "record" || rows[i].kind == "video")
                && (phase == Entries ==> codec.serialize(rows[i].data).Some?)
  {
    if rows != [] && Accepts(codec, phase, rows[0]) {
      PassSucceeds(codec, phase, rows[1..], Insert(codec, phase, rows[0], t));
      assert forall i :: 0 <= i < |rows| - 1 ==> rows[1..][i] == rows[i + 1];
      assert forall i :: 1 <= i < |rows| ==> rows[i] == rows[1..][i - 1];
    }
  }

  /** `i` is the first row that `id` comes from. */
  ghost predicate FirstWith(ids: seq<Id>, id: Id, i: int) {
    0 <= i < |ids| && ids[i] == id && forall j :: 0 <= j < i ==> ids[j] != id
  }

  function EntryIds(codec: Codec, rows: seq<Row>): (ids: seq<Id>)
    ensures |ids| == |rows|
    ensures forall i :: 0 <= i < |rows| ==> ids[i] == (rows[i].kind, codec.fold(rows[i].primaryKey))
  {
    seq(|rows|, i requires 0 <= i < |rows| => (rows[i].kind, codec.fold(rows[i].primaryKey)))
  }

  function KeyIds(codec: Codec, rows: seq<Row>): (ids: seq<Id>)
    ensures |ids| == |rows|
    ensures forall i :: 0 <= i < |rows| ==> ids[i] == (rows[i].kind, codec.fold(rows[i].key))
  {
    seq(|rows|, i requires 0 <= i < |rows| => (rows[i].kind, codec.fold(rows[i].key)))
  }

  lemma FirstWithTail(ids: seq<Id>, id: Id, i: int)
    requires FirstWith(ids, id, i) && i > 0
    ensures FirstWith(ids[1..], id, i - 1)
  {
    forall j | 0 <= j < i - 1 ensures ids[1..][j] != id {
      assert ids[1..][j] == ids[j + 1];
    }
  }

  /** The first entry row of each id wins, unless the destination had the id before. */
  lemma {:induction false} FirstEntryWins(codec: Codec, rows: seq<Row>, t: Tables, id: Id)
    requires Pass(codec, Entries, rows, t).Some?
    ensures
      var u := Pass(codec, Entries, rows, t).value;
      && u.keys == t.keys
      && (id in u.entries <==> id in t.entries || id in EntryIds(codec, rows))
      && (id in t.entries ==> u.entries[id] == t.entries[id])
      && (forall i :: FirstWith(EntryIds(codec, rows), id, i) && id !in t.entries ==>
            && id in u.entries && codec.serialize(rows[i].data).Some?
            && u.entries[id] == (codec.serialize(rows[i].data).value, rows[i].lastSeen))
  {
    if rows != [] {
      var ids := EntryIds(codec, rows);
      var next := Insert(codec, Entries, rows[0], t);
      FirstEntryWins(codec, rows[1..], next, id);
      assert ids == [ids[0]] + EntryIds(codec, rows[1..]);
      var u := Pass(codec, Entries, rows, t).value;
      forall i | FirstWith(ids, id, i) && id !in t.entries
        ensures id in u.entries && codec.serialize(rows[i].data).Some?
        ensures u.entries[id] == (codec.serialize(rows[i].data).value, rows[i].lastSeen)
      {
        if i > 0 {
          FirstWithTail(ids, id, i);
        }
      }
    }
  }

  lemma {:induction false} FirstKeyWins(codec: Codec, rows: seq<Row>, t: Tables, id: Id)
    requires Pass(codec, Keys, rows, t).Some?
    ensures
      var u := Pass(codec, Keys, rows, t).value;
      && u.entries == t.entries
      && (id in u.keys <==> id in t.keys || id in KeyIds(codec, rows))
      && (id in t.keys ==> u.keys[id] == t.keys[id])
      && (forall i :: FirstWith(KeyIds(codec, rows), id, i) && id !in t.keys ==>
            id in u.keys && u.keys[id] == codec.fold(rows[i].primaryKey))
  {
    if rows != [] {
      var ids := KeyIds(codec, rows);
      var next := Insert(codec, Keys, rows[0], t);
      FirstKeyWins(codec, rows[1..], next, id);
      assert ids == [ids[0]] + KeyIds(codec, rows[1..]);
      var u := Pass(codec, Keys, rows, t).value;
      forall i | FirstWith(ids, id, i) && id !in t.keys
        ensures id in u.keys && u.keys[id] == codec.fold(rows[i].primaryKey)
      {
        if i > 0 {
          FirstWithTail(ids, id, i);
        }
      }
    }
  }

  // ------------------------------------------------------------------ cursors

  predicate Sorted(rows: seq<Row>) {
    forall i, j :: 0 <= i < j < |rows| ==> rows[i].rowid < rows[j].rowid
  }

  /** WHERE rowid > cursor ORDER BY rowid. */
  function Beyond(rows: seq<Row>, cursor: int): seq<Row> {
    if rows == [] then []
    else if rows[0].rowid > cursor then [rows[0]] + Beyond(rows[1..], cursor)
    else Beyond(rows[1..], cursor)
  }

  lemma {:induction false} BeyondSorted(rows: seq<Row>, cursor: int)
    requires Sorted(rows)
    ensures exists k :: 0 <= k <= |rows| && Beyond(rows, cursor) == rows[k..]
    ensures rows != [] && rows[0].rowid > cursor ==> Beyond(rows, cursor) == rows
  {
    if rows != [] {
      BeyondSorted(rows[1..], cursor);
      var k :| 0 <= k <= |rows| - 1 && Beyond(rows[1..], cursor) == rows[1..][k..];
      assert Beyond(rows[1..], cursor) == rows[k + 1..];
      if rows[0].rowid > cursor {
        assert rows[1..] != [] ==> rows[1..][0].rowid > cursor;
        assert Beyond(rows, cursor) == rows[0..];
      }
    } else {
      assert Beyond(rows, cursor) == rows[0..];
    }
  }

  lemma {:induction false} BeyondRow(rows: seq<Row>, n: nat)
    requires Sorted(rows) && 0 < n <= |rows|
    ensures Beyond(rows, rows[n - 1].rowid) == rows[n..]
  {
    var cursor := rows[n - 1].rowid;
    if n == 1 {
      BeyondSorted(rows[1..], cursor);
      assert rows[1..] != [] ==> rows[1..][0].rowid > cursor;
    } else {
      BeyondRow(rows[1..], n - 1);
      assert rows[0].rowid < cursor;
    }
  }

  /** Rows beyond a cursor, and then beyond the n-th of those: all but the first n. */
  lemma BeyondAdvances(rows: seq<Row>, cursor: int, n: nat)
    requires Sorted(rows) && 0 < n <= |Beyond(rows, cursor)|
    ensures Beyond(rows, Beyond(rows, cursor)[n - 1].rowid) == Beyond(rows, cursor)[n..]
  {
    BeyondSorted(rows, cursor);
    var k :| 0 <= k <= |rows| && Beyond(rows, cursor) == rows[k..];
    BeyondRow(rows, k + n);
  }

  /** The first cursor is 0: nothing is passed over exactly when every rowid is positive. */
  lemma PositiveRowids(rows: seq<Row>)
    requires Sorted(rows)
    ensures Beyond(rows, 0) == rows <==> forall i :: 0 <= i < |rows| ==> rows[i].rowid > 0
  {
    if rows != [] {
      BeyondSorted(rows, 0);
      if rows[0].rowid <= 0 {
        BeyondSorted(rows[1..], 0);
      }
    }
  }

  // ------------------------------------------------------------------ the migration

  ghost predicate Frozen(source: Option<Source>) {
    source.Some? ==> Sorted(source.value.entries) && Sorted(source.value.keys)
  }

  /** What one pass over everything still ahead of (phase, cursor) would leave. */
  function Remaining(codec: Codec, source: Option<Source>, t: Tables, phase: Phase, cursor: int): Option<Tables> {
    if phase == Complete || source == None then Some(t)
    else if phase == Entries then OnePass(codec, Beyond(source.value.entries, cursor), Beyond(source.value.keys, 0), t)
    else Pass(codec, Keys, Beyond(source.value.keys, cursor), t)
  }

  /** Passes to make, and rows left in this one. */
  function Left(source: Source, phase: Phase, cursor: int): (r: (nat, nat)) {
    match phase
    case Entries => (2, |Beyond(source.entries, cursor)|)
    case Keys => (1, |Beyond(source.keys, cursor)|)
    case Complete => (0, 0)
  }

  predicate Less(a: (nat, nat), b: (nat, nat)) {
    a.0 < b.0 || (a.0 == b.0 && a.1 < b.1)
  }

  /** What befalls one turn of the loop: cancellation is seen before it, or its commit fails. */
  datatype Fate = Runs | Cancels | CommitFails

  ghost predicate Uninterrupted(fates: seq<Fate>) {
    forall i :: 0 <= i < |fates| ==> fates[i] == Runs
  }

  /** The first turn that does not simply run is of this kind. */
  ghost predicate StoppedBy(fates: seq<Fate>, fate: Fate) {
    exists k :: 0 <= k < |fates| && fates[k] == fate && forall j :: 0 <= j < k ==> fates[j] == Runs
  }

  datatype Outcome = Completed | Cancelled | Failed

  /** Committing a batch leaves the result of the remaining pass as it was. */
  lemma BatchKeepsRemaining(codec: Codec, source: Source, t: Tables, phase: Phase, cursor: int, n: nat)
    requires Sorted(source.entries) && Sorted(source.keys) && phase != Complete
    requires
      var ahead := Beyond(if phase == Entries then source.entries else source.keys, cursor);
      0 < n <= |ahead| && Pass(codec, phase, ahead[..n], t).Some?
    ensures
      var ahead := Beyond(if phase == Entries then source.entries else source.keys, cursor);
      && Remaining(codec, Some(source), Pass(codec, phase, ahead[..n], t).value, phase, ahead[n - 1].rowid)
           == Remaining(codec, Some(source), t, phase, cursor)
      && Left(source, phase, ahead[n - 1].rowid).1 < Left(source, phase, cursor).1
  {
    hide Pass, Beyond;
    var rows := if phase == Entries then source.entries else source.keys;
    var ahead := Beyond(rows, cursor);
    BeyondAdvances(rows, cursor, n);
    PassSplits(codec, phase, ahead[..n], ahead[n..], t);
    assert ahead[..n] + ahead[n..] == ahead;
  }

  /** An empty batch is the end of a pass. */
  lemma EmptyBatchKeepsRemaining(codec: Codec, source: Source, t: Tables, phase: Phase, cursor: int)
    requires phase != Complete && Beyond(if phase == Entries then source.entries else source.keys, cursor) == []
    ensures Remaining(codec, Some(source), t, if phase == Entries then Keys else Complete, 0)
              == Remaining(codec, Some(source), t, phase, cursor)
  {
  }

  /** A batch that is refused shows that the remaining pass would be. */
  lemma RefusedBatch(codec: Codec, source: Source, t: Tables, phase: Phase, cursor: int, n: nat)
    requires phase != Complete
    requires
      var ahead := Beyond(if phase == Entries then source.entries else source.keys, cursor);
      n <= |ahead| && Pass(codec, phase, ahead[..n], t) == None
    ensures Remaining(codec, Some(source), t, phase, cursor) == None
  {
    hide Pass, Beyond;
    var ahead := Beyond(if phase == Entries then source.entries else source.keys, cursor);
    PassSplits(codec, phase, ahead[..n], ahead[n..], t);
    assert ahead[..n] + ahead[n..] == ahead;
  }

  class Database {
    var tables: Tables
    var phase: Phase
    var cursor: int

    constructor (tables: Tables)
      ensures this.tables == tables && phase == Entries && cursor == 0
    {
      this.tables, phase, cursor := tables, Entries, 0;
    }

    /** Writes one batch inside a transaction: all of its rows, or none after the first refused one. */
    method InsertRows(codec: Codec, rows: seq<Row>) returns (ok: bool)
      modifies `tables
      ensures ok <==> Pass(codec, phase, rows, old(tables)).Some?
      ensures tables == if ok then Pass(codec, phase, rows, old(tables)).value else old(tables)
      ensures rows == [] ==> tables == old(tables)
    {
      var begun := tables;
      var i := 0;
      while i < |rows|
        invariant i <= |rows|
        invariant Pass(codec, phase, rows, begun) == Pass(codec, phase, rows[i..], tables)
      {
        var row := rows[i];
        if row.kind != "image" && row.kind != "record" && row.kind != "video" {
          tables := begun;
          return false;
        }
        if phase == Entries && codec.serialize(row.data) == None {
          tables := begun;
          return false;
        }
        tables := Insert(codec, phase, row, tables);
        i := i + 1;
      }
      ok := true;
    }

    /** One turn of the migration loop. */
    method RunBatch(codec: Codec, source: Source, commits: bool) returns (ok: bool)
      requires Sorted(source.entries) && Sorted(source.keys) && phase != Complete
      modifies this
      ensures Remaining(codec, Some(source), tables, phase, cursor) == old(Remaining(codec, Some(source), tables, phase, cursor))
      ensures !ok ==> tables == old(tables) && phase == old(phase) && cursor == old(cursor)
      ensures ok ==> commits
      ensures !ok && commits ==> Remaining(codec, Some(source), tables, phase, cursor) == None
      ensures ok ==> Less(Left(source, phase, cursor), old(Left(source, phase, cursor)))
    {
      hide Pass, Beyond;
      var table := if phase == Entries then source.entries else source.keys;
      var ahead := Beyond(table, cursor);
      var n := if |ahead| < BATCH_SIZE then |ahead| else BATCH_SIZE;
      var rows := ahead[..n];
      var nextPhase := if rows == [] then (if phase == Entries then Keys else Complete) else phase;
      var nextCursor := if rows == [] then 0 else rows[n - 1].rowid;
      var begun := tables;
      ok := InsertRows(codec, rows);
      if !ok {
        RefusedBatch(codec, source, tables, phase, cursor, n);
        return;
      }
      if !commits {
        tables := begun;
        return false;
      }
      if n == 0 {
        EmptyBatchKeepsRemaining(codec, source, tables, phase, cursor);
      } else {
        BatchKeepsRemaining(codec, source, begun, phase, cursor, n);
      }
      phase, cursor := nextPhase, nextCursor;
    }

    /**
     One run of the migration. Whatever stops it, what is left to do still leads to the same
     tables; left alone, it completes exactly when that remaining pass meets no bad row.
     */
    method Migrate(codec: Codec, source: Option<Source>, fates: seq<Fate>) returns (outcome: Outcome)
      requires Frozen(source)
      modifies this
      ensures Remaining(codec, source, tables, phase, cursor) == old(Remaining(codec, source, tables, phase, cursor))
      ensures outcome == Completed ==> phase == Complete
      ensures outcome == Cancelled ==> StoppedBy(fates, Cancels)
      ensures outcome == Failed && Remaining(codec, source, tables, phase, cursor).Some? ==> StoppedBy(fates, CommitFails)
      ensures old(phase) == Complete ==> outcome == Completed && tables == old(tables) && cursor == old(cursor)
      ensures Uninterrupted(fates) ==>
                outcome == if old(Remaining(codec, source, tables, phase, cursor)).Some? then Completed else Failed
    {
      hide Pass, Beyond;
      if phase == Complete {
        return Completed;
      }
      if source == None {
        phase := Complete;
        return Completed;
      }
      var turn := 0;
      while phase != Complete
        invariant Remaining(codec, source, tables, phase, cursor) == old(Remaining(codec, source, tables, phase, cursor))
        invariant 0 <= turn && forall j :: 0 <= j < turn && j < |fates| ==> fates[j] == Runs
        decreases Left(source.value, phase, cursor).0, Left(source.value, phase, cursor).1
      {
        var fate := if turn < |fates| then fates[turn] else Runs;
        if fate == Cancels {
          return Cancelled;
        }
        var ok := RunBatch(codec, source.value, fate != CommitFails);
        if !ok {
          return Failed;
        }
        turn := turn + 1;
      }
      outcome := Completed;
    }
  }

  /**
   Any number of runs, each ended by cancellation, a failed commit, a crash between batches or
   its own completion. Once complete, the tables are those of one pass over the positive rowids.
   */
  method MigrateUntilComplete(db: Database, codec: Codec, source: Source, runs: seq<seq<Fate>>)
    requires Sorted(source.entries) && Sorted(source.keys) && db.phase == Entries && db.cursor == 0
    modifies db
    ensures db.phase == Complete ==>
              OnePass(codec, Beyond(source.entries, 0), Beyond(source.keys, 0), old(db.tables)) == Some(db.tables)
    ensures runs != [] && Uninterrupted(runs[|runs| - 1]) ==>
              (db.phase == Complete <==> OnePass(codec, Beyond(source.entries, 0), Beyond(source.keys, 0), old(db.tables)).Some?)
  {
    hide OnePass, Beyond, Pass;
    var i := 0;
    while i < |runs|
      invariant i <= |runs|
      invariant Remaining(codec, Some(source), db.tables, db.phase, db.cursor)
                  == OnePass(codec, Beyond(source.entries, 0), Beyond(source.keys, 0), old(db.tables))
      invariant i == |runs| && runs != [] && Uninterrupted(runs[i - 1]) ==>
                  (db.phase == Complete <==> OnePass(codec, Beyond(source.entries, 0), Beyond(source.keys, 0), old(db.tables)).Some?)
    {
      var outcome := db.Migrate(codec, Some(source), runs[i]);
      i := i + 1;
    }
  }
}
