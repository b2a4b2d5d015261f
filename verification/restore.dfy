/** `restore_database` (restore_from_backup.py): copies every table of a
    backup SQLite database into the main database, over the columns the
    two schemas share. A database is a map from table name to its column
    set and rows; the failures SQLite could raise while a table is copied
    are an input. */
module Restore {
  import opened Common

  /** A stored SQLite value. */
  datatype Value = VNull | VInt(i: int) | VText(s: string) | VBlob(b: seq<int>)

  type Row = map<string, Value>

  datatype Table = Table(columns: set<string>, rows: seq<Row>)

  type Db = map<string, Table>

  /** Where an exception inside the per-table `try` is raised: reading the
      two schemas, reading the primary key or the row count, or while
      deleting, copying and committing the rows. */
  datatype Stage = ReadingSchema | Counting | Copying

  /** What SQLite does to one table of the restore: the exception it raises
      (if any), and the indices of the backup rows whose `INSERT` raises an
      `IntegrityError`. */
  datatype TableFaults = TableFaults(raises: Option<(Stage, string)>, rejected: set<nat>)

  const NoFaults := TableFaults(None, {})

  function FaultsOf(faults: map<string, TableFaults>, name: string): TableFaults {
    if name in faults then faults[name] else NoFaults
  }

  function RaisesAt(tf: TableFaults, s: Stage): bool {
    tf.raises.Some? && tf.raises.value.0 == s
  }

  /** Why a table was skipped, in the order the checks run. */
  datatype SkipReason = InSkipList | NotInMain | NoCommonColumns | EmptyTable

  datatype Verdict =
    | Skipped(reason: SkipReason)
    | Failed(message: string)
    | Processed(rows: seq<Row>)   // the rows the main table holds afterwards

  /** `row` restricted to the columns `cols`. */
  function Project(row: Row, cols: set<string>): (r: Row)
    ensures r.Keys == row.Keys * cols
    ensures forall c :: c in r ==> r[c] == row[c]
  {
    map c | c in row.Keys * cols :: row[c]
  }

  /** The backup rows, from index `base` on, that are inserted: each one
      projected onto the copied columns, minus those a constraint rejects. */
  function Inserted(rows: seq<Row>, cols: set<string>, rejected: set<nat>, base: nat): (r: seq<Row>)
    ensures |r| <= |rows|
    ensures forall j :: 0 <= j < |r| ==> r[j].Keys <= cols
    decreases |rows|
  {
    if |rows| == 0 then []
    else
      var rest := Inserted(rows[1..], cols, rejected, base + 1);
      if base in rejected then rest else [Project(rows[0], cols)] + rest
  }

  /** Without constraint violations every row is inserted, in order. */
  lemma {:induction false} InsertedAll(rows: seq<Row>, cols: set<string>, rejected: set<nat>, base: nat)
    requires forall i :: base <= i < base + |rows| ==> i !in rejected
    ensures |Inserted(rows, cols, rejected, base)| == |rows|
    ensures forall j :: 0 <= j < |rows| ==> Inserted(rows, cols, rejected, base)[j] == Project(rows[j], cols)
    decreases |rows|
  {
    if |rows| > 0 {
      InsertedAll(rows[1..], cols, rejected, base + 1);
    }
  }

  /** `x` is the projection of a backup row, at or after index `base`, that was not rejected. */
  ghost predicate FromBackup(x: Row, rows: seq<Row>, cols: set<string>, rejected: set<nat>, base: nat) {
    exists i :: 0 <= i < |rows| && base + i !in rejected && x == Project(rows[i], cols)
  }

  /** Every inserted row is the projection of a backup row that was not rejected. */
  lemma {:induction false} InsertedFromBackup(rows: seq<Row>, cols: set<string>, rejected: set<nat>, base: nat)
    ensures forall j :: 0 <= j < |Inserted(rows, cols, rejected, base)| ==>
      FromBackup(Inserted(rows, cols, rejected, base)[j], rows, cols, rejected, base)
    decreases |rows|
  {
    if |rows| > 0 {
      InsertedFromBackup(rows[1..], cols, rejected, base + 1);
      var r := Inserted(rows, cols, rejected, base);
      var rest := Inserted(rows[1..], cols, rejected, base + 1);
      forall j | 0 <= j < |r|
        ensures FromBackup(r[j], rows, cols, rejected, base)
      {
        if base in rejected {
          assert FromBackup(rest[j], rows[1..], cols, rejected, base + 1);
          var i :| 0 <= i < |rows[1..]| && base + 1 + i !in rejected && rest[j] == Project(rows[1..][i], cols);
          assert rows[i + 1] == rows[1..][i];
        } else if j == 0 {
          assert r[0] == Project(rows[0], cols);
        } else {
          assert r[j] == rest[j - 1];
          assert FromBackup(rest[j - 1], rows[1..], cols, rejected, base + 1);
          var i :| 0 <= i < |rows[1..]| && base + 1 + i !in rejected && rest[j - 1] == Project(rows[1..][i], cols);
          assert rows[i + 1] == rows[1..][i];
        }
      }
    }
  }

  /** The copied columns: those of both schemas. */
  function CommonColumns(backup: Table, main: Table): (cols: set<string>)
    ensures forall c :: c in cols <==> c in backup.columns && c in main.columns
  {
    backup.columns * main.columns
  }

  /** The body of the loop over the backup tables: the checks in order,
      and the rows the main table ends with when the table is processed. */
  function Classify(name: string, backup: Table, main: Db, skip: seq<string>, tf: TableFaults): (v: Verdict)
    ensures name in skip ==> v == Skipped(InSkipList)
    ensures name !in skip && name !in main ==> v == Skipped(NotInMain)
    ensures v == Skipped(NoCommonColumns) <==>
      name !in skip && name in main && !RaisesAt(tf, ReadingSchema) && CommonColumns(backup, main[name]) == {}
    ensures v == Skipped(EmptyTable) <==>
      name !in skip && name in main && !RaisesAt(tf, ReadingSchema) && CommonColumns(backup, main[name]) != {}
      && !RaisesAt(tf, Counting) && |backup.rows| == 0
    ensures v.Failed? <==>
      name !in skip && name in main && tf.raises.Some?
      && (RaisesAt(tf, ReadingSchema)
          || (CommonColumns(backup, main[name]) != {} && (RaisesAt(tf, Counting) || |backup.rows| > 0)))
    ensures v.Failed? ==> v.message == "Error processing table '" + name + "': " + tf.raises.value.1
    ensures v.Processed? <==>
      name !in skip && name in main && tf.raises.None? && CommonColumns(backup, main[name]) != {} && |backup.rows| > 0
    ensures v.Processed? ==>
      && name in main && tf.raises.None? && |backup.rows| > 0
      && v.rows == Inserted(backup.rows, CommonColumns(backup, main[name]), tf.rejected, 0)
  {
    var fail := if tf.raises.Some? then Failed("Error processing table '" + name + "': " + tf.raises.value.1) else Failed("");
    if name in skip then Skipped(InSkipList)
    else if name !in main then Skipped(NotInMain)
    else if RaisesAt(tf, ReadingSchema) then fail
    else
      var cols := CommonColumns(backup, main[name]);
      if cols == {} then Skipped(NoCommonColumns)
      else if RaisesAt(tf, Counting) then fail
      else if |backup.rows| == 0 then Skipped(EmptyTable)
      else if RaisesAt(tf, Copying) then fail
      else Processed(Inserted(backup.rows, cols, tf.rejected, 0))
  }

  /** The main database after a verdict: a processed table is replaced
      (its `DELETE` and `INSERT`s committed); anything else is rolled back. */
  function Apply(main: Db, name: string, v: Verdict): (r: Db)
    ensures r.Keys == main.Keys
    ensures forall n :: n in main && n != name ==> r[n] == main[n]
    ensures !v.Processed? ==> r == main
  {
    match v
    case Processed(rows) =>
      if name in main then main[name := Table(main[name].columns, rows)] else main
    case _ => main
  }

  /** The counters of the restore summary. */
  datatype RestoreStats = RestoreStats(processed: nat, rowsRestored: nat, skipped: nat, errors: seq<string>)

  function Count(stats: RestoreStats, v: Verdict): (r: RestoreStats)
    ensures r.processed + r.skipped + |r.errors| == stats.processed + stats.skipped + |stats.errors| + 1
    ensures v.Failed? <==> |r.errors| == |stats.errors| + 1
  {
    match v
    case Skipped(_) => stats.(skipped := stats.skipped + 1)
    case Failed(msg) => stats.(errors := stats.errors + [msg])
    case Processed(rows) => stats.(processed := stats.processed + 1, rowsRestored := stats.rowsRestored + |rows|)
  }

  datatype NamedTable = NamedTable(name: string, table: Table)

  /** The database and counters after the first `|backup|` backup tables,
      processed in order. */
  function RestoreAll(main: Db, backup: seq<NamedTable>, skip: seq<string>, faults: map<string, TableFaults>): (Db, RestoreStats)
    decreases |backup|
  {
    if |backup| == 0 then (main, RestoreStats(0, 0, 0, []))
    else
      var (db, stats) := RestoreAll(main, backup[..|backup| - 1], skip, faults);
      var t := backup[|backup| - 1];
      var v := Classify(t.name, t.table, db, skip, FaultsOf(faults, t.name));
      (Apply(db, t.name, v), Count(stats, v))
  }

  function Names(backup: seq<NamedTable>): set<string> {
    set t | t in backup :: t.name
  }

  /** Every backup table is counted exactly once; no table is created or
      dropped; a table the backup does not have, or one in the skip list,
      keeps its contents. */
  lemma {:induction false} RestoreAllAccounts(main: Db, backup: seq<NamedTable>, skip: seq<string>, faults: map<string, TableFaults>)
    ensures var (db, stats) := RestoreAll(main, backup, skip, faults);
      && stats.processed + stats.skipped + |stats.errors| == |backup|
      && db.Keys == main.Keys
      && (forall n :: n in main && (n !in Names(backup) || n in skip) ==> db[n] == main[n])
    decreases |backup|
  {
    if |backup| > 0 {
      var init := backup[..|backup| - 1];
      RestoreAllAccounts(main, init, skip, faults);
      assert Names(backup) == Names(init) + {backup[|backup| - 1].name};
    }
  }

  /** A processed table holds exactly the projected, accepted backup rows
      over the main schema; no more rows than the backup had. */
  lemma ProcessedTable(name: string, backup: Table, main: Db, skip: seq<string>, tf: TableFaults)
    requires Classify(name, backup, main, skip, tf).Processed?
    ensures var db := Apply(main, name, Classify(name, backup, main, skip, tf));
      && db[name].columns == main[name].columns
      && |db[name].rows| <= |backup.rows|
      && (forall j :: 0 <= j < |db[name].rows| ==> db[name].rows[j].Keys <= backup.columns * main[name].columns)
      && (tf.rejected == {} ==> |db[name].rows| == |backup.rows|)
  {
    if tf.rejected == {} {
      InsertedAll(backup.rows, CommonColumns(backup, main[name]), tf.rejected, 0);
    }
  }

  /** The outcome of a call: the returned flag, the main database after it,
      and the counters (`None` when the restore did not get to count). */
  datatype RestoreRun = RestoreRun(ok: bool, db: Db, stats: Option<RestoreStats>)

  /** The summary prints `len(stats['errors'] - 5)` when there are more than
      five errors: a `TypeError`, which the outer handler turns into `False`. */
  function SummaryRaises(stats: RestoreStats): bool {
    |stats.errors| > 5
  }

  /** `restore_database`. `backupExists` and `mainExists` are the
      `os.path.exists` checks; `listingRaises` is an exception while listing
      the tables, caught by the outer handler. */
  method RestoreDatabase(backupExists: bool, mainExists: bool, listingRaises: bool,
                         backup: seq<NamedTable>, main: Db, skip: seq<string>,
                         faults: map<string, TableFaults>) returns (run: RestoreRun)
    ensures !backupExists || !mainExists || listingRaises ==> run == RestoreRun(false, main, None)
    ensures backupExists && mainExists && !listingRaises ==>
      && run.stats.Some?
      && (run.db, run.stats.value) == RestoreAll(main, backup, skip, faults)
      && run.stats.value.processed + run.stats.value.skipped + |run.stats.value.errors| == |backup|
      && (run.ok <==> |run.stats.value.errors| == 0)
      && run.db.Keys == main.Keys
      && (forall n :: n in main && (n !in Names(backup) || n in skip) ==> run.db[n] == main[n])
  {
    if !backupExists || !mainExists || listingRaises {
      return RestoreRun(false, main, None);
    }
    var db := main;
    var stats := RestoreStats(0, 0, 0, []);
    var i := 0;
    while i < |backup|
      invariant 0 <= i <= |backup|
      invariant (db, stats) == RestoreAll(main, backup[..i], skip, faults)
    {
      var t := backup[i];
      var v := Classify(t.name, t.table, db, skip, FaultsOf(faults, t.name));
      db := Apply(db, t.name, v);
      stats := Count(stats, v);
      assert backup[..i + 1][..i] == backup[..i];
      i := i + 1;
    }
    assert backup[..i] == backup;
    RestoreAllAccounts(main, backup, skip, faults);
    var ok := if SummaryRaises(stats) then false else |stats.errors| == 0;
    return RestoreRun(ok, db, Some(stats));
  }
}
