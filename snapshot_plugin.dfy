/**
 * The `database_mock` fixture of pytest_pymysql_snapshot_mock: the same
 * flags without a data directory; snapshots live in the test file's own data
 * directory (`original_datadir`) and no mode is published.
 *
 * As written, the plugin module imports `DatabaseMock` from its `util`
 * module, which defines only `DatabaseMockFixture`; `AsWrittenImport` models
 * that import. `SetUp` builds the fixture the import evidently means.
 */
module SnapshotPlugin {
  import opened Paths
  import opened Ledger
  import opened Modes
  import opened Session
  import opened SnapshotUtil

  /** `--store-db-data` and `--mock-db-data`. */
  datatype Options = Options(storeDbData: bool, mockDbData: bool)

  /** Both flags fail; otherwise storing, mocking or NORMAL. */
  function ResolveMode(o: Options): (r: Result<Mode>)
    ensures r.Err? <==> o.storeDbData && o.mockDbData
    ensures r.Err? ==> r.error == BothFlags
    ensures r.Ok? ==> (r.value == StoreData <==> o.storeDbData) && (r.value == Mock <==> o.mockDbData)
  {
    if o.storeDbData && o.mockDbData then Err(BothFlags)
    else Ok(FlagMode(o.storeDbData, o.mockDbData))
  }

  /**
   * The fixture up to its `yield`: resolves the mode and builds the fixture
   * object, which fails only when mocking finds no snapshot.
   * `pymysql.connect` is then replaced by `SnapshotConnect.MockConnect`.
   */
  method SetUp(o: Options, originalDatadir: Path, request: Request, store: Store)
    returns (r: Result<DatabaseMockFixture>)
    ensures ResolveMode(o).Err? ==> r == Err(BothFlags)
    ensures ResolveMode(o).Ok? ==>
      var mode := ResolveMode(o).value;
      var path := SnapshotPath(originalDatadir, request.nodeName);
      && (r.Err? <==> mode == Mock && path !in store)
      && (r.Err? ==> r.error == MissingFile)
      && (r.Ok? ==>
            && fresh(r.value) && r.value.mode == mode && r.value.Filepath() == path
            && r.value.data == (if mode == Mock then store[path] else map[]))
  {
    var mode := ResolveMode(o);
    if mode.Err? {
      return Err(mode.error);
    }
    r := Open(mode.value, originalDatadir, request, store);
  }

  /** After the `yield`: the ledger is written exactly when `--store-db-data` was given. */
  method TearDown(o: Options, db: DatabaseMockFixture, store: Store) returns (written: Store)
    ensures o.storeDbData ==> written == WriteData(store, db.Filepath(), db.data)
    ensures !o.storeDbData ==> written == store
  {
    written := store;
    if o.storeDbData {
      written := db.WriteData(store);
    }
  }

  /**
   * A run with `--store-db-data` that records session `s`, then a run with
   * `--mock-db-data`: the second loads the ledger the first wrote and
   * answers every member read from the ledger as the real database did,
   * provided every such call returned rather than raised and the test does
   * not itself read a connection key the real cursor wrote.
   */
  lemma StoreThenMock(originalDatadir: Path, request: Request, store: Store, s: seq<Intercepted>)
    requires AllReplayable(PoppedCalls(Plain, s))
    requires NoCallbackReads(Plain, s)
    ensures ResolveMode(Options(true, false)) == Ok(StoreData) && ResolveMode(Options(false, true)) == Ok(Mock)
    ensures var path := SnapshotPath(originalDatadir, request.nodeName);
      var stored := WriteData(store, path, RecordTrace(map[], WrittenCalls(Plain, s)));
      && path in stored
      && ReplayTrace(stored[path], PoppedCalls(Plain, s)).outcomes == Reals(PoppedCalls(Plain, s))
  {
    SessionRoundTrip(Plain, s);
  }

  // ---------------------------------------------------------------------------
  // The import as written

  /** The names the package's `util` module defines or imports at top level. */
  const UtilNames: set<string> :=
    {"enum", "pickle", "re", "defaultdict", "Path", "Dict", "List", "Any", "cast",
     "FixtureRequest", "Mode", "DatabaseMockFixture"}

  /** `from .util import DatabaseMock, Mode`: the ImportError it raises, if any. */
  function AsWrittenImport(): (r: Option<Error>)
    ensures r.None? <==> "DatabaseMock" in UtilNames && "Mode" in UtilNames
    ensures r.Some? ==> r.value.kind == "ImportError"
  {
    if "DatabaseMock" in UtilNames && "Mode" in UtilNames then None
    else Some(Error("ImportError", "cannot import name 'DatabaseMock' from 'pytest_pymysql_snapshot_mock.util'", true))
  }

  /** As written, loading the plugin fails, so none of its fixture runs; the intended name is defined. */
  lemma AsWrittenImportFails()
    ensures AsWrittenImport().Some? && AsWrittenImport().value.kind == "ImportError"
    ensures "DatabaseMockFixture" in UtilNames
  {
    assert "DatabaseMock" != "DatabaseMockFixture" by {
      assert |"DatabaseMock"| != |"DatabaseMockFixture"|;
    }
    assert "DatabaseMock" !in UtilNames;
  }
}
