/**
 * The `database_mock` fixture of pytest_pymysql_autorecord: which mode the
 * command-line flags select, where the snapshots live, what it publishes in
 * the environment, and when it writes the ledger back.
 */
module AutorecordPlugin {
  import opened Paths
  import opened Ledger
  import opened Modes
  import opened Session
  import opened AutorecordUtil

  /** `--store-db-data`, `--mock-db-data` and `--db-data-dir`. */
  datatype Options = Options(storeDbData: bool, mockDbData: bool, dbDataDir: Option<string>)

  /** The process environment. */
  type Env = map<string, string>

  const DataDirVariable := "PMSM_DATA_DIR"
  const ModeVariable := "PMSM_MODE"

  /** The `pytest.fail` raised when a flag is given without a data directory. */
  const NoDataDir := Error("Failed",
    "The command line option --db-data-dir must be used with the --store-db-data or --mock-db-data flag. "
    + "Alternatively, you can set the environment variable PMSM_DATA_DIR.", false)

  /** `os.getenv(name)` */
  function Getenv(env: Env, name: string): Option<string> {
    if name in env then Some(env[name]) else None
  }

  /**
   * `db_data_dir`: the `--db-data-dir` option when it is a non-empty string;
   * otherwise `PMSM_DATA_DIR` whenever it is set, even to the empty string.
   */
  function ResolveDataDir(option: Option<string>, env: Env): (r: Option<Path>)
    ensures option.Some? && option.value != "" ==> r == Some(PathOf(option.value))
    ensures (option.None? || option.value == "") && DataDirVariable in env ==> r == Some(PathOf(env[DataDirVariable]))
    ensures r.None? <==> (option.None? || option.value == "") && DataDirVariable !in env
  {
    var fromOption := if option.Some? && option.value != "" then Some(PathOf(option.value)) else None;
    if fromOption.None? && Getenv(env, DataDirVariable).Some? then Some(PathOf(Getenv(env, DataDirVariable).value))
    else fromOption
  }

  /**
   * The fixture's checks, in their order, then the mode: both flags fail; a
   * flag without a data directory fails; otherwise storing, mocking or NORMAL.
   */
  function ResolveMode(o: Options, dataDir: Option<Path>): (r: Result<Mode>)
    ensures o.storeDbData && o.mockDbData ==> r == Err(BothFlags)
    ensures !(o.storeDbData && o.mockDbData) && (o.storeDbData || o.mockDbData) && dataDir.None? ==> r == Err(NoDataDir)
    ensures r.Ok? <==> !(o.storeDbData && o.mockDbData) && (dataDir.Some? || !(o.storeDbData || o.mockDbData))
    ensures r.Ok? ==>
      && (r.value == StoreData <==> o.storeDbData)
      && (r.value == Mock <==> o.mockDbData)
      && (r.value != Normal ==> dataDir.Some?)
  {
    if o.storeDbData && o.mockDbData then Err(BothFlags)
    else if (o.storeDbData || o.mockDbData) && dataDir.None? then Err(NoDataDir)
    else Ok(FlagMode(o.storeDbData, o.mockDbData))
  }

  /**
   * The fixture up to its `yield`: resolves the data directory and the mode,
   * publishes the mode in `PMSM_MODE`, and builds the `DatabaseMock`, whose
   * construction can fail as well. `pymysql.connect` is then replaced by
   * `AutorecordConnect.MockConnect` on the fixture returned.
   */
  method SetUp(o: Options, env: Env, request: Request, tempDir: Path, store: Store)
    returns (r: Result<DatabaseMock>, envAfter: Env)
    ensures var dataDir := ResolveDataDir(o.dbDataDir, env);
      && (ResolveMode(o, dataDir).Err? ==> r == Err(ResolveMode(o, dataDir).error) && envAfter == env)
      && (ResolveMode(o, dataDir).Ok? ==>
            var mode := ResolveMode(o, dataDir).value;
            && envAfter == env[ModeVariable := ModeValue(mode)]
            && (TestDataDir(dataDir, request, tempDir).Err? ==> r == Err(NotUnderRoot))
            && (TestDataDir(dataDir, request, tempDir).Ok? ==>
                  var path := SnapshotPath(TestDataDir(dataDir, request, tempDir).value, request.nodeName);
                  && (r.Err? <==> mode == Mock && path !in store)
                  && (r.Err? ==> r.error == MissingFile)
                  && (r.Ok? ==>
                        && fresh(r.value) && r.value.mode == mode && r.value.Filepath() == path
                        && r.value.data == (if mode == Mock then store[path] else map[]))))
  {
    var dataDir := ResolveDataDir(o.dbDataDir, env);
    var mode := ResolveMode(o, dataDir);
    if mode.Err? {
      return Err(mode.error), env;
    }
    envAfter := env[ModeVariable := ModeValue(mode.value)];
    r := Open(mode.value, dataDir, request, tempDir, store);
  }

  /** After the `yield`: the ledger is written to the snapshot path exactly when `--store-db-data` was given. */
  method TearDown(o: Options, db: DatabaseMock, store: Store) returns (written: Store)
    ensures o.storeDbData ==> written == WriteData(store, db.Filepath(), db.data)
    ensures !o.storeDbData ==> written == store
  {
    written := store;
    if o.storeDbData {
      written := db.WriteData(store);
    }
  }

  /** Once the fixture is set up, `skip_for_db_mocking` skips exactly when one of the two flags was given. */
  lemma SkipAfterSetUp(o: Options, dataDir: Option<Path>)
    requires ResolveMode(o, dataDir).Ok?
    ensures SkipForDbMocking(Some(ModeValue(ResolveMode(o, dataDir).value))) <==> o.storeDbData || o.mockDbData
  {
    SkipFollowsMode(ResolveMode(o, dataDir).value);
  }

  /**
   * The promise of the plugin: a run with `--store-db-data` that sets up
   * records session `s` and writes its ledger at teardown; a later run of the
   * same test with `--mock-db-data` and the same data directory then sets up
   * too, loads that ledger from the same path, and answers every member read
   * from the ledger as the real database did, provided those outcomes are
   * ones the proxies reproduce and the test does not itself read a
   * connection key the real cursor wrote (see `Session.CallbackShiftsReplay`).
   */
  lemma StoreThenMock(dir: Option<string>, env: Env, request: Request, tempDir: Path, store: Store, s: seq<Intercepted>)
    requires ResolveMode(Options(true, false, dir), ResolveDataDir(dir, env)).Ok?
    requires TestDataDir(ResolveDataDir(dir, env), request, tempDir).Ok?
    requires AllReplayable(PoppedCalls(Capturing, s))
    requires NoCallbackReads(Capturing, s)
    ensures ResolveMode(Options(false, true, dir), ResolveDataDir(dir, env)) == Ok(Mock)
    ensures var path := SnapshotPath(TestDataDir(ResolveDataDir(dir, env), request, tempDir).value, request.nodeName);
      var stored := WriteData(store, path, RecordTrace(map[], WrittenCalls(Capturing, s)));
      && path in stored
      && ReplayTrace(stored[path], PoppedCalls(Capturing, s)).outcomes == Reals(PoppedCalls(Capturing, s))
  {
    SessionRoundTrip(Capturing, s);
  }
}
