/**
 * `DatabaseMock` of the pytest_pymysql_autorecord package: the ledger one
 * test owns, where its snapshot lives, and `user_value`.
 */
module AutorecordUtil {
  import opened Paths
  import opened Ledger
  import opened Modes
  import opened Surface

  /** What `Path.relative_to` raises when the test file is not under the root. */
  const NotUnderRoot := Error("ValueError", "test directory is not in the subpath of rootpath", true)

  /**
   * `_test_data_dir`: the system temporary directory when no data directory is
   * configured; otherwise the data directory, then the test file's directory
   * relative to the root, then the stem of the test module's file name.
   */
  function TestDataDir(dbDataDir: Option<Path>, request: Request, tempDir: Path): (r: Result<Path>)
    ensures dbDataDir.None? ==> r == Ok(tempDir)
    ensures dbDataDir.Some? ==> (r.Ok? <==> request.rootpath <= Parent(request.path))
    ensures dbDataDir.Some? && r.Err? ==> r.error == NotUnderRoot
    ensures dbDataDir.Some? && r.Ok? ==>
      && |r.value| > |dbDataDir.value|
      && r.value[..|dbDataDir.value|] == dbDataDir.value
      && request.rootpath + r.value[|dbDataDir.value|..|r.value| - 1] == Parent(request.path)
      && Name(r.value) == Stem(Name(request.moduleFile))
  {
    match dbDataDir
    case None => Ok(tempDir)
    case Some(dir) =>
      match RelativeTo(Parent(request.path), request.rootpath)
      case NotRelative => Err(NotUnderRoot)
      case Relative(parentDir) =>
        var r := dir + parentDir + [Stem(Name(request.moduleFile))];
        assert r[|dir|..|r| - 1] == parentDir;
        Ok(r)
  }

  class DatabaseMock {
    const mode: Mode
    const request: Request
    /** `_data_dir` */
    const dataDir: Path
    /** `_data`: one FIFO queue of recorded values per key. */
    var data: LedgerMap

    /**
     * `__init__` once its data directory is computed and, in MOCK mode, the
     * snapshot has been read (see `Open` for the steps that can fail).
     */
    constructor (mode: Mode, request: Request, dataDir: Path, snapshot: LedgerMap)
      ensures this.mode == mode && this.request == request && this.dataDir == dataDir
      ensures data == if mode == Mock then snapshot else map[]
    {
      this.mode := mode;
      this.request := request;
      this.dataDir := dataDir;
      data := if mode == Mock then snapshot else map[];
    }

    /** `_filepath`: the snapshot of this test node, inside the data directory. */
    function Filepath(): (p: Path)
      ensures Parent(p) == dataDir && Name(p) == Basename(request.nodeName)
      ensures '/' !in Name(p)
    {
      BasenameHasNoSeparator(request.nodeName);
      SnapshotPath(dataDir, request.nodeName)
    }

    /** `_record_value`: appends to the queue of `key` and to no other. */
    method RecordValue(key: Key, value: Value)
      modifies this
      ensures data == Append(old(data), key, value)
    {
      data := data[key := Queue(data, key) + [value]];
    }

    /** `_read_value`: removes and returns the head of the queue of `key`; IndexError when it is empty. */
    method ReadValue(key: Key) returns (r: Outcome)
      modifies this
      ensures Pop(old(data), key) == Popped(r, data)
    {
      var q := Queue(data, key);
      if q == [] {
        data := data[key := []];
        r := Raised(EmptyPop);
      } else {
        data := data[key := q[1..]];
        r := Returned(q[0]);
      }
    }

    /**
     * `user_value`: stores and returns `value` when storing, pops the stored
     * value (ignoring `value`) when mocking, returns `value` otherwise.
     */
    method UserValue(value: Value) returns (r: Outcome)
      modifies this
      ensures mode == StoreData ==> r == Returned(value) && data == Append(old(data), UserKey, value)
      ensures mode == Mock ==> Pop(old(data), UserKey) == Popped(r, data)
      ensures mode == Normal ==> r == Returned(value) && data == old(data)
    {
      match mode
      case StoreData =>
        RecordValue(UserKey, value);
        r := Returned(value);
      case Mock =>
        r := ReadValue(UserKey);
      case Normal =>
        r := Returned(value);
    }

    /** `_write_data`: the store with this ledger at this test's snapshot path. */
    method WriteData(store: Store) returns (written: Store)
      ensures written == Ledger.WriteData(store, Filepath(), data)
      ensures ReadData(written, Filepath()) == Ok(data)
    {
      written := store[Filepath() := data];
    }
  }

  /**
   * `DatabaseMock(mode, db_data_dir, request)`, with the ways it fails: the
   * test directory is not under the root (only with a data directory), or
   * MOCK mode finds no snapshot file.
   */
  method Open(mode: Mode, dbDataDir: Option<Path>, request: Request, tempDir: Path, store: Store)
    returns (r: Result<DatabaseMock>)
    ensures TestDataDir(dbDataDir, request, tempDir).Err? ==> r == Err(NotUnderRoot)
    ensures TestDataDir(dbDataDir, request, tempDir).Ok? ==>
      var dir := TestDataDir(dbDataDir, request, tempDir).value;
      var path := SnapshotPath(dir, request.nodeName);
      && (r.Err? <==> mode == Mock && path !in store)
      && (r.Err? ==> r.error == MissingFile)
      && (r.Ok? ==> fresh(r.value) && r.value.mode == mode && r.value.request == request
                    && r.value.dataDir == dir && r.value.Filepath() == path
                    && r.value.data == (if mode == Mock then store[path] else map[]))
  {
    var dir := TestDataDir(dbDataDir, request, tempDir);
    if dir.Err? {
      return Err(dir.error);
    }
    var snapshot: LedgerMap := map[];
    if mode == Mock {
      var loaded := ReadData(store, SnapshotPath(dir.value, request.nodeName));
      if loaded.Err? {
        return Err(loaded.error);
      }
      snapshot := loaded.value;
    }
    var db := new DatabaseMock(mode, request, dir.value, snapshot);
    r := Ok(db);
  }
}
