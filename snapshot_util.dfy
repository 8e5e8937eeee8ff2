/**
 * `DatabaseMockFixture` of the older pytest_pymysql_snapshot_mock package:
 * the same ledger as `AutorecordUtil.DatabaseMock`, kept next to the test
 * file (`original_datadir`) instead of under a configured data directory.
 */
module SnapshotUtil {
  import opened Paths
  import opened Ledger
  import opened Modes
  import opened Surface

  class DatabaseMockFixture {
    const mode: Mode
    const request: Request
    /** `_original_datadir` */
    const originalDatadir: Path
    /** `_data`: one FIFO queue of recorded values per key. */
    var data: LedgerMap

    /** `__init__` once, in MOCK mode, the snapshot has been read (see `Open`). */
    constructor (mode: Mode, originalDatadir: Path, request: Request, snapshot: LedgerMap)
      ensures this.mode == mode && this.request == request && this.originalDatadir == originalDatadir
      ensures data == if mode == Mock then snapshot else map[]
    {
      this.mode := mode;
      this.request := request;
      this.originalDatadir := originalDatadir;
      data := if mode == Mock then snapshot else map[];
    }

    /** `_filepath`: the snapshot of this test node, next to the test file. */
    function Filepath(): (p: Path)
      ensures Parent(p) == originalDatadir && Name(p) == Basename(request.nodeName)
      ensures '/' !in Name(p)
    {
      BasenameHasNoSeparator(request.nodeName);
      SnapshotPath(originalDatadir, request.nodeName)
    }

    /** `_record_value`: appends to the queue of `key` and to no other. */
    method RecordValue(key: Key, value: Value)
      modifies this
      ensures data == Append(old(data), key, value)
    {
      data := data[key := Queue(data, key) + [value]];
    }

    /** `_read_value`: removes and returns the head of the queue of `key`; IndexError when it is empty. */
    method ReadValue(key: Key) returns (r: Outcome)
      modifies this
      ensures Pop(old(data), key) == Popped(r, data)
    {
      var q := Queue(data, key);
      if q == [] {
        data := data[key := []];
        r := Raised(EmptyPop);
      } else {
        data := data[key := q[1..]];
        r := Returned(q[0]);
      }
    }

    /**
     * `user_value`: stores and returns `value` when storing, pops the stored
     * value (ignoring `value`) when mocking, returns `value` otherwise.
     */
    method UserValue(value: Value) returns (r: Outcome)
      modifies this
      ensures mode == StoreData ==> r == Returned(value) && data == Append(old(data), UserKey, value)
      ensures mode == Mock ==> Pop(old(data), UserKey) == Popped(r, data)
      ensures mode == Normal ==> r == Returned(value) && data == old(data)
    {
      match mode
      case StoreData =>
        RecordValue(UserKey, value);
        r := Returned(value);
      case Mock =>
        r := ReadValue(UserKey);
      case Normal =>
        r := Returned(value);
    }

    /** `_write_data`: the store with this ledger at this test's snapshot path. */
    method WriteData(store: Store) returns (written: Store)
      ensures written == Ledger.WriteData(store, Filepath(), data)
      ensures ReadData(written, Filepath()) == Ok(data)
    {
      written := store[Filepath() := data];
    }
  }

  /** `DatabaseMockFixture(mode, original_datadir, request)`: fails only when MOCK mode finds no snapshot. */
  method Open(mode: Mode, originalDatadir: Path, request: Request, store: Store)
    returns (r: Result<DatabaseMockFixture>)
    ensures var path := SnapshotPath(originalDatadir, request.nodeName);
      && (r.Err? <==> mode == Mock && path !in store)
      && (r.Err? ==> r.error == MissingFile)
      && (r.Ok? ==> fresh(r.value) && r.value.mode == mode && r.value.request == request
                    && r.value.originalDatadir == originalDatadir && r.value.Filepath() == path
                    && r.value.data == (if mode == Mock then store[path] else map[]))
  {
    var snapshot: LedgerMap := map[];
    if mode == Mock {
      var loaded := ReadData(store, SnapshotPath(originalDatadir, request.nodeName));
      if loaded.Err? {
        return Err(loaded.error);
      }
      snapshot := loaded.value;
    }
    var db := new DatabaseMockFixture(mode, originalDatadir, request, snapshot);
    r := Ok(db);
  }
}
