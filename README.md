# Record/replay ledger of the pytest PyMySQL fake, in Dafny

This project models the core of two pytest plugins that fake PyMySQL:
pytest_pymysql_autorecord and its predecessor pytest_pymysql_snapshot_mock.
Each test gets a `database_mock` fixture that runs in one of three modes:

- STORE_DATA: `pymysql.connect` returns a recording connection around a
  real one. Its cursors are recording cursors. Every result the code under
  test reads is appended to a ledger, and at teardown the ledger is written
  to a snapshot file named after the test node.
- MOCK: the ledger is loaded from that file. `connect` returns a mock
  connection whose cursors answer every read by popping the ledger.
- NORMAL: nothing is intercepted.

The ledger is a dictionary from call-site keys (`cursor--fetchone`,
`connection--insert_id`, `user--stored-value`) to FIFO queues. Touching a
missing key creates an empty queue, and popping an empty queue raises
IndexError.

Modules, one per source file plus five shared ones:

- `Paths`: snapshot file names (`re.sub(r"[\W]", "_", …) + ".db"`),
  `Path.stem`, `Path.parent` and `Path.relative_to`.
- `Ledger`: the ledger itself and its two recording/replay disciplines.
  - Capturing: the autorecord cursors. A failed real call stores its
    exception, the mock raises it, and a stored exception object is raised
    on replay.
  - Plain: the autorecord connections, `user_value`, and everything in
    snapshot_mock. Failures are not stored, and popped values are returned
    as they are.

  This module also holds the round-trip theorem, iteration of a mock cursor,
  and the snapshot store.
- `Modes`: the mode enum, flag-to-mode selection and `skip_for_db_mocking`.
- `Surface`: the PyMySQL members the proxies define, the ledger keys, and
  how each proxy class treats each member.
- `Session`: a whole test session, and the theorem that replaying a
  recorded session reproduces it.
- `AutorecordUtil` / `SnapshotUtil`: the `DatabaseMock` and
  `DatabaseMockFixture` classes, with `Open` covering their failing
  construction.
- `AutorecordConnect` / `SnapshotConnect`: the four proxy classes and
  `mock_connect`.
- `AutorecordPlugin` / `SnapshotPlugin`: the fixtures.

The real PyMySQL objects are oracles. A recording proxy calls
`RealObject.Invoke(name, answer)`, and `answer` (what the real member
returns or raises) is a parameter. `Backend` stands for `pymysql.connect`.
The environment, the temporary directory and the file system (`Store`, a
map from path to ledger) are also parameters.

Where the plugin's docstring and its code disagree, the model follows the
code. The docstring names the environment variable `PMSM_DB_DATA_DIR`, but
the code reads `PMSM_DATA_DIR`.

## Model

| member | source | states |
|---|---|---|
| Ledger.Append | src/pytest_pymysql_autorecord/util.py:125-126 | appending adds the value at the end of its key's queue, changes no other queue, and creates the key if it was missing |
| Ledger.Pop | src/pytest_pymysql_autorecord/util.py:128-129 | popping yields the head of the key's queue and leaves its tail; an empty or missing queue yields IndexError("pop from empty list") and is left present and empty; other queues are unchanged |
| Ledger.AppendAllQueues | src/pytest_pymysql_autorecord/util.py:125-126 | appending a sequence under one key extends that queue by the sequence and no other queue |
| Ledger.PopTimesYieldsHead | src/pytest_pymysql_autorecord/util.py:128-129 | up to the queue's length, n pops yield its first n entries in order and leave the rest |
| Ledger.PopTimesSplit | src/pytest_pymysql_autorecord/util.py:128-129 | n + 1 pops are n pops followed by one more on what they leave |
| Ledger.PopTimesOverrun | src/pytest_pymysql_autorecord/util.py:128-129 | one pop beyond the queue's length yields the whole queue and then IndexError |
| Ledger.FifoPerKey | src/pytest_pymysql_autorecord/util.py:125-129 | per key the ledger is first in, first out: what is appended is popped back in the same order, then IndexError |
| Ledger.Captured | src/pytest_pymysql_autorecord/connect.py:137-144 | a recorder stores every returned value; a raised error is stored only under the capturing discipline and only if it is an `Exception` |
| Ledger.Replayed | src/pytest_pymysql_autorecord/connect.py:14-18 | a plain mock returns what it pops unchanged; every mock propagates IndexError from an empty queue |
| Ledger.CallRoundTrip | src/pytest_pymysql_autorecord/connect.py:14-18 | for one call, what the recorder stores replays as the real outcome exactly when the outcome is replayable under the call's discipline (both directions) |
| Ledger.RecordTraceQueues | src/pytest_pymysql_autorecord/connect.py:137-144 | after recording a sequence of calls, each key's queue is its old queue followed by what those calls stored under that key |
| Ledger.ReplayRecordedPrefix | src/pytest_pymysql_autorecord/connect.py:14-18 | provided every call is replayable (under the plain discipline it returned; under the capturing discipline it returned a value that is not an `Exception` instance, or raised an `Exception`), replaying calls whose recorded entries are a prefix of each queue reproduces their real outcomes and consumes exactly those entries |
| Ledger.RoundTrip | src/pytest_pymysql_autorecord/connect.py:137-144 | recording any interleaving of replayable calls into a fresh ledger and replaying the same calls reproduces every real outcome in order and drains every queue |
| Ledger.PlainFailureIsNotReplayed | src/pytest_pymysql_autorecord/connect.py:377-380 | a connection call that raised during recording is not stored, so its replay raises IndexError instead of the original error |
| Ledger.CapturingRaisesReturnedException | src/pytest_pymysql_autorecord/connect.py:14-18 | a cursor call that returned an exception object is raised, not returned, on replay |
| Ledger.FetchUntilNone | src/pytest_pymysql_autorecord/connect.py:115-116 | iterating a mock cursor yields no None row, ends with None or with an error, and leaves no more of the queue than it found, strictly less when the queue was not empty; that what is left is a suffix of the queue is stated by `FetchUntilNoneSplits` |
| Ledger.FetchUntilNoneSplits | src/pytest_pymysql_autorecord/connect.py:115-116 | iteration consumes the queue through its first None; without a None it yields the whole queue and ends with IndexError; under capturing it can stop early at a stored exception, which it raises |
| Ledger.ReadData | src/pytest_pymysql_autorecord/util.py:120-123 | loading a snapshot yields the ledger stored at the path, or FileNotFoundError when there is none |
| Ledger.ReadAfterWrite | src/pytest_pymysql_autorecord/util.py:115-123 | a snapshot written to a path reads back as the same ledger; other paths are unaffected |
| Paths.PathOf | src/pytest_pymysql_autorecord/plugin.py:80-86 | a configured directory string names the empty (current) path exactly when it is empty |
| Paths.Sanitize | src/pytest_pymysql_autorecord/util.py:133 | sanitising keeps the length of the node name; position by position it is stated by `SanitizeAt` |
| Paths.SanitizeAt | src/pytest_pymysql_autorecord/util.py:133 | sanitising keeps each word character in place and replaces every other character with `_` |
| Paths.SanitizeWordOnly | src/pytest_pymysql_autorecord/util.py:133 | a sanitised node name holds only word characters |
| Paths.SanitizeFixesWordNames | src/pytest_pymysql_autorecord/util.py:133 | a node name made only of word characters is unchanged |
| Paths.SanitizeIdempotent | src/pytest_pymysql_autorecord/util.py:133 | sanitising twice equals sanitising once |
| Paths.Basename | src/pytest_pymysql_autorecord/util.py:133-136 | the snapshot name is the sanitised node name followed by `.db` |
| Paths.BasenameHasNoSeparator | src/pytest_pymysql_autorecord/util.py:133-136 | a snapshot name never contains `/`, so it stays one path component inside the data directory |
| Paths.BasenameCollides | src/pytest_pymysql_autorecord/util.py:133 | two different parametrised nodes (`test_x[a-b]`, `test_x[a_b]`) share one snapshot file |
| Paths.SnapshotPath | src/pytest_pymysql_autorecord/util.py:131-136 | the snapshot lives directly in the data directory under the sanitised basename |
| Paths.RFind | src/pytest_pymysql_autorecord/util.py:112 | the index found holds the character and no later index does; -1 exactly when the character is absent |
| Paths.Stem | src/pytest_pymysql_autorecord/util.py:112 | the stem is a prefix of the name; it differs from the name exactly when the name has a last `.` that is neither its first nor its last character, and then it is the name up to that `.` |
| Paths.StemOfModuleFile | src/pytest_pymysql_autorecord/util.py:112 | `test_foo.py` gives the stem `test_foo`; a dotfile and a name without a dot are their own stems |
| Paths.Parent | src/pytest_pymysql_autorecord/util.py:111 | the parent is the path minus its last component |
| Paths.RelativeTo | src/pytest_pymysql_autorecord/util.py:111 | the relative path exists exactly when the base is a prefix, and base plus the relative path rebuilds the path |
| Modes.ModeValue | src/pytest_pymysql_autorecord/util.py:14-22 | each mode publishes one of the three enum values, and `Normal` exactly for NORMAL |
| Modes.FlagMode | src/pytest_pymysql_autorecord/plugin.py:100-105 | when not both flags are given, STORE_DATA exactly for the store flag, MOCK exactly for the mock flag, NORMAL exactly when neither is given |
| Modes.ModeOf | src/pytest_pymysql_autorecord/util.py:14-22 | a string names a mode exactly when it is one of the three values, and then names the mode with that value |
| Modes.ModeValueRoundTrip | src/pytest_pymysql_autorecord/util.py:14-22 | the three mode values are distinct and each reads back as its mode |
| Modes.SkipForDbMocking | src/pytest_pymysql_autorecord/util.py:148-152 | a test is skipped exactly when `PMSM_MODE` is not `Normal`, including when it is unset |
| Modes.SkipFollowsMode | src/pytest_pymysql_autorecord/util.py:148-152 | once a mode is published, a test is skipped exactly when the mode is not NORMAL |
| Surface.CursorKey | src/pytest_pymysql_autorecord/connect.py:15 | a cursor key is `cursor--` followed by the member name, with no cursor identity |
| Surface.ConnectionKey | src/pytest_pymysql_autorecord/connect.py:261 | a connection key is `connection--` followed by the member name |
| Surface.KeysAreSeparate | src/pytest_pymysql_autorecord/connect.py:15 | cursor, connection and user-value keys never collide, and each key determines its member name |
| Surface.MockCursorAnswer | src/pytest_pymysql_autorecord/connect.py:10-116 | the mock cursor defines every cursor member; only `connection` is its own field; exactly `close`, `setinputsizes`, `setoutputsizes` and `scroll` are stubs |
| Surface.RecordingCursorHandling | src/pytest_pymysql_autorecord/connect.py:130-239 | the recording cursor goes through the ledger for every member except `close` and the two size setters; only `scroll` discards the recorded result; no cursor member is forwarded with its result |
| Surface.MockConnectionAnswer | src/pytest_pymysql_autorecord/connect.py:256-352 | the mock connection answers each member from the ledger, with a stub, or not at all; it has no own fields |
| Surface.RecordingConnectionHandling | src/pytest_pymysql_autorecord/connect.py:366-517 | the recording connection records or forwards each member; it has no `pass` bodies and discards no recorded result |
| Surface.LedgerMembersAgree | src/pytest_pymysql_autorecord/connect.py:10-517 | the mocks read from the ledger exactly the members the recorders record, except the cursor's `connection` and `scroll`, which are recorded and never read; members the mock connection stubs or lacks are forwarded unrecorded |
| Session.CallKeys | src/pytest_pymysql_autorecord/connect.py:10-517 | every member a mock reads is one its recorder writes under the same key; members recorded but not read, other than calls the real cursor makes back on the recording connection, write only the keys of `connection` and `scroll` |
| Session.RecordedAbsent | src/pytest_pymysql_autorecord/connect.py:137-144 | a key no call of a trace uses has nothing recorded under it |
| Session.SessionQueues | src/pytest_pymysql_autorecord/connect.py:10-517 | under every key a mock reads that the real cursor never wrote through a call back on the recording connection, a replay run pops exactly what the record run appended; under the write-only keys it pops nothing |
| Session.SessionRoundTrip | src/pytest_pymysql_autorecord/connect.py:10-517 | provided every ledger-read call of the session is replayable (see `Ledger.ReplayRecordedPrefix`) and the test reads no connection key that the real cursor wrote by calling back into the recording connection, recording the session and replaying it gives every ledger-read member its real outcome in order, whatever forwarded, stubbed or write-only members come in between |
| Session.CallbackSessionCalls | src/pytest_pymysql_autorecord/connect.py:435-448 | a real cursor's `literal` call back on the recording connection is written under `connection--literal` and never popped, while the test's own `literal` call is both written and popped under that key |
| Session.ReplayTakesFirstEntry | src/pytest_pymysql_autorecord/connect.py:14-18 | replaying one read against a queue of two entries gives the first |
| Session.CallbackShiftsReplay | src/pytest_pymysql_autorecord/connect.py:435-448 | when the real cursor calls `literal` on the recording connection before the test does, the test's `literal` replays the cursor's answer rather than its own, so the round trip fails without the no-callback-reads proviso |
| AutorecordUtil.TestDataDir | src/pytest_pymysql_autorecord/util.py:107-113 | without a data directory: the temporary directory; otherwise the data directory, then the test file's directory relative to the root, then the module's stem; ValueError exactly when the test file is not under the root |
| AutorecordUtil.DatabaseMock.constructor | src/pytest_pymysql_autorecord/util.py:44-57 | the ledger starts as the loaded snapshot in MOCK mode and empty otherwise |
| AutorecordUtil.DatabaseMock.Filepath | src/pytest_pymysql_autorecord/util.py:131-136 | the snapshot path lies directly in the test data directory, is named by the sanitised node name plus `.db`, and that name has no `/` |
| AutorecordUtil.DatabaseMock.RecordValue | src/pytest_pymysql_autorecord/util.py:125-126 | the new ledger is the old one with the value appended under the key |
| AutorecordUtil.DatabaseMock.ReadValue | src/pytest_pymysql_autorecord/util.py:128-129 | the result and the new ledger are those of popping the key, IndexError included |
| AutorecordUtil.DatabaseMock.UserValue | src/pytest_pymysql_autorecord/util.py:99-105 | STORE_DATA stores and returns the value; MOCK pops the stored value and ignores the argument; NORMAL returns the value and leaves the ledger alone |
| AutorecordUtil.DatabaseMock.WriteData | src/pytest_pymysql_autorecord/util.py:115-118 | the store afterwards holds this ledger at this test's snapshot path, and reading it back yields the ledger |
| AutorecordUtil.Open | src/pytest_pymysql_autorecord/util.py:44-57 | construction fails with ValueError when the test file is not under the root, and otherwise with FileNotFoundError exactly when MOCK mode finds no snapshot; on success the fixture's path and ledger are as described |
| AutorecordConnect.MockCursor.constructor | src/pytest_pymysql_autorecord/connect.py:11-12 | a new mock cursor shares the fixture's ledger and has no `connection` yet |
| AutorecordConnect.MockCursor.Read | src/pytest_pymysql_autorecord/connect.py:14-18 | pops `cursor--<name>`; a popped `Exception` instance is raised, anything else returned; IndexError on an empty queue |
| AutorecordConnect.MockCursor.Call | src/pytest_pymysql_autorecord/connect.py:20-113 | ledger members pop their key; `close`, `setinputsizes`, `setoutputsizes` and `scroll` return None and leave the ledger alone; `connection` returns the assigned value or raises AttributeError for `_connection` |
| AutorecordConnect.MockCursor.Set | src/pytest_pymysql_autorecord/connect.py:24-70 | the `connection` setter keeps the value; assigning `max_stmt_length`, a property without setter, raises AttributeError; every other setter drops the value and returns None |
| AutorecordConnect.MockCursor.Iterate | src/pytest_pymysql_autorecord/connect.py:115-116 | `for row in cursor` yields exactly the rows, end and remaining queue that `FetchUntilNone` prescribes for the `fetchone` queue |
| AutorecordConnect.RecordingCursor.constructor | src/pytest_pymysql_autorecord/connect.py:131-135 | a recording cursor wraps a new real cursor of the given class on the fixture's ledger |
| AutorecordConnect.RecordingCursor.Record | src/pytest_pymysql_autorecord/connect.py:137-144 | returns or re-raises the real outcome; the ledger gains the result or the raised `Exception` under `cursor--<name>`, and nothing for a bare `BaseException` |
| AutorecordConnect.RecordingCursor.Call | src/pytest_pymysql_autorecord/connect.py:146-239 | recorded members record as above; `scroll` records but returns None; `close` is forwarded unrecorded; `setinputsizes`/`setoutputsizes` touch nothing |
| AutorecordConnect.RecordingCursor.Set | src/pytest_pymysql_autorecord/connect.py:150-196 | setters assign the real cursor's attribute and record nothing; assigning `max_stmt_length` raises AttributeError without reaching the real cursor |
| AutorecordConnect.MockConnection.constructor | src/pytest_pymysql_autorecord/connect.py:257-258 | a mock connection answers from the fixture's ledger |
| AutorecordConnect.MockConnection.Call | src/pytest_pymysql_autorecord/connect.py:260-352 | ledger members pop `connection--<name>` and return the popped value as it is; stubs return None; members the class lacks raise AttributeError; stubs and missing members leave the ledger alone |
| AutorecordConnect.MockConnection.Cursor | src/pytest_pymysql_autorecord/connect.py:318-319 | every cursor is a new mock cursor on the same ledger, whatever cursor class is requested |
| AutorecordConnect.CursorsShareQueues | src/pytest_pymysql_autorecord/connect.py:14-18 | two cursors of one mock connection share every ledger queue: for any member the mock cursor reads and either order of the two cursors, the first read replays the head of the queue and the second the entry after it |
| AutorecordConnect.RecordingConnection.constructor | src/pytest_pymysql_autorecord/connect.py:367-375 | the proxy keeps the fixture, the real connection and the cursor class |
| AutorecordConnect.RecordingConnection.Record | src/pytest_pymysql_autorecord/connect.py:377-380 | returns the real outcome; appends under `connection--<name>` only when the real call returned |
| AutorecordConnect.RecordingConnection.Call | src/pytest_pymysql_autorecord/connect.py:382-517 | ledger members record as above (`get_host_info` calls the real `host_info`); every other member is forwarded, leaving the ledger unchanged, and returns the real result or None |
| AutorecordConnect.RecordingConnection.Cursor | src/pytest_pymysql_autorecord/connect.py:447-448 | `cursor()` calls the stored class with the connection and ignores the requested class: with the recording factory, a new recording cursor on the factory's ledger around a new real cursor of the inner class; a None class raises TypeError, exactly then |
| AutorecordConnect.MockConnect | src/pytest_pymysql_autorecord/connect.py:538-581 | NORMAL passes the call to PyMySQL unchanged; STORE_DATA connects with the recording factory around the `cursorclass` keyword's value when it is passed, even an explicit None, or `pymysql.cursors.Cursor` when it is absent, and wraps the connection; MOCK never calls PyMySQL and returns a mock connection on the fixture |
| AutorecordConnect.ExplicitNoneCursorclass | src/pytest_pymysql_autorecord/connect.py:563-570 | in STORE_DATA, `cursorclass=None` yields a connection whose `cursor()` raises TypeError, while leaving the keyword out yields a recording `pymysql.cursors.Cursor` |
| AutorecordPlugin.ResolveDataDir | src/pytest_pymysql_autorecord/plugin.py:80-86 | a non-empty `--db-data-dir` wins; otherwise `PMSM_DATA_DIR` is used whenever it is set, even when empty; none exactly when neither applies |
| AutorecordPlugin.ResolveMode | src/pytest_pymysql_autorecord/plugin.py:88-105 | both flags fail first; a flag without a data directory fails next; otherwise STORE_DATA exactly for the store flag and MOCK exactly for the mock flag |
| AutorecordPlugin.SetUp | src/pytest_pymysql_autorecord/plugin.py:78-111 | a failed check changes nothing; otherwise `PMSM_MODE` holds the mode's value and the fixture is built, or fails, as `Open` prescribes |
| AutorecordPlugin.TearDown | src/pytest_pymysql_autorecord/plugin.py:115-116 | the ledger is written to the snapshot path exactly when `--store-db-data` was given |
| AutorecordPlugin.SkipAfterSetUp | src/pytest_pymysql_autorecord/plugin.py:107 | after setup, `skip_for_db_mocking` skips exactly when a flag was given |
| AutorecordPlugin.StoreThenMock | src/pytest_pymysql_autorecord/plugin.py:43-116 | a store run followed by a mock run with the same data directory selects MOCK and loads, from the same path, a ledger that answers every ledger read as the real database did, provided every such call is replayable (a connection call returned, and a cursor call returned a non-exception value or raised an `Exception`, not a bare `BaseException`) and the test reads no connection key that the real cursor wrote by calling back into the recording connection |
| SnapshotUtil.DatabaseMockFixture.constructor | src/pytest_pymysql_snapshot_mock/util.py:38-46 | the ledger starts as the loaded snapshot in MOCK mode and empty otherwise |
| SnapshotUtil.DatabaseMockFixture.Filepath | src/pytest_pymysql_snapshot_mock/util.py:112-117 | the snapshot path lies directly in the test file's data directory, is named by the sanitised node name plus `.db`, and that name has no `/` |
| SnapshotUtil.DatabaseMockFixture.RecordValue | src/pytest_pymysql_snapshot_mock/util.py:106-107 | the new ledger is the old one with the value appended under the key |
| SnapshotUtil.DatabaseMockFixture.ReadValue | src/pytest_pymysql_snapshot_mock/util.py:109-110 | the result and the new ledger are those of popping the key, IndexError included |
| SnapshotUtil.DatabaseMockFixture.UserValue | src/pytest_pymysql_snapshot_mock/util.py:88-94 | STORE_DATA stores and returns the value; MOCK pops the stored value; NORMAL returns the value and leaves the ledger alone |
| SnapshotUtil.DatabaseMockFixture.WriteData | src/pytest_pymysql_snapshot_mock/util.py:96-99 | the store afterwards holds this ledger at the snapshot path in `original_datadir`, and reading it back yields the ledger |
| SnapshotUtil.Open | src/pytest_pymysql_snapshot_mock/util.py:38-46 | construction fails, with FileNotFoundError, exactly when MOCK mode finds no snapshot in the test's data directory |
| SnapshotConnect.MockCursor.constructor | src/pytest_pymysql_snapshot_mock/connect.py:11-12 | a new mock cursor shares the fixture's ledger and has no `connection` yet |
| SnapshotConnect.MockCursor.Read | src/pytest_pymysql_snapshot_mock/connect.py:14-15 | with the fixture calls corrected to `_read_value`/`_record_value` (see Findings), pops `cursor--<name>` and returns what it pops as it is; IndexError on an empty queue |
| SnapshotConnect.MockCursor.Call | src/pytest_pymysql_snapshot_mock/connect.py:17-110 | with the fixture calls corrected to `_read_value`/`_record_value` (see Findings), ledger members pop their key; the stubs return None and leave the ledger alone; `connection` returns the assigned value or raises AttributeError |
| SnapshotConnect.MockCursor.Set | src/pytest_pymysql_snapshot_mock/connect.py:21-67 | the `connection` setter keeps the value; assigning `max_stmt_length`, a property without setter, raises AttributeError; every other setter drops the value and returns None |
| SnapshotConnect.MockCursor.Iterate | src/pytest_pymysql_snapshot_mock/connect.py:112-113 | with the fixture calls corrected to `_read_value`/`_record_value` (see Findings), `for row in cursor` yields exactly the rows, end and remaining queue that `FetchUntilNone` prescribes under the plain discipline |
| SnapshotConnect.RecordingCursor.constructor | src/pytest_pymysql_snapshot_mock/connect.py:128-132 | a recording cursor wraps a new real cursor of the given class on the fixture's ledger |
| SnapshotConnect.RecordingCursor.Record | src/pytest_pymysql_snapshot_mock/connect.py:134-137 | with the fixture calls corrected to `_read_value`/`_record_value` (see Findings), returns the real outcome; appends under `cursor--<name>` only when the real call returned |
| SnapshotConnect.RecordingCursor.Call | src/pytest_pymysql_snapshot_mock/connect.py:139-232 | with the fixture calls corrected to `_read_value`/`_record_value` (see Findings), recorded members record as above; `scroll` records but returns None; `close` is forwarded unrecorded; `setinputsizes`/`setoutputsizes` touch nothing |
| SnapshotConnect.RecordingCursor.Set | src/pytest_pymysql_snapshot_mock/connect.py:143-189 | setters assign the real cursor's attribute and record nothing; assigning `max_stmt_length` raises AttributeError without reaching the real cursor |
| SnapshotConnect.MockConnection.constructor | src/pytest_pymysql_snapshot_mock/connect.py:250-254 | a mock connection answers from the fixture's ledger |
| SnapshotConnect.MockConnection.Call | src/pytest_pymysql_snapshot_mock/connect.py:256-396 | with the fixture calls corrected to `_read_value`/`_record_value` (see Findings), ledger members pop `connection--<name>`; stubs return None; members the class lacks raise AttributeError; stubs and missing members leave the ledger alone |
| SnapshotConnect.MockConnection.Cursor | src/pytest_pymysql_snapshot_mock/connect.py:324-325 | every cursor is a new mock cursor on the same ledger, whatever cursor class is requested |
| SnapshotConnect.RecordingConnection.constructor | src/pytest_pymysql_snapshot_mock/connect.py:411-419 | the proxy keeps the fixture, the real connection and the cursor class |
| SnapshotConnect.RecordingConnection.Record | src/pytest_pymysql_snapshot_mock/connect.py:421-424 | with the fixture calls corrected to `_read_value`/`_record_value` (see Findings), returns the real outcome; appends under `connection--<name>` only when the real call returned |
| SnapshotConnect.RecordingConnection.Call | src/pytest_pymysql_snapshot_mock/connect.py:426-562 | with the fixture calls corrected to `_read_value`/`_record_value` (see Findings), ledger members record as above; every other member is forwarded, leaving the ledger unchanged, and returns the real result or None |
| SnapshotConnect.RecordingConnection.Cursor | src/pytest_pymysql_snapshot_mock/connect.py:491-492 | `cursor()` calls the stored class with the connection and ignores the requested class: with the recording factory, a new recording cursor on the factory's ledger around a new real cursor of the inner class; a None class raises TypeError, exactly then |
| SnapshotConnect.MockConnect | src/pytest_pymysql_snapshot_mock/connect.py:583-624 | NORMAL passes the call to PyMySQL unchanged; STORE_DATA connects with the recording factory around the `cursorclass` keyword's value when it is passed, even an explicit None, or `pymysql.cursors.Cursor` when it is absent, and wraps the connection; MOCK never calls PyMySQL and returns a mock connection on the fixture |
| SnapshotConnect.ExplicitNoneCursorclass | src/pytest_pymysql_snapshot_mock/connect.py:608-615 | in STORE_DATA, `cursorclass=None` yields a connection whose `cursor()` raises TypeError, while leaving the keyword out yields a recording `pymysql.cursors.Cursor` |
| SnapshotConnect.AsWrittenRead | src/pytest_pymysql_snapshot_mock/connect.py:14-15 | as written, a mock read raises AttributeError, because the fixture has no `read`, and leaves the ledger alone |
| SnapshotConnect.AsWrittenRecord | src/pytest_pymysql_snapshot_mock/connect.py:134-137 | as written, a recorded call that raised re-raises unchanged, one that returned raises AttributeError after the real call, because the fixture has no `record`, and the ledger is never changed |
| SnapshotConnect.AsWrittenLosesFetchedRow | src/pytest_pymysql_snapshot_mock/connect.py:100-101 | as written, a row the real `fetchone` returned is neither stored nor replayed, where the corrected proxies store it and give it back |
| SnapshotPlugin.ResolveMode | src/pytest_pymysql_snapshot_mock/plugin.py:71-84 | both flags fail; otherwise STORE_DATA exactly for the store flag and MOCK exactly for the mock flag; no data directory is needed |
| SnapshotPlugin.SetUp | src/pytest_pymysql_snapshot_mock/plugin.py:71-90 | both flags fail; otherwise the fixture is built in `original_datadir` and fails exactly when MOCK mode finds no snapshot |
| SnapshotPlugin.TearDown | src/pytest_pymysql_snapshot_mock/plugin.py:92-93 | the ledger is written exactly when `--store-db-data` was given |
| SnapshotPlugin.StoreThenMock | src/pytest_pymysql_snapshot_mock/plugin.py:40-93 | a store run followed by a mock run loads, from the same path, a ledger that answers every read as the real database did, provided every such call returned and the test reads no connection key that the real cursor wrote by calling back into the recording connection |
| SnapshotPlugin.AsWrittenImport | src/pytest_pymysql_snapshot_mock/plugin.py:12 | the import succeeds exactly when `util` defines both imported names, and otherwise raises ImportError |
| SnapshotPlugin.AsWrittenImportFails | src/pytest_pymysql_snapshot_mock/plugin.py:12 | as written, importing the plugin raises ImportError because `util` defines `DatabaseMockFixture`, not `DatabaseMock` |

## Left out

- Arguments of the proxied members are not modelled: the SQL text, query parameters, `size` and so on. Neither proxy puts them into a key, and the mocks ignore them. Replay is by order per key, never by argument, and the model says exactly that.
- `__enter__`/`__exit__` of the four proxies are not modelled. In the recording proxies, `__enter__` returns the real object, so calls inside a `with` block bypass recording, and MOCK mode then finds nothing for them.
- `__del__` (aliased to `_force_close`) is not modelled, because it depends on garbage collection. The class attributes `Warning`, `Error`, … are aliases of `pymysql.err` and carry no behaviour.
- The real cursor is constructed with the recording connection (`self._cursorclass(self)`), so PyMySQL's cursor can call `literal`, `escape` and the like back on it. Those calls are recorded like the test's own and are never popped by the mock cursor. Which calls PyMySQL's cursor makes is not modelled; they enter a session as `FromRealCursor` events, and `Session.CallbackShiftsReplay` shows how they shift the test's replay.
- Session.SessionQueues, Session.SessionRoundTrip, AutorecordPlugin.StoreThenMock and SnapshotPlugin.StoreThenMock: the round trip is stated only for sessions in which the test reads no connection key that such a call back wrote (`NoCallbackReads`), because otherwise the replay is shifted.
- `RealObject` only logs the member names called on it.
- `get_host_info` of the recording connection calls the real object's `host_info` attribute. Whether that attribute can be called is up to PyMySQL, which is not part of this model, so the real answer is a parameter like every other.
- Python's exception class hierarchy is not modelled. Each error carries its class name and whether that class derives from `Exception`, which is all the proxies' `except Exception` and `isinstance(value, Exception)` look at.
- Pickling is not modelled. A snapshot is the ledger value itself, so values that cannot be pickled and pickling errors are out of scope.
- Directory creation (`mkdir`) in `_filepath`, and file-system errors other than a missing snapshot, are not modelled.
- `tempfile.gettempdir()`, `os.environ`, `request` and the monkeypatching of `pymysql.connect` are replaced by parameters.
- `pytest_addoption` is not modelled; `Options` stands for the parsed options.
- `Paths.PathOf`: a configured directory string is kept as one opaque path component. `Path`'s splitting on `/` and its normalisation are not modelled.
- `Paths.Sanitize`: the word characters are the ASCII letters, digits and `_`. Python's `\w` also matches other Unicode letters and digits, which are treated here as non-word characters.
- `AutorecordConnect.RecordingMockCursorclass`: the factory is a value naming the fixture and the inner class. Calling it is `RecordingConnection.Cursor`.
- `SnapshotConnect.MockCursor`, `SnapshotConnect.RecordingCursor`, `SnapshotConnect.MockConnection` and `SnapshotConnect.RecordingConnection` model the proxies with their `database_mock.read`/`database_mock.record` calls corrected to `_read_value`/`_record_value`. As written, those calls raise AttributeError; only `SnapshotConnect.AsWrittenRead` and `SnapshotConnect.AsWrittenRecord` model that behaviour, one call at a time.
- `Surface.RealObject` and `AutorecordConnect.Backend` / `SnapshotConnect.Backend` are oracles for PyMySQL, not models of it.

## Findings

| source | as written | input that shows it | evidently intended | confidence | as-written member | corrected member |
|---|---|---|---|---|---|---|
| src/pytest_pymysql_snapshot_mock/connect.py:15 | the proxies call `database_mock.read(...)` and `database_mock.record(...)` (also lines 136, 257, 423), which `DatabaseMockFixture` does not define | `cursor.fetchone()` in STORE_DATA mode runs the real query and then raises AttributeError; in MOCK mode it raises AttributeError | call `_read_value` and `_record_value` | high; not executed | SnapshotConnect.AsWrittenLosesFetchedRow | SnapshotPlugin.StoreThenMock |
| src/pytest_pymysql_snapshot_mock/plugin.py:12 | `from .util import DatabaseMock, Mode`, but `util` defines `DatabaseMockFixture` | loading the plugin at all raises ImportError | import and construct `DatabaseMockFixture` | high; not executed | SnapshotPlugin.AsWrittenImportFails | SnapshotPlugin.SetUp |
