/**
 * The proxies of the older pytest_pymysql_snapshot_mock package: the same
 * four classes and `mock_connect` as `AutorecordConnect`, over a
 * `DatabaseMockFixture`, with the plain discipline everywhere: a recording
 * cursor lets a failure propagate without storing it, and a mock cursor
 * returns what it pops as it is.
 *
 * As written, these proxies reach the fixture through methods named `read`
 * and `record`, which `DatabaseMockFixture` does not define; the classes
 * below use `_read_value` and `_record_value`, the methods the fixture has,
 * and `AsWrittenRead` / `AsWrittenRecord` model the calls as written.
 */
module SnapshotConnect {
  import opened Ledger
  import opened Modes
  import opened Surface
  import opened SnapshotUtil

  /** `_MockCursor` */
  class MockCursor {
    const db: DatabaseMockFixture
    /** `_connection`: absent until the `connection` setter runs. */
    var connection: Option<Value>

    constructor (db: DatabaseMockFixture)
      ensures this.db == db && connection == None
    {
      this.db := db;
      connection := None;
    }

    /** `read`: pops the queue of `cursor--<name>` and returns what it pops as it is. */
    method Read(name: string) returns (r: Outcome)
      modifies db
      ensures Pop(old(db.data), CursorKey(name)) == Popped(r, db.data)
    {
      r := db.ReadValue(CursorKey(name));
    }

    /**
     * A getter or method of the mock cursor: ledger members pop their own
     * queue, `close`, `setinputsizes`, `setoutputsizes` and `scroll` do
     * nothing, and `connection` answers from the cursor's own attribute.
     */
    method Call(m: CursorMember) returns (r: Outcome)
      modifies db
      ensures MockCursorAnswer(m) == FromLedger ==> Pop(old(db.data), CursorKey(CursorName(m))) == Popped(r, db.data)
      ensures MockCursorAnswer(m) == NoOp ==> r == Returned(NoneValue) && db.data == old(db.data)
      ensures MockCursorAnswer(m) == OwnField ==>
        && db.data == old(db.data)
        && r == (if connection.Some? then Returned(connection.value) else Raised(NoAttribute("_MockCursor", "_connection")))
    {
      if MockCursorAnswer(m) == FromLedger {
        r := Read(CursorName(m));
      } else if MockCursorAnswer(m) == NoOp {
        r := Returned(NoneValue);
      } else {
        r := if connection.Some? then Returned(connection.value) else Raised(NoAttribute("_MockCursor", "_connection"));
      }
    }

    /**
     * A property setter: `connection` is kept, every other value is dropped,
     * and `max_stmt_length`, a property without setter, raises; the ledger is
     * untouched.
     */
    method Set(a: CursorAttribute, value: Value) returns (r: Outcome)
      modifies this
      ensures a == ConnectionAttribute ==> connection == Some(value)
      ensures a != ConnectionAttribute ==> connection == old(connection)
      ensures r.Raised? <==> a == MaxStmtLengthAttribute
      ensures r.Raised? ==> r.error == NoSetter("_MockCursor", "max_stmt_length")
      ensures r.Returned? ==> r.value == NoneValue
    {
      r := Returned(NoneValue);
      if a == ConnectionAttribute {
        connection := Some(value);
      } else if a == MaxStmtLengthAttribute {
        r := Raised(NoSetter("_MockCursor", "max_stmt_length"));
      }
    }

    /**
     * `for row in cursor`: `iter(self.fetchone, None)` yields the popped rows
     * until one is None, or until a pop raises IndexError.
     */
    method Iterate() returns (rows: seq<Value>, stop: Outcome)
      modifies db
      ensures var key := CursorKey(CursorName(FetchOne));
        var d := FetchUntilNone(Plain, Queue(old(db.data), key));
        rows == d.rows && stop == d.stop && db.data == old(db.data)[key := d.rest]
    {
      var key := CursorKey(CursorName(FetchOne));
      ghost var q0 := Queue(db.data, key);
      rows := [];
      var r := Read(CursorName(FetchOne));
      while r.Returned? && r.value != NoneValue
        invariant db.data == old(db.data)[key := Queue(db.data, key)]
        invariant var q := Queue(db.data, key); var d := FetchUntilNone(Plain, q);
          FetchUntilNone(Plain, q0) ==
            if r.Returned? && r.value != NoneValue then Drain(rows + [r.value] + d.rows, d.stop, d.rest)
            else Drain(rows, r, q)
        decreases if r.Returned? && r.value != NoneValue then |Queue(db.data, key)| + 1 else 0
      {
        rows := rows + [r.value];
        ghost var q := Queue(db.data, key);
        r := Read(CursorName(FetchOne));
        assert rows + FetchUntilNone(Plain, q).rows
          == (if r.Returned? && r.value != NoneValue then rows + [r.value] + FetchUntilNone(Plain, Queue(db.data, key)).rows else rows);
      }
      stop := r;
    }
  }

  /** `_RecordingCursor`, built around a real cursor of class `cursorclass`. */
  class RecordingCursor {
    const db: DatabaseMockFixture
    /** `_cursor` */
    const cursor: RealObject
    const cursorclass: string

    constructor (db: DatabaseMockFixture, cursorclass: string)
      ensures this.db == db && this.cursorclass == cursorclass
      ensures fresh(cursor) && cursor.calls == []
    {
      this.db := db;
      this.cursorclass := cursorclass;
      cursor := new RealObject();
    }

    /**
     * `record`: calls the real member and appends what it returned under
     * `cursor--<name>`; a raised exception propagates and nothing is appended.
     */
    method Record(name: string, answer: Outcome) returns (r: Outcome)
      modifies db, cursor
      ensures r == answer
      ensures db.data == RecordStep(old(db.data), Ledger.Call(Plain, CursorKey(name), answer))
      ensures cursor.calls == old(cursor.calls) + [name]
    {
      r := cursor.Invoke(name, answer);
      if r.Returned? {
        db.RecordValue(CursorKey(name), r.value);
      }
    }

    /**
     * A getter or method of the recording cursor: recorded members go through
     * `record` (`scroll` returns None on success), `close` is forwarded
     * unrecorded, `setinputsizes` and `setoutputsizes` do nothing.
     */
    method Call(m: CursorMember, answer: Outcome) returns (r: Outcome)
      modifies db, cursor
      ensures RecordingCursorHandling(m) in {Records, RecordsDiscards} ==>
        && db.data == RecordStep(old(db.data), Ledger.Call(Plain, CursorKey(CursorName(m)), answer))
        && cursor.calls == old(cursor.calls) + [CursorName(m)]
      ensures RecordingCursorHandling(m) == Records ==> r == answer
      ensures RecordingCursorHandling(m) in {RecordsDiscards, ForwardsDiscards} ==>
        r == if answer.Raised? then answer else Returned(NoneValue)
      ensures RecordingCursorHandling(m) == ForwardsDiscards ==>
        db.data == old(db.data) && cursor.calls == old(cursor.calls) + [CursorName(m)]
      ensures RecordingCursorHandling(m) == Ignores ==>
        r == Returned(NoneValue) && db.data == old(db.data) && cursor.calls == old(cursor.calls)
    {
      var handling := RecordingCursorHandling(m);
      if handling == Records {
        r := Record(CursorName(m), answer);
      } else if handling == RecordsDiscards {
        r := Record(CursorName(m), answer);
        if r.Returned? {
          r := Returned(NoneValue);
        }
      } else if handling == ForwardsDiscards {
        r := cursor.Invoke(CursorName(m), answer);
        if r.Returned? {
          r := Returned(NoneValue);
        }
      } else {
        r := Returned(NoneValue);
      }
    }

    /**
     * A property setter: assigns the real cursor's attribute (named `<name>=`
     * in its call log), unrecorded; `max_stmt_length` has no setter here, so
     * assigning it raises without reaching the real cursor.
     */
    method Set(a: CursorAttribute, value: Value, answer: Outcome) returns (r: Outcome)
      modifies cursor
      ensures a == MaxStmtLengthAttribute ==>
        r == Raised(NoSetter("_RecordingCursor", "max_stmt_length")) && cursor.calls == old(cursor.calls)
      ensures a != MaxStmtLengthAttribute ==>
        && r == (if answer.Raised? then answer else Returned(NoneValue))
        && cursor.calls == old(cursor.calls) + [CursorName(AttributeMember(a)) + "="]
    {
      if a == MaxStmtLengthAttribute {
        return Raised(NoSetter("_RecordingCursor", "max_stmt_length"));
      }
      r := cursor.Invoke(CursorName(AttributeMember(a)) + "=", answer);
      if r.Returned? {
        r := Returned(NoneValue);
      }
    }
  }

  /** `_MockConnection` */
  class MockConnection {
    const db: DatabaseMockFixture

    constructor (db: DatabaseMockFixture)
      ensures this.db == db
    {
      this.db := db;
    }

    /**
     * A member of the mock connection: ledger members pop `connection--<name>`
     * and return what they pop as it is, stubs return None, and members the
     * class does not define raise AttributeError.
     */
    method Call(m: ConnectionMember) returns (r: Outcome)
      modifies db
      ensures MockConnectionAnswer(m) == FromLedger ==> Pop(old(db.data), ConnectionKey(ConnectionName(m))) == Popped(r, db.data)
      ensures MockConnectionAnswer(m) == NoOp ==> r == Returned(NoneValue) && db.data == old(db.data)
      ensures MockConnectionAnswer(m) == Undefined ==>
        r == Raised(NoAttribute("_MockConnection", ConnectionName(m))) && db.data == old(db.data)
    {
      if MockConnectionAnswer(m) == FromLedger {
        r := db.ReadValue(ConnectionKey(ConnectionName(m)));
      } else if MockConnectionAnswer(m) == NoOp {
        r := Returned(NoneValue);
      } else {
        r := Raised(NoAttribute("_MockConnection", ConnectionName(m)));
      }
    }

    /** `cursor(cursor=None)`: a new mock cursor on the same ledger; the requested cursor class is ignored. */
    method Cursor(requested: Option<string>) returns (c: MockCursor)
      ensures fresh(c) && c.db == db && c.connection == None
    {
      c := new MockCursor(db);
    }
  }

  /**
   * The `cursorclass` handed to `pymysql.connect`: a PyMySQL class by name, or
   * the factory `_recording_mock_cursorclass(database_mock, inner)` returns,
   * which wraps a real cursor of class `inner` in a recording cursor. `None`
   * stands for Python's None, which is not callable.
   */
    datatype CursorClass = Named(name: Option<string>) | RecordingFactory(db: DatabaseMockFixture, inner: Option<string>)

  /** What `cursor()` of a recording connection yields. */
  datatype CursorHandle = RealCursor(cls: string, wrapped: RealObject) | Recorder(recording: RecordingCursor)

  /** `_RecordingConnection` */
  class RecordingConnection {
    const db: DatabaseMockFixture
    /** `_connection` */
    const connection: RealObject
    /** `_cursorclass` */
    const cursorclass: CursorClass

    constructor (db: DatabaseMockFixture, connection: RealObject, cursorclass: CursorClass)
      ensures this.db == db && this.connection == connection && this.cursorclass == cursorclass
    {
      this.db := db;
      this.connection := connection;
      this.cursorclass := cursorclass;
    }

    /**
     * `record`: calls the real member and appends what it returned under
     * `connection--<name>`; a raised exception propagates and nothing is
     * appended.
     */
    method Record(name: string, realName: string, answer: Outcome) returns (r: Outcome)
      modifies db, connection
      ensures r == answer
      ensures db.data == RecordStep(old(db.data), Ledger.Call(Plain, ConnectionKey(name), answer))
      ensures connection.calls == old(connection.calls) + [realName]
    {
      r := connection.Invoke(realName, answer);
      if r.Returned? {
        db.RecordValue(ConnectionKey(name), r.value);
      }
    }

    /**
     * A member of the recording connection: ledger members go through
     * `record` (`get_host_info` reads the real `host_info`); every other
     * member is forwarded to the real connection, unrecorded, returning its
     * result or None.
     */
    method Call(m: ConnectionMember, answer: Outcome) returns (r: Outcome)
      modifies db, connection
      ensures connection.calls == old(connection.calls) + [RealConnectionName(m)]
      ensures RecordingConnectionHandling(m) == Records ==>
        r == answer && db.data == RecordStep(old(db.data), Ledger.Call(Plain, ConnectionKey(ConnectionName(m)), answer))
      ensures RecordingConnectionHandling(m) != Records ==> db.data == old(db.data)
      ensures RecordingConnectionHandling(m) == Forwards ==> r == answer
      ensures RecordingConnectionHandling(m) == ForwardsDiscards ==>
        r == if answer.Raised? then answer else Returned(NoneValue)
    {
      var handling := RecordingConnectionHandling(m);
      if handling == Records {
        r := Record(ConnectionName(m), RealConnectionName(m), answer);
      } else {
        r := connection.Invoke(RealConnectionName(m), answer);
        if handling != Forwards && r.Returned? {
          r := Returned(NoneValue);
        }
      }
    }

    /**
     * `cursor(cursor=None)`: `self._cursorclass(self)`; the requested class is
     * ignored. With the recording factory this is a new recording cursor on
     * the factory's ledger around a new real cursor of the inner class; a
     * None class raises TypeError when it is called.
     */
    method Cursor(requested: Option<string>) returns (c: Result<CursorHandle>)
      ensures c.Err? <==> (if cursorclass.Named? then cursorclass.name else cursorclass.inner).None?
      ensures c.Err? ==> c.error == NotCallable
      ensures cursorclass.RecordingFactory? && c.Ok? ==>
        && c.value.Recorder? && fresh(c.value.recording) && c.value.recording.db == cursorclass.db
        && Some(c.value.recording.cursorclass) == cursorclass.inner
        && fresh(c.value.recording.cursor) && c.value.recording.cursor.calls == []
      ensures cursorclass.Named? && c.Ok? ==>
        c.value.RealCursor? && Some(c.value.cls) == cursorclass.name && fresh(c.value.wrapped)
    {
      match cursorclass
      case RecordingFactory(factoryDb, inner) =>
        if inner.None? {
          return Err(NotCallable);
        }
        var rc := new RecordingCursor(factoryDb, inner.value);
        c := Ok(Recorder(rc));
      case Named(name) =>
        if name.None? {
          return Err(NotCallable);
        }
        var underlying := new RealObject();
        c := Ok(RealCursor(name.value, underlying));
    }
  }

  /** `_recording_mock_cursorclass` */
  function RecordingMockCursorclass(db: DatabaseMockFixture, inner: Option<string>): CursorClass {
    RecordingFactory(db, inner)
  }

  /** `pymysql.cursors.Cursor`, the class used when `connect` is given none. */
  const DefaultCursorClass := "pymysql.cursors.Cursor"

  /** `pymysql.connect`, seen through the `cursorclass` keyword of each call. */
  class Backend {
    var connects: seq<Option<CursorClass>>

    constructor ()
      ensures connects == []
    {
      connects := [];
    }

    /** Opens a real connection, or raises `refusal` (an unreachable server, bad credentials). */
    method Connect(cursorclass: Option<CursorClass>, refusal: Option<Error>) returns (r: Result<RealObject>)
      modifies this
      ensures connects == old(connects) + [cursorclass]
      ensures refusal.Some? ==> r == Err(refusal.value)
      ensures refusal.None? ==> r.Ok? && fresh(r.value) && r.value.calls == []
    {
      connects := connects + [cursorclass];
      if refusal.Some? {
        return Err(refusal.value);
      }
      var c := new RealObject();
      r := Ok(c);
    }
  }

  /** What the connect function hands the code under test. */
  datatype Connected =
    | RealConnection(direct: RealObject)
    | RecordingConn(recording: RecordingConnection)
    | MockConn(mock: MockConnection)

  /**
   * The function `mock_connect(db, pymysql.connect)` returns, called with the
   * keyword `cursorclass`, absent or passed: NORMAL passes the call through,
   * STORE_DATA connects with a recording cursor factory and wraps the
   * connection, MOCK never reaches the database. Only an absent keyword
   * gets the default class; an explicit `cursorclass=None` is wrapped as it
   * is, so the recording connection's `cursor()` raises TypeError.
   */
  method MockConnect(db: DatabaseMockFixture, backend: Backend, cursorclass: Keyword<Option<string>>, refusal: Option<Error>)
    returns (r: Result<Connected>)
    modifies backend
    ensures db.mode == Normal ==>
      && backend.connects == old(backend.connects) + [if cursorclass.Passed? then Some(Named(cursorclass.value)) else None]
      && (refusal.Some? ==> r == Err(refusal.value))
      && (refusal.None? ==> r.Ok? && r.value.RealConnection? && fresh(r.value.direct))
    ensures db.mode == StoreData ==>
      var factory := RecordingFactory(db, if cursorclass.Passed? then cursorclass.value else Some(DefaultCursorClass));
      && backend.connects == old(backend.connects) + [Some(factory)]
      && (refusal.Some? ==> r == Err(refusal.value))
      && (refusal.None? ==>
            && r.Ok? && r.value.RecordingConn? && fresh(r.value.recording)
            && r.value.recording.db == db && r.value.recording.cursorclass == factory
            && fresh(r.value.recording.connection))
    ensures db.mode == Mock ==>
      backend.connects == old(backend.connects) && r.Ok? && r.value.MockConn? && fresh(r.value.mock) && r.value.mock.db == db
  {
    match db.mode
    case Normal =>
      var c := backend.Connect(if cursorclass.Passed? then Some(Named(cursorclass.value)) else None, refusal);
      if c.Err? {
        return Err(c.error);
      }
      r := Ok(RealConnection(c.value));
    case StoreData =>
      var factory := RecordingMockCursorclass(db, if cursorclass.Passed? then cursorclass.value else Some(DefaultCursorClass));
      var c := backend.Connect(Some(factory), refusal);
      if c.Err? {
        return Err(c.error);
      }
      var rc := new RecordingConnection(db, c.value, factory);
      r := Ok(RecordingConn(rc));
    case Mock =>
      var mc := new MockConnection(db);
      r := Ok(MockConn(mc));
  }

  /**
   * `pymysql.connect(..., cursorclass=None)` in STORE_DATA: the connection is
   * made and wrapped, and its first `cursor()` raises TypeError, where
   * leaving the keyword out gives a recording `pymysql.cursors.Cursor`.
   */
  method ExplicitNoneCursorclass(db: DatabaseMockFixture, backend: Backend) returns (explicit: Result<CursorHandle>, absent: Result<CursorHandle>)
    requires db.mode == StoreData
    modifies backend
    ensures explicit == Err(NotCallable)
    ensures absent.Ok? && absent.value.Recorder? && absent.value.recording.cursorclass == DefaultCursorClass
  {
    var withNone := MockConnect(db, backend, Passed(None), None);
    explicit := withNone.value.recording.Cursor(None);
    var withDefault := MockConnect(db, backend, Absent, None);
    absent := withDefault.value.recording.Cursor(None);
  }

  // ---------------------------------------------------------------------------
  // The calls into the fixture as written

  /** The attributes a `DatabaseMockFixture` instance has. */
  const FixtureAttributes: set<string> :=
    {"_mode", "_request", "_original_datadir", "_data", "mode", "user_value",
     "_write_data", "_read_data", "_record_value", "_read_value", "_filepath"}

  /** `database_mock.read(key)` as written: a lookup of an attribute the fixture lacks, so AttributeError and an untouched ledger. */
  function AsWrittenRead(d: LedgerMap, key: Key): (p: Popped)
    ensures p == Popped(Raised(NoAttribute("DatabaseMockFixture", "read")), d)
  {
    assert "read" !in FixtureAttributes by {
      assert "read"[0] != "_"[0] && "read"[0] != "mode"[0] && "read" != "mode";
    }
    if "read" in FixtureAttributes then Pop(d, key)
    else Popped(Raised(NoAttribute("DatabaseMockFixture", "read")), d)
  }

  /**
   * `record(key, f)` as written: the real call happens first; then
   * `database_mock.record(key, res)` fails the same way. Yields what the
   * caller sees and the ledger afterwards: nothing is ever stored, and a
   * real result never reaches the code under test.
   */
  function AsWrittenRecord(d: LedgerMap, key: Key, answer: Outcome): (r: (Outcome, LedgerMap))
    ensures r.1 == d
    ensures answer.Raised? ==> r.0 == answer
    ensures answer.Returned? ==> r.0 == Raised(NoAttribute("DatabaseMockFixture", "record"))
  {
    assert "record" !in FixtureAttributes by {
      assert "record"[0] != "_"[0] && "record" != "mode" && "record" != "user_value";
    }
    match answer
    case Raised(_) => (answer, d)
    case Returned(v) =>
      if "record" in FixtureAttributes then (answer, Append(d, key, v))
      else (Raised(NoAttribute("DatabaseMockFixture", "record")), d)
  }

  /**
   * A one-call session as written against the corrected proxies: a value the
   * real `fetchone` returned is lost when recording and answered with
   * AttributeError when mocking, where the corrected proxies store it and
   * give it back.
   */
  lemma AsWrittenLosesFetchedRow(v: Value)
    ensures var key := CursorKey(CursorName(FetchOne));
      && AsWrittenRecord(map[], key, Returned(v)).1 == map[]
      && AsWrittenRead(AsWrittenRecord(map[], key, Returned(v)).1, key).outcome.Raised?
      && RecordStep(map[], Ledger.Call(Plain, key, Returned(v))) == map[key := [v]]
      && Pop(map[key := [v]], key).outcome == Returned(v)
  {
    var key := CursorKey(CursorName(FetchOne));
    assert Queue(map[], key) + [v] == [v];
  }
}
