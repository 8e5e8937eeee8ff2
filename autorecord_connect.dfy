/**
 * The proxies of the pytest_pymysql_autorecord package: a recording and a
 * mock cursor, a recording and a mock connection, and `mock_connect`, which
 * chooses between them by the fixture's mode.
 *
 * The recording proxies stand in front of a real PyMySQL object
 * (`Surface.RealObject`); what the real member returns or raises is a
 * parameter named `answer`. The mock proxies answer from the ledger of the
 * same `DatabaseMock`. Cursors use the capturing discipline, connections the
 * plain one (see `Ledger.Discipline`).
 */
module AutorecordConnect {
  import opened Ledger
  import opened Modes
  import opened Surface
  import opened AutorecordUtil

  /** `_MockCursor` */
  class MockCursor {
    const db: DatabaseMock
    /** `_connection`: absent until the `connection` setter runs. */
    var connection: Option<Value>

    constructor (db: DatabaseMock)
      ensures this.db == db && connection == None
    {
      this.db := db;
      connection := None;
    }

    /** `_read`: pops the queue of `cursor--<name>`; a popped exception object is raised, anything else returned. */
    method Read(name: string) returns (r: Outcome)
      modifies db
      ensures var p := Pop(old(db.data), CursorKey(name));
        r == Replayed(Capturing, p.outcome) && db.data == p.after
    {
      var v := db.ReadValue(CursorKey(name));
      if v.Returned? && v.value.IsExceptionInstance() {
        r := Raised(v.value.error);
      } else {
        r := v;
      }
    }

    /**
     * A getter or method of the mock cursor: ledger members pop their own
     * queue, `close`, `setinputsizes`, `setoutputsizes` and `scroll` do
     * nothing, and `connection` answers from the cursor's own attribute.
     */
    method Call(m: CursorMember) returns (r: Outcome)
      modifies db
      ensures MockCursorAnswer(m) == FromLedger ==>
        var p := Pop(old(db.data), CursorKey(CursorName(m)));
        r == Replayed(Capturing, p.outcome) && db.data == p.after
      ensures MockCursorAnswer(m) == NoOp ==> r == Returned(NoneValue) && db.data == old(db.data)
      ensures MockCursorAnswer(m) == OwnField ==>
        && db.data == old(db.data)
        && r == (if connection.Some? then Returned(connection.value) else Raised(NoAttribute("_MockCursor", "_connection")))
    {
      if MockCursorAnswer(m) == FromLedger {
        r := Read(CursorName(m));
      } else if MockCursorAnswer(m) == NoOp {
        r := Returned(NoneValue);
      } else {
        r := if connection.Some? then Returned(connection.value) else Raised(NoAttribute("_MockCursor", "_connection"));
      }
    }

    /**
     * A property setter: `connection` is kept, every other value is dropped,
     * and `max_stmt_length`, a property without setter, raises; the ledger is
     * untouched.
     */
    method Set(a: CursorAttribute, value: Value) returns (r: Outcome)
      modifies this
      ensures a == ConnectionAttribute ==> connection == Some(value)
      ensures a != ConnectionAttribute ==> connection == old(connection)
      ensures r.Raised? <==> a == MaxStmtLengthAttribute
      ensures r.Raised? ==> r.error == NoSetter("_MockCursor", "max_stmt_length")
      ensures r.Returned? ==> r.value == NoneValue
    {
      r := Returned(NoneValue);
      if a == ConnectionAttribute {
        connection := Some(value);
      } else if a == MaxStmtLengthAttribute {
        r := Raised(NoSetter("_MockCursor", "max_stmt_length"));
      }
    }

    /**
     * `for row in cursor`: `iter(self.fetchone, None)` yields the popped rows
     * until one is None, or until a pop raises, which ends the loop with that
     * exception.
     */
    method Iterate() returns (rows: seq<Value>, stop: Outcome)
      modifies db
      ensures var key := CursorKey(CursorName(FetchOne));
        var d := FetchUntilNone(Capturing, Queue(old(db.data), key));
        rows == d.rows && stop == d.stop && db.data == old(db.data)[key := d.rest]
    {
      var key := CursorKey(CursorName(FetchOne));
      ghost var q0 := Queue(db.data, key);
      rows := [];
      var r := Read(CursorName(FetchOne));
      while r.Returned? && r.value != NoneValue
        invariant db.data == old(db.data)[key := Queue(db.data, key)]
        invariant var q := Queue(db.data, key); var d := FetchUntilNone(Capturing, q);
          FetchUntilNone(Capturing, q0) ==
            if r.Returned? && r.value != NoneValue then Drain(rows + [r.value] + d.rows, d.stop, d.rest)
            else Drain(rows, r, q)
        decreases if r.Returned? && r.value != NoneValue then |Queue(db.data, key)| + 1 else 0
      {
        rows := rows + [r.value];
        ghost var q := Queue(db.data, key);
        r := Read(CursorName(FetchOne));
        assert rows + FetchUntilNone(Capturing, q).rows
          == (if r.Returned? && r.value != NoneValue then rows + [r.value] + FetchUntilNone(Capturing, Queue(db.data, key)).rows else rows);
      }
      stop := r;
    }
  }

  /** `_RecordingCursor`, built around a real cursor of class `cursorclass`. */
  class RecordingCursor {
    const db: DatabaseMock
    /** `_cursor` */
    const cursor: RealObject
    const cursorclass: string

    constructor (db: DatabaseMock, cursorclass: string)
      ensures this.db == db && this.cursorclass == cursorclass
      ensures fresh(cursor) && cursor.calls == []
    {
      this.db := db;
      this.cursorclass := cursorclass;
      cursor := new RealObject();
    }

    /**
     * `_record`: calls the real member; appends what it returned, or the
     * `Exception` it raised, under `cursor--<name>`; then returns the result
     * or re-raises. A `BaseException` that is not an `Exception` propagates
     * without being appended.
     */
    method Record(name: string, answer: Outcome) returns (r: Outcome)
      modifies db, cursor
      ensures r == answer
      ensures db.data == RecordStep(old(db.data), Ledger.Call(Capturing, CursorKey(name), answer))
      ensures cursor.calls == old(cursor.calls) + [name]
    {
      r := cursor.Invoke(name, answer);
      match r
      case Returned(v) =>
        db.RecordValue(CursorKey(name), v);
      case Raised(e) =>
        if e.isException {
          db.RecordValue(CursorKey(name), Exc(e));
        }
    }

    /**
     * A getter or method of the recording cursor: recorded members go through
     * `_record` (`scroll` returns None on success), `close` is forwarded
     * unrecorded, `setinputsizes` and `setoutputsizes` do nothing.
     */
    method Call(m: CursorMember, answer: Outcome) returns (r: Outcome)
      modifies db, cursor
      ensures RecordingCursorHandling(m) in {Records, RecordsDiscards} ==>
        && db.data == RecordStep(old(db.data), Ledger.Call(Capturing, CursorKey(CursorName(m)), answer))
        && cursor.calls == old(cursor.calls) + [CursorName(m)]
      ensures RecordingCursorHandling(m) == Records ==> r == answer
      ensures RecordingCursorHandling(m) in {RecordsDiscards, ForwardsDiscards} ==>
        r == if answer.Raised? then answer else Returned(NoneValue)
      ensures RecordingCursorHandling(m) == ForwardsDiscards ==>
        db.data == old(db.data) && cursor.calls == old(cursor.calls) + [CursorName(m)]
      ensures RecordingCursorHandling(m) == Ignores ==>
        r == Returned(NoneValue) && db.data == old(db.data) && cursor.calls == old(cursor.calls)
    {
      var handling := RecordingCursorHandling(m);
      if handling == Records {
        r := Record(CursorName(m), answer);
      } else if handling == RecordsDiscards {
        r := Record(CursorName(m), answer);
        if r.Returned? {
          r := Returned(NoneValue);
        }
      } else if handling == ForwardsDiscards {
        r := cursor.Invoke(CursorName(m), answer);
        if r.Returned? {
          r := Returned(NoneValue);
        }
      } else {
        r := Returned(NoneValue);
      }
    }

    /**
     * A property setter: assigns the real cursor's attribute (named `<name>=`
     * in its call log), unrecorded; `max_stmt_length` has no setter here, so
     * assigning it raises without reaching the real cursor.
     */
    method Set(a: CursorAttribute, value: Value, answer: Outcome) returns (r: Outcome)
      modifies cursor
      ensures a == MaxStmtLengthAttribute ==>
        r == Raised(NoSetter("_RecordingCursor", "max_stmt_length")) && cursor.calls == old(cursor.calls)
      ensures a != MaxStmtLengthAttribute ==>
        && r == (if answer.Raised? then answer else Returned(NoneValue))
        && cursor.calls == old(cursor.calls) + [CursorName(AttributeMember(a)) + "="]
    {
      if a == MaxStmtLengthAttribute {
        return Raised(NoSetter("_RecordingCursor", "max_stmt_length"));
      }
      r := cursor.Invoke(CursorName(AttributeMember(a)) + "=", answer);
      if r.Returned? {
        r := Returned(NoneValue);
      }
    }
  }

  /** `_MockConnection` */
  class MockConnection {
    const db: DatabaseMock

    constructor (db: DatabaseMock)
      ensures this.db == db
    {
      this.db := db;
    }

    /**
     * A member of the mock connection: ledger members pop `connection--<name>`
     * and return what they pop as it is, stubs return None, and members the
     * class does not define raise AttributeError.
     */
    method Call(m: ConnectionMember) returns (r: Outcome)
      modifies db
      ensures MockConnectionAnswer(m) == FromLedger ==> Pop(old(db.data), ConnectionKey(ConnectionName(m))) == Popped(r, db.data)
      ensures MockConnectionAnswer(m) == NoOp ==> r == Returned(NoneValue) && db.data == old(db.data)
      ensures MockConnectionAnswer(m) == Undefined ==>
        r == Raised(NoAttribute("_MockConnection", ConnectionName(m))) && db.data == old(db.data)
    {
      if MockConnectionAnswer(m) == FromLedger {
        r := db.ReadValue(ConnectionKey(ConnectionName(m)));
      } else if MockConnectionAnswer(m) == NoOp {
        r := Returned(NoneValue);
      } else {
        r := Raised(NoAttribute("_MockConnection", ConnectionName(m)));
      }
    }

    /** `cursor(cursor=None)`: a new mock cursor on the same ledger; the requested cursor class is ignored. */
    method Cursor(requested: Option<string>) returns (c: MockCursor)
      ensures fresh(c) && c.db == db && c.connection == None
    {
      c := new MockCursor(db);
    }
  }

  /**
   * A cursor key carries no cursor identity: two cursors of one connection
   * share each queue, so whichever cursor asks first, in either order, gets
   * the head of the queue and the other the entry after it, whichever
   * cursor recorded them.
   */
  method CursorsShareQueues(conn: MockConnection, m: CursorMember, laterCursorFirst: bool)
    returns (first: Outcome, second: Outcome)
    requires MockCursorAnswer(m) == FromLedger
    modifies conn.db
    ensures var key := CursorKey(CursorName(m));
      var p1 := Pop(old(conn.db.data), key);
      var p2 := Pop(p1.after, key);
      && first == Replayed(Capturing, p1.outcome)
      && second == Replayed(Capturing, p2.outcome)
      && conn.db.data == p2.after
  {
    var c1 := conn.Cursor(None);
    var c2 := conn.Cursor(None);
    if laterCursorFirst {
      first := c2.Call(m);
      second := c1.Call(m);
    } else {
      first := c1.Call(m);
      second := c2.Call(m);
    }
  }

  /**
   * The `cursorclass` handed to `pymysql.connect`: a PyMySQL class by name, or
   * the factory `_recording_mock_cursorclass(database_mock, inner)` returns,
   * which wraps a real cursor of class `inner` in a recording cursor. `None`
   * stands for Python's None, which is not callable.
   */
    datatype CursorClass = Named(name: Option<string>) | RecordingFactory(db: DatabaseMock, inner: Option<string>)

  /** What `cursor()` of a recording connection yields. */
  datatype CursorHandle = RealCursor(cls: string, wrapped: RealObject) | Recorder(recording: RecordingCursor)

  /** `_RecordingConnection` */
  class RecordingConnection {
    const db: DatabaseMock
    /** `_connection` */
    const connection: RealObject
    /** `_cursorclass` */
    const cursorclass: CursorClass

    constructor (db: DatabaseMock, connection: RealObject, cursorclass: CursorClass)
      ensures this.db == db && this.connection == connection && this.cursorclass == cursorclass
    {
      this.db := db;
      this.connection := connection;
      this.cursorclass := cursorclass;
    }

    /**
     * `_record`: calls the real member and appends what it returned under
     * `connection--<name>`; a raised exception propagates and nothing is
     * appended.
     */
    method Record(name: string, realName: string, answer: Outcome) returns (r: Outcome)
      modifies db, connection
      ensures r == answer
      ensures db.data == RecordStep(old(db.data), Ledger.Call(Plain, ConnectionKey(name), answer))
      ensures connection.calls == old(connection.calls) + [realName]
    {
      r := connection.Invoke(realName, answer);
      if r.Returned? {
        db.RecordValue(ConnectionKey(name), r.value);
      }
    }

    /**
     * A member of the recording connection: ledger members go through
     * `_record` (`get_host_info` reads the real `host_info`); every other
     * member is forwarded to the real connection, unrecorded, returning its
     * result or None.
     */
    method Call(m: ConnectionMember, answer: Outcome) returns (r: Outcome)
      modifies db, connection
      ensures connection.calls == old(connection.calls) + [RealConnectionName(m)]
      ensures RecordingConnectionHandling(m) == Records ==>
        r == answer && db.data == RecordStep(old(db.data), Ledger.Call(Plain, ConnectionKey(ConnectionName(m)), answer))
      ensures RecordingConnectionHandling(m) != Records ==> db.data == old(db.data)
      ensures RecordingConnectionHandling(m) == Forwards ==> r == answer
      ensures RecordingConnectionHandling(m) == ForwardsDiscards ==>
        r == if answer.Raised? then answer else Returned(NoneValue)
    {
      var handling := RecordingConnectionHandling(m);
      if handling == Records {
        r := Record(ConnectionName(m), RealConnectionName(m), answer);
      } else {
        r := connection.Invoke(RealConnectionName(m), answer);
        if handling != Forwards && r.Returned? {
          r := Returned(NoneValue);
        }
      }
    }

    /**
     * `cursor(cursor=None)`: `self._cursorclass(self)`; the requested class is
     * ignored. With the recording factory this is a new recording cursor on
     * the factory's ledger around a new real cursor of the inner class; a
     * None class raises TypeError when it is called.
     */
    method Cursor(requested: Option<string>) returns (c: Result<CursorHandle>)
      ensures c.Err? <==> (if cursorclass.Named? then cursorclass.name else cursorclass.inner).None?
      ensures c.Err? ==> c.error == NotCallable
      ensures cursorclass.RecordingFactory? && c.Ok? ==>
        && c.value.Recorder? && fresh(c.value.recording) && c.value.recording.db == cursorclass.db
        && Some(c.value.recording.cursorclass) == cursorclass.inner
        && fresh(c.value.recording.cursor) && c.value.recording.cursor.calls == []
      ensures cursorclass.Named? && c.Ok? ==>
        c.value.RealCursor? && Some(c.value.cls) == cursorclass.name && fresh(c.value.wrapped)
    {
      match cursorclass
      case RecordingFactory(factoryDb, inner) =>
        if inner.None? {
          return Err(NotCallable);
        }
        var rc := new RecordingCursor(factoryDb, inner.value);
        c := Ok(Recorder(rc));
      case Named(name) =>
        if name.None? {
          return Err(NotCallable);
        }
        var underlying := new RealObject();
        c := Ok(RealCursor(name.value, underlying));
    }
  }

  /** `_recording_mock_cursorclass` */
  function RecordingMockCursorclass(db: DatabaseMock, inner: Option<string>): CursorClass {
    RecordingFactory(db, inner)
  }

  /** `pymysql.cursors.Cursor`, the class used when `connect` is given none. */
  const DefaultCursorClass := "pymysql.cursors.Cursor"

  /** `pymysql.connect`, seen through the `cursorclass` keyword of each call. */
  class Backend {
    var connects: seq<Option<CursorClass>>

    constructor ()
      ensures connects == []
    {
      connects := [];
    }

    /** Opens a real connection, or raises `refusal` (an unreachable server, bad credentials). */
    method Connect(cursorclass: Option<CursorClass>, refusal: Option<Error>) returns (r: Result<RealObject>)
      modifies this
      ensures connects == old(connects) + [cursorclass]
      ensures refusal.Some? ==> r == Err(refusal.value)
      ensures refusal.None? ==> r.Ok? && fresh(r.value) && r.value.calls == []
    {
      connects := connects + [cursorclass];
      if refusal.Some? {
        return Err(refusal.value);
      }
      var c := new RealObject();
      r := Ok(c);
    }
  }

  /** What the connect function hands the code under test. */
  datatype Connected =
    | RealConnection(direct: RealObject)
    | RecordingConn(recording: RecordingConnection)
    | MockConn(mock: MockConnection)

  /**
   * The function `mock_connect(db, pymysql.connect)` returns, called with the
   * keyword `cursorclass`, absent or passed: NORMAL passes the call through,
   * STORE_DATA connects with a recording cursor factory and wraps the
   * connection, MOCK never reaches the database. Only an absent keyword
   * gets the default class; an explicit `cursorclass=None` is wrapped as it
   * is, so the recording connection's `cursor()` raises TypeError.
   */
  method MockConnect(db: DatabaseMock, backend: Backend, cursorclass: Keyword<Option<string>>, refusal: Option<Error>)
    returns (r: Result<Connected>)
    modifies backend
    ensures db.mode == Normal ==>
      && backend.connects == old(backend.connects) + [if cursorclass.Passed? then Some(Named(cursorclass.value)) else None]
      && (refusal.Some? ==> r == Err(refusal.value))
      && (refusal.None? ==> r.Ok? && r.value.RealConnection? && fresh(r.value.direct))
    ensures db.mode == StoreData ==>
      var factory := RecordingFactory(db, if cursorclass.Passed? then cursorclass.value else Some(DefaultCursorClass));
      && backend.connects == old(backend.connects) + [Some(factory)]
      && (refusal.Some? ==> r == Err(refusal.value))
      && (refusal.None? ==>
            && r.Ok? && r.value.RecordingConn? && fresh(r.value.recording)
            && r.value.recording.db == db && r.value.recording.cursorclass == factory
            && fresh(r.value.recording.connection))
    ensures db.mode == Mock ==>
      backend.connects == old(backend.connects) && r.Ok? && r.value.MockConn? && fresh(r.value.mock) && r.value.mock.db == db
  {
    match db.mode
    case Normal =>
      var c := backend.Connect(if cursorclass.Passed? then Some(Named(cursorclass.value)) else None, refusal);
      if c.Err? {
        return Err(c.error);
      }
      r := Ok(RealConnection(c.value));
    case StoreData =>
      var factory := RecordingMockCursorclass(db, if cursorclass.Passed? then cursorclass.value else Some(DefaultCursorClass));
      var c := backend.Connect(Some(factory), refusal);
      if c.Err? {
        return Err(c.error);
      }
      var rc := new RecordingConnection(db, c.value, factory);
      r := Ok(RecordingConn(rc));
    case Mock =>
      var mc := new MockConnection(db);
      r := Ok(MockConn(mc));
  }

  /**
   * `pymysql.connect(..., cursorclass=None)` in STORE_DATA: the connection is
   * made and wrapped, and its first `cursor()` raises TypeError, where
   * leaving the keyword out gives a recording `pymysql.cursors.Cursor`.
   */
  method ExplicitNoneCursorclass(db: DatabaseMock, backend: Backend) returns (explicit: Result<CursorHandle>, absent: Result<CursorHandle>)
    requires db.mode == StoreData
    modifies backend
    ensures explicit == Err(NotCallable)
    ensures absent.Ok? && absent.value.Recorder? && absent.value.recording.cursorclass == DefaultCursorClass
  {
    var withNone := MockConnect(db, backend, Passed(None), None);
    explicit := withNone.value.recording.Cursor(None);
    var withDefault := MockConnect(db, backend, Absent, None);
    absent := withDefault.value.recording.Cursor(None);
  }
}
