/**
 * The PyMySQL surface both packages proxy, as closed lists of members, the
 * ledger keys derived from them, and how each proxy class treats each member.
 * The two packages define the same four proxy classes with the same members;
 * they differ only in what their recorders and mocks do with exceptions,
 * which `Ledger.Discipline` captures.
 */
module Surface {
  import opened Ledger

  /** Members of a cursor that the proxies define (getters and methods). */
  datatype CursorMember =
    | Connection | Description | Rownumber | Rowcount | Arraysize | Lastrowid | MaxStmtLength
    | Close | SetInputSizes | SetOutputSizes | Nextset | Mogrify | Execute | ExecuteMany
    | CallProc | FetchOne | FetchMany | FetchAll | Scroll

  /** Cursor properties code may assign; all but `max_stmt_length` have a setter in the proxies. */
  datatype CursorAttribute =
    | ConnectionAttribute | DescriptionAttribute | RownumberAttribute | RowcountAttribute
    | ArraysizeAttribute | LastrowidAttribute | MaxStmtLengthAttribute

  /** Members of a connection that the recording proxy defines. */
  datatype ConnectionMember =
    | Open | CloseConnection | ForceClose | Autocommit | GetAutocommit | ReadOkPacket
    | SendAutocommitMode | Begin | Commit | Rollback | ShowWarnings | SelectDb | Escape
    | Literal | EscapeString | QuoteBytes | Query | NextResult | AffectedRows | Kill | Ping
    | SetCharset | Connect | WritePacket | ReadPacket | ReadBytes | WriteBytes
    | ReadQueryResult | InsertId | ExecuteCommand | RequestAuthentication | ProcessAuth
    | GetAuthPluginHandler | ThreadId | CharacterSetName | GetHostInfo | GetProtoInfo
    | GetServerInformation | GetServerInfo | ResultAttribute | CreateSslCtx

  function CursorName(m: CursorMember): string {
    match m
    case Connection => "connection"
    case Description => "description"
    case Rownumber => "rownumber"
    case Rowcount => "rowcount"
    case Arraysize => "arraysize"
    case Lastrowid => "lastrowid"
    case MaxStmtLength => "max_stmt_length"
    case Close => "close"
    case SetInputSizes => "setinputsizes"
    case SetOutputSizes => "setoutputsizes"
    case Nextset => "nextset"
    case Mogrify => "mogrify"
    case Execute => "execute"
    case ExecuteMany => "executemany"
    case CallProc => "callproc"
    case FetchOne => "fetchone"
    case FetchMany => "fetchmany"
    case FetchAll => "fetchall"
    case Scroll => "scroll"
  }

  function AttributeMember(a: CursorAttribute): CursorMember {
    match a
    case ConnectionAttribute => Connection
    case DescriptionAttribute => Description
    case RownumberAttribute => Rownumber
    case RowcountAttribute => Rowcount
    case ArraysizeAttribute => Arraysize
    case LastrowidAttribute => Lastrowid
    case MaxStmtLengthAttribute => MaxStmtLength
  }

  function ConnectionName(m: ConnectionMember): string {
    match m
    case Open => "open"
    case CloseConnection => "close"
    case ForceClose => "_force_close"
    case Autocommit => "autocommit"
    case GetAutocommit => "get_autocommit"
    case ReadOkPacket => "_read_ok_packet"
    case SendAutocommitMode => "_send_autocommit_mode"
    case Begin => "begin"
    case Commit => "commit"
    case Rollback => "rollback"
    case ShowWarnings => "show_warnings"
    case SelectDb => "select_db"
    case Escape => "escape"
    case Literal => "literal"
    case EscapeString => "escape_string"
    case QuoteBytes => "_quote_bytes"
    case Query => "query"
    case NextResult => "next_result"
    case AffectedRows => "affected_rows"
    case Kill => "kill"
    case Ping => "ping"
    case SetCharset => "set_charset"
    case Connect => "connect"
    case WritePacket => "write_packet"
    case ReadPacket => "_read_packet"
    case ReadBytes => "_read_bytes"
    case WriteBytes => "_write_bytes"
    case ReadQueryResult => "_read_query_result"
    case InsertId => "insert_id"
    case ExecuteCommand => "_execute_command"
    case RequestAuthentication => "_request_authentication"
    case ProcessAuth => "_process_auth"
    case GetAuthPluginHandler => "_get_auth_plugin_handler"
    case ThreadId => "thread_id"
    case CharacterSetName => "character_set_name"
    case GetHostInfo => "get_host_info"
    case GetProtoInfo => "get_proto_info"
    case GetServerInformation => "_get_server_information"
    case GetServerInfo => "get_server_info"
    case ResultAttribute => "_result"
    case CreateSslCtx => "_create_ssl_ctx"
  }

  /**
   * The member of the real connection a recording connection calls for `m`.
   * For `get_host_info` it calls the real object's `host_info`, not
   * `get_host_info`.
   */
  function RealConnectionName(m: ConnectionMember): string {
    if m == GetHostInfo then "host_info" else ConnectionName(m)
  }

  const CursorPrefix := "cursor--"
  const ConnectionPrefix := "connection--"

  /** The reserved key of `user_value`. */
  const UserKey := "user--stored-value"

  /** `f"cursor--{key}"`: no cursor identity is part of the key. */
  function CursorKey(name: string): (k: Key)
    ensures |k| == |CursorPrefix| + |name|
    ensures k[..|CursorPrefix|] == CursorPrefix && k[|CursorPrefix|..] == name
  {
    CursorPrefix + name
  }

  /** `f"connection--{key}"` */
  function ConnectionKey(name: string): (k: Key)
    ensures |k| == |ConnectionPrefix| + |name|
    ensures k[..|ConnectionPrefix|] == ConnectionPrefix && k[|ConnectionPrefix|..] == name
  {
    ConnectionPrefix + name
  }

  /** Cursor keys, connection keys and the user key never collide, and each key determines its member name. */
  lemma KeysAreSeparate(a: string, b: string)
    ensures CursorKey(a) != ConnectionKey(b)
    ensures CursorKey(a) != UserKey && ConnectionKey(b) != UserKey
    ensures CursorKey(a) == CursorKey(b) ==> a == b
    ensures ConnectionKey(a) == ConnectionKey(b) ==> a == b
  {
    assert CursorKey(a)[1] == 'u' && ConnectionKey(b)[1] == 'o';
    assert UserKey[0] == 'u';
    assert CursorKey(a)[0] == 'c' && ConnectionKey(b)[0] == 'c';
    if CursorKey(a) == CursorKey(b) {
      assert a == CursorKey(a)[|CursorPrefix|..];
    }
    if ConnectionKey(a) == ConnectionKey(b) {
      assert a == ConnectionKey(a)[|ConnectionPrefix|..];
    }
  }

  /** How a mock proxy answers a member. */
  datatype MockAnswer =
    | FromLedger   // pops the member's queue
    | NoOp         // body is `pass`: returns None and touches nothing
    | OwnField     // the `connection` property of a mock cursor: its own attribute
    | Undefined    // the mock does not define the member: AttributeError

  /** How a recording proxy handles a member. */
  datatype Recording =
    | Records          // `_record`: real call, append, return the result
    | RecordsDiscards  // `_record` whose result is not returned (`scroll`)
    | Forwards         // calls the real member and returns its result, unrecorded
    | ForwardsDiscards // calls the real member and returns None, unrecorded
    | Ignores          // body is `pass`

  /** `_MockCursor` defines every member of the cursor surface; only `connection` is its own field. */
  function MockCursorAnswer(m: CursorMember): (a: MockAnswer)
    ensures a != Undefined
    ensures a == OwnField <==> m == Connection
    ensures a == NoOp <==> m in {Close, SetInputSizes, SetOutputSizes, Scroll}
  {
    match m
    case Connection => OwnField
    case Close | SetInputSizes | SetOutputSizes | Scroll => NoOp
    case _ => FromLedger
  }

  /** `_RecordingCursor` records every member except `close` and the two size setters; `scroll` drops the result. */
  function RecordingCursorHandling(m: CursorMember): (h: Recording)
    ensures h in {Records, RecordsDiscards} <==> m !in {Close, SetInputSizes, SetOutputSizes}
    ensures h == RecordsDiscards <==> m == Scroll
    ensures h != Forwards
  {
    match m
    case SetInputSizes | SetOutputSizes => Ignores
    case Close => ForwardsDiscards
    case Scroll => RecordsDiscards
    case _ => Records
  }

  /** `_MockConnection` answers the recorded members from the ledger, stubs the state-changing ones, lacks the rest. */
  function MockConnectionAnswer(m: ConnectionMember): (a: MockAnswer)
    ensures a != OwnField
  {
    match m
    case Open | GetAutocommit | ShowWarnings | Escape | Literal | EscapeString | Kill | InsertId
      | ThreadId | CharacterSetName | GetHostInfo | GetProtoInfo | GetServerInfo => FromLedger
    case CloseConnection | ForceClose | Autocommit | ReadOkPacket | SendAutocommitMode | Begin
      | Commit | Rollback | SelectDb | Ping | SetCharset | Connect | WritePacket => NoOp
    case _ => Undefined
  }

  /** `_RecordingConnection` records the informational members and forwards every other one. */
  function RecordingConnectionHandling(m: ConnectionMember): (h: Recording)
    ensures h != Ignores && h != RecordsDiscards
  {
    match m
    case Open | GetAutocommit | ShowWarnings | Escape | Literal | EscapeString | Kill | InsertId
      | ThreadId | CharacterSetName | GetHostInfo | GetProtoInfo | GetServerInfo => Records
    case QuoteBytes | Query | NextResult | AffectedRows | ReadPacket | ReadBytes | ReadQueryResult
      | ProcessAuth | GetAuthPluginHandler | ResultAttribute | CreateSslCtx => Forwards
    case _ => ForwardsDiscards
  }

  /**
   * The mock answers from the ledger exactly the keys the recorder writes,
   * except the cursor's `connection` and `scroll`, which are recorded but
   * never read back.
   */
  lemma LedgerMembersAgree(c: CursorMember, n: ConnectionMember)
    ensures MockCursorAnswer(c) == FromLedger <==> RecordingCursorHandling(c) == Records && c != Connection
    ensures RecordingCursorHandling(c) in {Records, RecordsDiscards} && MockCursorAnswer(c) != FromLedger
      <==> c in {Connection, Scroll}
    ensures MockConnectionAnswer(n) == FromLedger <==> RecordingConnectionHandling(n) == Records
    ensures MockConnectionAnswer(n) in {NoOp, Undefined} <==> RecordingConnectionHandling(n) in {Forwards, ForwardsDiscards}
    ensures MockConnectionAnswer(n) == NoOp ==> RecordingConnectionHandling(n) == ForwardsDiscards
  {
  }

  /** The message Python gives for a missing attribute. */
  function NoAttribute(cls: string, name: string): Error {
    Error("AttributeError", "'" + cls + "' object has no attribute '" + name + "'", true)
  }

  /** What Python raises on assigning a property that has no setter. */
  function NoSetter(cls: string, name: string): Error {
    Error("AttributeError", "property '" + name + "' of '" + cls + "' object has no setter", true)
  }

  /** What calling `None` raises, as `cursorclass(*args)` does when the class is None. */
  const NotCallable := Error("TypeError", "'NoneType' object is not callable", true)

  /** A keyword argument of a call: absent, or passed with a value (which may be Python's None). */
  datatype Keyword<T> = Absent | Passed(value: T)

  /**
   * A real PyMySQL object seen only through the calls made on it. What each
   * call returns or raises is supplied by the caller of the proxy (an oracle);
   * the object keeps the names of the members called, in order.
   */
  class RealObject {
    var calls: seq<string>

    constructor ()
      ensures calls == []
    {
      calls := [];
    }

    /** Calls member `name`; `answer` is what the real member does. */
    method Invoke(name: string, answer: Outcome) returns (r: Outcome)
      modifies this
      ensures r == answer
      ensures calls == old(calls) + [name]
    {
      calls := calls + [name];
      r := answer;
    }
  }
}
