/**
 * A whole test session seen through the proxies: the calls the code under
 * test makes, what the recording proxies append for them in STORE_DATA mode,
 * and what the mock proxies pop for the same calls in MOCK mode.
 */
module Session {
  import opened Ledger
  import opened Surface

  /**
   * One call that goes through a proxy, with what the real member did: a
   * call the code under test makes, or, in the record run only, a call the
   * real cursor makes on the recording connection it was built with (PyMySQL
   * escapes query parameters through `connection.literal`/`escape`).
   */
  datatype Intercepted =
    | OnCursor(cursorMember: CursorMember, answer: Outcome)
    | OnConnection(connectionMember: ConnectionMember, answer: Outcome)
    | OnUserValue(value: Value)
    | FromRealCursor(callbackMember: ConnectionMember, answer: Outcome)

  /** The ledger call `i` amounts to; cursors use `cursorDisc`, connections and `user_value` the plain discipline. */
  function AsCall(cursorDisc: Discipline, i: Intercepted): Call {
    match i
    case OnCursor(m, a) => Ledger.Call(cursorDisc, CursorKey(CursorName(m)), a)
    case OnConnection(m, a) => Ledger.Call(Plain, ConnectionKey(ConnectionName(m)), a)
    case FromRealCursor(m, a) => Ledger.Call(Plain, ConnectionKey(ConnectionName(m)), a)
    case OnUserValue(v) => Ledger.Call(Plain, UserKey, Returned(v))
  }

  /** Whether the recording proxies go through the ledger for `i`. */
  predicate Writes(i: Intercepted) {
    match i
    case OnCursor(m, _) => RecordingCursorHandling(m) in {Records, RecordsDiscards}
    case OnConnection(m, _) => RecordingConnectionHandling(m) == Records
    case FromRealCursor(m, _) => RecordingConnectionHandling(m) == Records
    case OnUserValue(_) => true
  }

  /** Whether the mock proxies answer `i` from the ledger; the mock cursor never calls its connection. */
  predicate Pops(i: Intercepted) {
    match i
    case FromRealCursor(_, _) => false
    case OnCursor(m, _) => MockCursorAnswer(m) == FromLedger
    case OnConnection(m, _) => MockConnectionAnswer(m) == FromLedger
    case OnUserValue(_) => true
  }

  /** Keys the recorders write that no mock reads: the cursor's `connection` and `scroll`. */
  const WriteOnlyKeys: set<Key> := {CursorKey("connection"), CursorKey("scroll")}

  /** The keys the real cursor's own calls on the recording connection write in session `s`. */
  function CallbackKeys(s: seq<Intercepted>): set<Key> {
    set i | i in s && i.FromRealCursor? && Writes(i) :: ConnectionKey(ConnectionName(i.callbackMember))
  }

  /** The code under test reads none of the keys the real cursor writes behind its back. */
  predicate NoCallbackReads(cursorDisc: Discipline, s: seq<Intercepted>) {
    forall c | c in PoppedCalls(cursorDisc, s) :: c.key !in CallbackKeys(s)
  }

  /** The ledger calls of the record run, in order. */
  function WrittenCalls(cursorDisc: Discipline, s: seq<Intercepted>): seq<Call>
    decreases |s|
  {
    if s == [] then []
    else (if Writes(s[0]) then [AsCall(cursorDisc, s[0])] else []) + WrittenCalls(cursorDisc, s[1..])
  }

  /** The ledger calls of the replay run, in order. */
  function PoppedCalls(cursorDisc: Discipline, s: seq<Intercepted>): seq<Call>
    decreases |s|
  {
    if s == [] then []
    else (if Pops(s[0]) then [AsCall(cursorDisc, s[0])] else []) + PoppedCalls(cursorDisc, s[1..])
  }

  /** The cursor case of `CallKeys`: only `connection` and `scroll` are written and not read. */
  lemma CursorCallKeys(cursorDisc: Discipline, m: CursorMember, a: Outcome)
    ensures var i := OnCursor(m, a);
      && (Pops(i) ==> Writes(i) && AsCall(cursorDisc, i).key !in WriteOnlyKeys)
      && (Writes(i) && !Pops(i) ==> AsCall(cursorDisc, i).key in WriteOnlyKeys)
  {
    LedgerMembersAgree(m, Open);
    KeysAreSeparate(CursorName(m), "connection");
    KeysAreSeparate(CursorName(m), "scroll");
  }

  /** The connection case of `CallKeys`: every member read is written, under a connection key. */
  lemma ConnectionCallKeys(cursorDisc: Discipline, m: ConnectionMember, a: Outcome)
    ensures var i := OnConnection(m, a);
      && (Pops(i) ==> Writes(i) && AsCall(cursorDisc, i).key !in WriteOnlyKeys)
      && (Writes(i) ==> Pops(i))
  {
    LedgerMembersAgree(Connection, m);
    KeysAreSeparate("connection", ConnectionName(m));
    KeysAreSeparate("scroll", ConnectionName(m));
  }

  /**
   * Every member a mock reads is one its recorder writes, under the same key;
   * the members the code under test has recorded but not read write only
   * the write-only keys.
   */
  lemma CallKeys(cursorDisc: Discipline, i: Intercepted)
    ensures Pops(i) ==> Writes(i) && AsCall(cursorDisc, i).key !in WriteOnlyKeys
    ensures Writes(i) && !Pops(i) && !i.FromRealCursor? ==> AsCall(cursorDisc, i).key in WriteOnlyKeys
  {
    match i
    case OnCursor(m, a) => CursorCallKeys(cursorDisc, m, a);
    case OnConnection(m, a) => ConnectionCallKeys(cursorDisc, m, a);
    case FromRealCursor(_, _) =>
    case OnUserValue(_) =>
      KeysAreSeparate("connection", "");
      KeysAreSeparate("scroll", "");
  }

  /** What a concatenation of calls stores under a key is what each part stores, in order. */
  lemma {:induction false} RecordedConcat(a: seq<Call>, b: seq<Call>, k: Key)
    ensures Recorded(a + b, k) == Recorded(a, k) + Recorded(b, k)
    decreases |a|
  {
    if a != [] {
      var c := Captured(a[0].disc, a[0].actual);
      var head: seq<Value> := if a[0].key == k && c.Some? then [c.value] else [];
      assert (a + b)[0] == a[0];
      assert (a + b)[1..] == a[1..] + b;
      RecordedConcat(a[1..], b, k);
      assert Recorded(a + b, k) == head + (Recorded(a[1..], k) + Recorded(b, k));
      assert Recorded(a, k) == head + Recorded(a[1..], k);
    } else {
      assert a + b == b;
    }
  }

  /** The entries one call of the session contributes under `k`, to the record run and to the replay run. */
  lemma CallContribution(cursorDisc: Discipline, i: Intercepted, k: Key)
    ensures && (k in WriteOnlyKeys ==> Recorded(if Pops(i) then [AsCall(cursorDisc, i)] else [], k) == [])
      && (k !in WriteOnlyKeys && !(i.FromRealCursor? && Writes(i) && AsCall(cursorDisc, i).key == k) ==>
            Recorded(if Pops(i) then [AsCall(cursorDisc, i)] else [], k)
            == Recorded(if Writes(i) then [AsCall(cursorDisc, i)] else [], k))
  {
    CallKeys(cursorDisc, i);
    var c := AsCall(cursorDisc, i);
    assert [c][1..] == [];
  }

  /**
   * Under every key the mocks read and the real cursor does not write, the
   * replay run pops exactly the entries the record run appended; under the
   * write-only keys it pops nothing.
   */
  lemma {:induction false} SessionQueues(cursorDisc: Discipline, s: seq<Intercepted>, k: Key)
    ensures k in WriteOnlyKeys ==> Recorded(PoppedCalls(cursorDisc, s), k) == []
    ensures k !in WriteOnlyKeys && k !in CallbackKeys(s) ==>
      Recorded(PoppedCalls(cursorDisc, s), k) == Recorded(WrittenCalls(cursorDisc, s), k)
    decreases |s|
  {
    if s != [] {
      assert s[0] in s;
      assert CallbackKeys(s[1..]) <= CallbackKeys(s) by {
        forall i | i in s[1..] ensures i in s { }
      }
      var c := AsCall(cursorDisc, s[0]);
      var w0: seq<Call> := if Writes(s[0]) then [c] else [];
      var p0: seq<Call> := if Pops(s[0]) then [c] else [];
      SessionQueues(cursorDisc, s[1..], k);
      RecordedConcat(w0, WrittenCalls(cursorDisc, s[1..]), k);
      RecordedConcat(p0, PoppedCalls(cursorDisc, s[1..]), k);
      CallContribution(cursorDisc, s[0], k);
      if s[0].FromRealCursor? && Writes(s[0]) {
        assert AsCall(cursorDisc, s[0]).key in CallbackKeys(s);
      }
    }
  }

  /** A trace with no call under `k` stores nothing under `k`. */
  lemma {:induction false} RecordedAbsent(t: seq<Call>, k: Key)
    requires forall c | c in t :: c.key != k
    ensures Recorded(t, k) == []
    decreases |t|
  {
    if t != [] {
      assert t[0] in t;
      forall c | c in t[1..] ensures c.key != k {
        assert c in t;
      }
      RecordedAbsent(t[1..], k);
    }
  }

  /**
   * Session round trip: record a session into a fresh ledger, then replay the
   * same session against it. Every member the mocks answer from the ledger
   * gives back, in order, what the real member gave in the record run,
   * provided each of those outcomes is one its discipline reproduces; the
   * members in between that are forwarded, stubbed, or recorded and never
   * read do not disturb this, and neither do the calls the real cursor makes
   * on the recording connection, provided the code under test does not read
   * those keys itself.
   */
  lemma SessionRoundTrip(cursorDisc: Discipline, s: seq<Intercepted>)
    requires AllReplayable(PoppedCalls(cursorDisc, s))
    requires NoCallbackReads(cursorDisc, s)
    ensures ReplayTrace(RecordTrace(map[], WrittenCalls(cursorDisc, s)), PoppedCalls(cursorDisc, s)).outcomes
      == Reals(PoppedCalls(cursorDisc, s))
  {
    var w := WrittenCalls(cursorDisc, s);
    var p := PoppedCalls(cursorDisc, s);
    var d := RecordTrace(map[], w);
    forall k ensures Recorded(p, k) <= Queue(d, k) {
      RecordTraceQueues(map[], w, k);
      SessionQueues(cursorDisc, s, k);
      if k in CallbackKeys(s) {
        RecordedAbsent(p, k);
      }
    }
    ReplayRecordedPrefix(d, p);
  }

  /** A `literal` answered for the real cursor, then one the test asks for: both are written, only the second is read. */
  lemma CallbackSessionCalls(x: Value, y: Value)
    ensures var s := [FromRealCursor(Literal, Returned(x)), OnConnection(Literal, Returned(y))];
      var k := ConnectionKey("literal");
      && WrittenCalls(Capturing, s) == [Ledger.Call(Plain, k, Returned(x)), Ledger.Call(Plain, k, Returned(y))]
      && PoppedCalls(Capturing, s) == [Ledger.Call(Plain, k, Returned(y))]
      && k in CallbackKeys(s)
  {
    var s := [FromRealCursor(Literal, Returned(x)), OnConnection(Literal, Returned(y))];
    assert s[1..] == [s[1]] && s[1..][1..] == [];
    assert WrittenCalls(Capturing, s[1..]) == [AsCall(Capturing, s[1])] + WrittenCalls(Capturing, []);
    assert PoppedCalls(Capturing, s[1..]) == [AsCall(Capturing, s[1])] + PoppedCalls(Capturing, []);
    assert s[0] in s;
  }

  /** Two entries recorded under one key, one call replayed: it gets the first. */
  lemma ReplayTakesFirstEntry(k: Key, x: Value, y: Value)
    ensures var cx := Ledger.Call(Plain, k, Returned(x));
      var cy := Ledger.Call(Plain, k, Returned(y));
      ReplayTrace(RecordTrace(map[], [cx, cy]), [cy]).outcomes == [Returned(x)]
  {
    var cx := Ledger.Call(Plain, k, Returned(x));
    var cy := Ledger.Call(Plain, k, Returned(y));
    assert [cx, cy][1..] == [cy] && [cy][1..] == [];
    var d1 := RecordStep(map[], cx);
    assert Queue(map[], k) + [x] == [x];
    assert d1 == map[k := [x]];
    assert Queue(d1, k) + [y] == [x, y];
    var d := RecordTrace(map[], [cx, cy]);
    assert d == RecordTrace(d1, [cy]);
    assert RecordTrace(d1, [cy]) == RecordTrace(RecordStep(d1, cy), []);
    assert d == map[k := [x, y]];
    assert ReplayTrace(d, [cy]).outcomes == [Returned(x)] + ReplayTrace(Pop(d, k).after, []).outcomes;
  }

  /**
   * Why the proviso is needed: a parameterised query makes the real cursor
   * call `literal` on the recording connection, which records the answer;
   * when the test then calls `literal` itself, the replay run, whose mock
   * cursor calls nothing, hands it the cursor's entry instead of its own.
   */
  lemma CallbackShiftsReplay(x: Value, y: Value)
    requires x != y
    ensures var s := [FromRealCursor(Literal, Returned(x)), OnConnection(Literal, Returned(y))];
      && !NoCallbackReads(Capturing, s)
      && Reals(PoppedCalls(Capturing, s)) == [Returned(y)]
      && ReplayTrace(RecordTrace(map[], WrittenCalls(Capturing, s)), PoppedCalls(Capturing, s)).outcomes == [Returned(x)]
  {
    var s := [FromRealCursor(Literal, Returned(x)), OnConnection(Literal, Returned(y))];
    var k := ConnectionKey("literal");
    CallbackSessionCalls(x, y);
    ReplayTakesFirstEntry(k, x, y);
    assert PoppedCalls(Capturing, s)[0] in PoppedCalls(Capturing, s);
  }
}
