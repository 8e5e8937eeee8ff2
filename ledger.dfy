/**
 * The outcome ledger: a map from call-site keys to FIFO queues of recorded
 * values, the two recording/replay disciplines the proxies use, and the
 * snapshot store the ledger is written to and read from.
 *
 * The ledger is a Python `defaultdict(list)`: touching a missing key, even to
 * pop from it, first inserts an empty queue for it.
 */
module Ledger {
  import opened Paths

  datatype Option<T> = None | Some(value: T)

  /**
   * A Python exception object: its class name, its message, and whether its
   * class derives from `Exception` rather than only from `BaseException`
   * (as `SystemExit`, `KeyboardInterrupt`, pytest's `Failed` and `Skipped`,
   * or `asyncio.CancelledError` do).
   */
  datatype Error = Error(kind: string, msg: string, isException: bool)

  /** What `list.pop(0)` raises on an empty list. */
  const EmptyPop := Error("IndexError", "pop from empty list", true)

  /** What opening a missing snapshot file raises. */
  const MissingFile := Error("FileNotFoundError", "No such file or directory", true)

  /** A recordable Python value: `None`, an ordinary value, or an exception object. */
  datatype Value = NoneValue | Data(repr: string) | Exc(error: Error) {
    /** `isinstance(value, Exception)` */
    predicate IsExceptionInstance() {
      Exc? && error.isException
    }
  }

  /** What a call does, as its caller sees it: it returns a value or it raises. */
  datatype Outcome = Returned(value: Value) | Raised(error: Error)

  datatype Result<T> = Ok(value: T) | Err(error: Error)

  type Key = string
  type LedgerMap = map<Key, seq<Value>>

  /** The queue under `k`; a key never touched has an empty queue. */
  function Queue(d: LedgerMap, k: Key): seq<Value> {
    if k in d then d[k] else []
  }

  /** `_data[k].append(v)` */
  function Append(d: LedgerMap, k: Key, v: Value): (r: LedgerMap)
    ensures Queue(r, k) == Queue(d, k) + [v]
    ensures forall j :: j != k ==> Queue(r, j) == Queue(d, j)
    ensures r.Keys == d.Keys + {k}
  {
    d[k := Queue(d, k) + [v]]
  }

  datatype Popped = Popped(outcome: Outcome, after: LedgerMap)

  /** `_data[k].pop(0)`: the head of the queue, or IndexError on an empty queue. */
  function Pop(d: LedgerMap, k: Key): (p: Popped)
    ensures Queue(d, k) == [] ==> p.outcome == Raised(EmptyPop) && Queue(p.after, k) == []
    ensures Queue(d, k) != [] ==> p.outcome == Returned(Queue(d, k)[0]) && Queue(p.after, k) == Queue(d, k)[1..]
    ensures forall j :: j != k ==> Queue(p.after, j) == Queue(d, j)
    ensures p.after.Keys == d.Keys + {k}
  {
    if Queue(d, k) == [] then Popped(Raised(EmptyPop), d[k := []])
    else Popped(Returned(d[k][0]), d[k := d[k][1..]])
  }

  /** Appending `vs` one after the other under `k`. */
  function AppendAll(d: LedgerMap, k: Key, vs: seq<Value>): LedgerMap
    decreases |vs|
  {
    if vs == [] then d else AppendAll(Append(d, k, vs[0]), k, vs[1..])
  }

  datatype Reads = Reads(outcomes: seq<Outcome>, after: LedgerMap)

  /** Popping `k` `n` times in a row. */
  function PopTimes(d: LedgerMap, k: Key, n: nat): Reads
    decreases n
  {
    if n == 0 then Reads([], d)
    else
      var p := Pop(d, k);
      var rest := PopTimes(p.after, k, n - 1);
      Reads([p.outcome] + rest.outcomes, rest.after)
  }

  /** Each value as the outcome of a call that returned it. */
  function AllReturned(vs: seq<Value>): (os: seq<Outcome>)
    ensures |os| == |vs|
    ensures forall i :: 0 <= i < |vs| ==> os[i] == Returned(vs[i])
  {
    if vs == [] then [] else [Returned(vs[0])] + AllReturned(vs[1..])
  }

  lemma {:induction false} AppendAllQueues(d: LedgerMap, k: Key, vs: seq<Value>)
    ensures Queue(AppendAll(d, k, vs), k) == Queue(d, k) + vs
    ensures forall j :: j != k ==> Queue(AppendAll(d, k, vs), j) == Queue(d, j)
    decreases |vs|
  {
    if vs != [] {
      AppendAllQueues(Append(d, k, vs[0]), k, vs[1..]);
      assert Queue(d, k) + [vs[0]] + vs[1..] == Queue(d, k) + vs;
    }
  }

  /** Popping a queue `n` times, for `n` up to its length, yields its first `n` entries in order and leaves the rest. */
  lemma {:induction false} PopTimesYieldsHead(d: LedgerMap, k: Key, n: nat)
    requires n <= |Queue(d, k)|
    ensures PopTimes(d, k, n).outcomes == AllReturned(Queue(d, k)[..n])
    ensures Queue(PopTimes(d, k, n).after, k) == Queue(d, k)[n..]
    decreases n
  {
    if n > 0 {
      var q := Queue(d, k);
      var p := Pop(d, k);
      assert Queue(p.after, k) == q[1..];
      PopTimesYieldsHead(p.after, k, n - 1);
      assert q[..n] == [q[0]] + q[1..][..n - 1];
      assert AllReturned(q[..n]) == [Returned(q[0])] + AllReturned(q[1..][..n - 1]);
      assert q[1..][n - 1..] == q[n..];
    }
  }

  /** One pop beyond the queue's length raises IndexError. */
  lemma {:induction false} PopTimesOverrun(d: LedgerMap, k: Key)
    ensures PopTimes(d, k, |Queue(d, k)| + 1).outcomes == AllReturned(Queue(d, k)) + [Raised(EmptyPop)]
  {
    var q := Queue(d, k);
    var n := |q|;
    PopTimesYieldsHead(d, k, n);
    assert q[..n] == q;
    PopTimesSplit(d, k, n);
  }

  /** Popping `n + 1` times is popping `n` times and then once more. */
  lemma {:induction false} PopTimesSplit(d: LedgerMap, k: Key, n: nat)
    ensures PopTimes(d, k, n + 1).outcomes == PopTimes(d, k, n).outcomes + [Pop(PopTimes(d, k, n).after, k).outcome]
    ensures PopTimes(d, k, n + 1).after == Pop(PopTimes(d, k, n).after, k).after
    decreases n
  {
    if n > 0 {
      var p := Pop(d, k);
      PopTimesSplit(p.after, k, n - 1);
      assert [p.outcome] + PopTimes(p.after, k, n - 1).outcomes + [Pop(PopTimes(p.after, k, n - 1).after, k).outcome]
        == [p.outcome] + (PopTimes(p.after, k, n - 1).outcomes + [Pop(PopTimes(p.after, k, n - 1).after, k).outcome]);
    }
  }

  /** FIFO per key: appending v1..vn to an empty queue and popping it n times yields v1..vn. */
  lemma FifoPerKey(d: LedgerMap, k: Key, vs: seq<Value>)
    requires Queue(d, k) == []
    ensures PopTimes(AppendAll(d, k, vs), k, |vs|).outcomes == AllReturned(vs)
    ensures Queue(PopTimes(AppendAll(d, k, vs), k, |vs|).after, k) == []
    ensures PopTimes(AppendAll(d, k, vs), k, |vs| + 1).outcomes == AllReturned(vs) + [Raised(EmptyPop)]
  {
    AppendAllQueues(d, k, vs);
    PopTimesYieldsHead(AppendAll(d, k, vs), k, |vs|);
    PopTimesOverrun(AppendAll(d, k, vs), k);
    assert vs[..|vs|] == vs;
  }

  // ---------------------------------------------------------------------------
  // Recording and replay disciplines

  /**
   * Capturing: the autorecord cursor proxies. The recorder stores the exception
   * object of a failed real call and re-raises it; the mock raises a stored
   * exception object.
   * Plain: the autorecord connection proxies, `user_value` and every proxy of
   * the snapshot_mock package. The recorder lets a failure propagate without
   * storing anything; the mock returns what it pops as it is.
   */
  datatype Discipline = Capturing | Plain

  /** The entry a recorder appends for a real call with outcome `actual`, if any. */
  function Captured(disc: Discipline, actual: Outcome): (c: Option<Value>)
    ensures actual.Returned? ==> c == Some(actual.value)
    ensures actual.Raised? ==> (c.Some? <==> disc == Capturing && actual.error.isException)
  {
    match actual
    case Returned(v) => Some(v)
    case Raised(e) => if disc == Capturing && e.isException then Some(Exc(e)) else None
  }

  /** What a mock turns the outcome of its pop into. */
  function Replayed(disc: Discipline, popped: Outcome): (r: Outcome)
    ensures popped.Raised? ==> r == popped
    ensures disc == Plain ==> r == popped
  {
    match popped
    case Raised(e) => Raised(e)
    case Returned(v) => if disc == Capturing && v.IsExceptionInstance() then Raised(v.error) else Returned(v)
  }

  /** Real outcomes the discipline reproduces on replay. */
  predicate Replayable(disc: Discipline, actual: Outcome) {
    match disc
    case Capturing => (actual.Returned? ==> !actual.value.IsExceptionInstance()) && (actual.Raised? ==> actual.error.isException)
    case Plain => actual.Returned?
  }

  /** One call's round trip: what is recorded replays as the real outcome exactly when it is replayable. */
  lemma CallRoundTrip(disc: Discipline, actual: Outcome)
    ensures Replayable(disc, actual) <==> (Captured(disc, actual).Some? && Replayed(disc, Returned(Captured(disc, actual).value)) == actual)
  {
  }

  /** One intercepted call: its discipline, its ledger key and what the real call did. */
  datatype Call = Call(disc: Discipline, key: Key, actual: Outcome)

  function RecordStep(d: LedgerMap, c: Call): LedgerMap {
    match Captured(c.disc, c.actual)
    case Some(v) => Append(d, c.key, v)
    case None => d
  }

  /** The ledger after recording the calls of `t` in order. */
  function RecordTrace(d: LedgerMap, t: seq<Call>): LedgerMap
    decreases |t|
  {
    if t == [] then d else RecordTrace(RecordStep(d, t[0]), t[1..])
  }

  /** The entries the calls of `t` append under `k`, in order. */
  function Recorded(t: seq<Call>, k: Key): seq<Value>
    decreases |t|
  {
    if t == [] then []
    else
      var c := Captured(t[0].disc, t[0].actual);
      (if t[0].key == k && c.Some? then [c.value] else []) + Recorded(t[1..], k)
  }

  /** What the recorders hand back: every real outcome, unchanged. */
  function Reals(t: seq<Call>): (os: seq<Outcome>)
    ensures |os| == |t|
    ensures forall i :: 0 <= i < |t| ==> os[i] == t[i].actual
  {
    if t == [] then [] else [t[0].actual] + Reals(t[1..])
  }

  datatype Replay = Replay(outcomes: seq<Outcome>, after: LedgerMap)

  /** The mocks answering the calls of `t` (same disciplines, same keys) from ledger `d`. */
  function ReplayTrace(d: LedgerMap, t: seq<Call>): Replay
    decreases |t|
  {
    if t == [] then Replay([], d)
    else
      var p := Pop(d, t[0].key);
      var rest := ReplayTrace(p.after, t[1..]);
      Replay([Replayed(t[0].disc, p.outcome)] + rest.outcomes, rest.after)
  }

  lemma {:induction false} RecordTraceQueues(d: LedgerMap, t: seq<Call>, k: Key)
    ensures Queue(RecordTrace(d, t), k) == Queue(d, k) + Recorded(t, k)
    decreases |t|
  {
    if t != [] {
      RecordTraceQueues(RecordStep(d, t[0]), t[1..], k);
      var c := Captured(t[0].disc, t[0].actual);
      if t[0].key == k && c.Some? {
        assert Queue(d, k) + [c.value] + Recorded(t[1..], k) == Queue(d, k) + Recorded(t, k);
      }
    }
  }

  predicate AllReplayable(t: seq<Call>) {
    forall i :: 0 <= i < |t| ==> Replayable(t[i].disc, t[i].actual)
  }

  /**
   * Replaying from a ledger whose every queue begins with what `t` records
   * reproduces the real outcomes of `t` and consumes exactly those entries.
   */
  lemma {:induction false} ReplayRecordedPrefix(d: LedgerMap, t: seq<Call>)
    requires AllReplayable(t)
    requires forall k :: Recorded(t, k) <= Queue(d, k)
    ensures ReplayTrace(d, t).outcomes == Reals(t)
    ensures forall k :: Queue(ReplayTrace(d, t).after, k) == Queue(d, k)[|Recorded(t, k)|..]
    decreases |t|
  {
    if t != [] {
      var c := t[0];
      var k0 := c.key;
      assert Replayable(c.disc, c.actual);
      CallRoundTrip(c.disc, c.actual);
      var v := Captured(c.disc, c.actual).value;
      assert Recorded(t, k0) == [v] + Recorded(t[1..], k0);
      assert Queue(d, k0)[0] == v;
      var p := Pop(d, k0);
      assert p.outcome == Returned(v);
      forall k ensures Recorded(t[1..], k) <= Queue(p.after, k) {
        if k == k0 {
          assert Recorded(t, k) <= Queue(d, k);
        } else {
          assert Recorded(t, k) == Recorded(t[1..], k);
        }
      }
      assert AllReplayable(t[1..]) by {
        forall i | 0 <= i < |t[1..]| ensures Replayable(t[1..][i].disc, t[1..][i].actual) {
          assert t[1..][i] == t[i + 1];
        }
      }
      ReplayRecordedPrefix(p.after, t[1..]);
      forall k ensures Queue(ReplayTrace(d, t).after, k) == Queue(d, k)[|Recorded(t, k)|..] {
        if k != k0 {
          assert Recorded(t, k) == Recorded(t[1..], k);
        }
      }
    }
  }

  /**
   * Round trip: recording any interleaving of calls into a fresh ledger and
   * replaying the same calls reproduces every returned value and every raised
   * exception in order, provided each real outcome is one its discipline
   * reproduces; afterwards every queue is drained.
   */
  lemma RoundTrip(t: seq<Call>)
    requires AllReplayable(t)
    ensures ReplayTrace(RecordTrace(map[], t), t).outcomes == Reals(t)
    ensures forall k :: Queue(ReplayTrace(RecordTrace(map[], t), t).after, k) == []
  {
    var d := RecordTrace(map[], t);
    forall k ensures Queue(d, k) == Recorded(t, k) {
      RecordTraceQueues(map[], t, k);
    }
    ReplayRecordedPrefix(d, t);
  }

  /** A failure under the plain discipline is not stored, so its replay reads an empty queue instead. */
  lemma PlainFailureIsNotReplayed(k: Key, e: Error)
    requires e != EmptyPop
    ensures var t := [Call(Plain, k, Raised(e))];
      RecordTrace(map[], t) == map[] && ReplayTrace(RecordTrace(map[], t), t).outcomes == [Raised(EmptyPop)]
  {
  }

  /** A real call that returns (not raises) an exception object is raised by a capturing mock. */
  lemma CapturingRaisesReturnedException(k: Key, e: Error)
    requires e.isException
    ensures var t := [Call(Capturing, k, Returned(Exc(e)))];
      ReplayTrace(RecordTrace(map[], t), t).outcomes == [Raised(e)]
  {
  }

  /** The result of iterating a mock cursor: rows yielded, how it ended, what is left of the queue. */
  datatype Drain = Drain(rows: seq<Value>, stop: Outcome, rest: seq<Value>)

  /**
   * `iter(cursor.fetchone, None)` on a mock reading queue `q`: yields popped
   * values until one is None (a normal end) or a pop raises.
   */
  function FetchUntilNone(disc: Discipline, q: seq<Value>): (d: Drain)
    ensures NoneValue !in d.rows
    ensures d.stop == Returned(NoneValue) || d.stop.Raised?
    ensures |d.rest| <= |q|
    ensures q != [] ==> |d.rest| < |q|
    decreases |q|
  {
    if q == [] then Drain([], Raised(EmptyPop), [])
    else
      match Replayed(disc, Returned(q[0]))
      case Raised(e) => Drain([], Raised(e), q[1..])
      case Returned(v) =>
        if v == NoneValue then Drain([], Returned(NoneValue), q[1..])
        else
          var d := FetchUntilNone(disc, q[1..]);
          Drain([v] + d.rows, d.stop, d.rest)
  }

  /**
   * Iteration consumes the queue up to and including the first None; it ends
   * with IndexError when the queue holds no None, and under the capturing
   * discipline it stops early at a stored exception, which it raises.
   */
  lemma {:induction false} FetchUntilNoneSplits(disc: Discipline, q: seq<Value>)
    ensures var d := FetchUntilNone(disc, q);
      && (d.stop == Returned(NoneValue) ==> q == d.rows + [NoneValue] + d.rest)
      && (d.stop.Raised? ==>
            (q == d.rows && d.rest == [] && d.stop == Raised(EmptyPop))
            || (disc == Capturing && q == d.rows + [Exc(d.stop.error)] + d.rest && d.stop.error.isException))
    decreases |q|
  {
    if q != [] {
      var d := FetchUntilNone(disc, q);
      match Replayed(disc, Returned(q[0]))
      case Raised(e) =>
        assert q == [] + [Exc(e)] + q[1..];
      case Returned(v) =>
        if v == NoneValue {
          assert q == [] + [NoneValue] + q[1..];
        } else {
          var d1 := FetchUntilNone(disc, q[1..]);
          FetchUntilNoneSplits(disc, q[1..]);
          assert v == q[0];
          assert d.rows == [v] + d1.rows && d.stop == d1.stop && d.rest == d1.rest;
          assert q == [v] + q[1..];
        }
    }
  }

  // ---------------------------------------------------------------------------
  // The snapshot store: one serialised ledger per snapshot path

  type Store = map<Path, LedgerMap>

  /** `_read_data`: the ledger stored at `path`, or FileNotFoundError. */
  function ReadData(store: Store, path: Path): (r: Result<LedgerMap>)
    ensures r.Ok? <==> path in store
    ensures r.Ok? ==> r.value == store[path]
    ensures r.Err? ==> r.error == MissingFile
  {
    if path in store then Ok(store[path]) else Err(MissingFile)
  }

  /** `_write_data`: the ledger replaces whatever was stored at `path`. */
  function WriteData(store: Store, path: Path, d: LedgerMap): Store {
    store[path := d]
  }

  /** Reading a path back gives the ledger last written there; other paths are unaffected. */
  lemma ReadAfterWrite(store: Store, path: Path, d: LedgerMap, other: Path)
    ensures ReadData(WriteData(store, path, d), path) == Ok(d)
    ensures other != path ==> ReadData(WriteData(store, path, d), other) == ReadData(store, other)
  {
  }
}
