/**
 * The database worker of src/db/mod.rs: a state machine that owns at most one
 * connection pool, takes `MsgIn` messages from a channel in arrival order and
 * reports outcomes as notifications to an event sink.
 *
 * The pool is an opaque token, the result of `SqlitePool::connect` and of a
 * query are inputs, the channel is the sequence of messages received and the
 * sink is the sequence of notifications submitted so far.
 */
module DbWorker {
  import opened Wrappers
  import opened DbConnectionStr

  /** A `SqlitePool`, as an opaque token. */
  datatype Pool = Pool(id: nat)

  /** What `SqlitePool::connect` gives for a connection string. */
  datatype ConnectOutcome = Connected(pool: Pool) | ConnectFailed(msg: string)

  /** Messages to the worker thread; `dbPath == None` is an in-memory database. */
  datatype MsgIn = Quit | OpenDatabase(dbPath: Option<OsPath>) | CloseDatabase | RunQuery(sql: string)

  /** The worker's state. `Taken` is declared by the source but never entered. */
  datatype State = Taken | Closed | Open(db: Pool)

  /** The error carried by a `DATABASE_OPEN_FAILED` notification. */
  datatype OpenError = BadPath(cause: ConnStrError) | ConnectError(msg: string)

  /** The commands the worker submits to the sink. */
  datatype Notification =
    | DatabaseOpened
    | DatabaseOpenFailed(error: OpenError)
    | DatabaseClosed
    | QueryError(msg: string)

  /** The worker's fields as a value: its state and everything submitted so far. */
  datatype Snapshot = Snapshot(state: State, sink: seq<Notification>)

  /** Why the message loop ended, with the position of the message that ended it. */
  datatype Stop = QuitReceived(at: nat) | StreamEnded | Panicked(at: nat)

  datatype RunResult = RunResult(last: Snapshot, stop: Stop)

  /**
   * `Worker::open`. The current state is not consulted: an open pool is
   * replaced without being closed and without a `DATABASE_CLOSED`.
   */
  function OpenStep(w: Snapshot, path: Option<OsPath>, connect: string -> ConnectOutcome): Snapshot {
    match ConnectionStr(path)
    case Err(e) => Snapshot(Closed, w.sink + [DatabaseOpenFailed(BadPath(e))])
    case Ok(s) =>
      match connect(s)
      case ConnectFailed(m) => Snapshot(Closed, w.sink + [DatabaseOpenFailed(ConnectError(m))])
      case Connected(pool) => Snapshot(Open(pool), w.sink + [DatabaseOpened])
  }

  /** `Worker::close`: notifies when a pool is open, but leaves the state as it was. */
  function CloseStep(w: Snapshot): Snapshot {
    if w.state.Open? then Snapshot(w.state, w.sink + [DatabaseClosed]) else w
  }

  /**
   * The guard of `Worker::query`: `None` when the state is not `Open` (the
   * source reaches `unreachable!()` and the worker thread panics); otherwise
   * the fetch error, if any, is reported as `QUERY_ERROR`.
   */
  function QueryStep(w: Snapshot, fetchError: Option<string>): Option<Snapshot> {
    if !w.state.Open? then None
    else if fetchError.Some? then Some(Snapshot(w.state, w.sink + [QueryError(fetchError.value)]))
    else Some(w)
  }

  /**
   * The message loop of `start`, from message `k` on. `connect(k)` is what the
   * pool answers to the open request at position `k`; `query(k, sql)` is the
   * fetch error, if any, of the query at position `k`.
   */
  function RunFrom(w: Snapshot, msgs: seq<MsgIn>, k: nat,
                   connect: nat -> string -> ConnectOutcome,
                   query: (nat, string) -> Option<string>): RunResult
    requires k <= |msgs|
    decreases |msgs| - k
  {
    if k == |msgs| then RunResult(w, StreamEnded)
    else
      match msgs[k]
      case Quit => RunResult(w, QuitReceived(k))
      case OpenDatabase(p) => RunFrom(OpenStep(w, p, connect(k)), msgs, k + 1, connect, query)
      case CloseDatabase => RunFrom(CloseStep(w), msgs, k + 1, connect, query)
      case RunQuery(sql) =>
        match QueryStep(w, query(k, sql))
        case None => RunResult(w, Panicked(k))
        case Some(w') => RunFrom(w', msgs, k + 1, connect, query)
  }

  /** The worker that lives on the background thread. */
  class Worker {
    var state: State
    /** Everything submitted to the event sink, oldest first. */
    var sink: seq<Notification>

    function Current(): Snapshot
      reads this
    {
      Snapshot(state, sink)
    }

    /** `Worker::new`: no database is open and nothing has been sent. */
    constructor ()
      ensures state == Closed && sink == []
    {
      state := Closed;
      sink := [];
    }

    /** `Worker::send`: one notification is appended to the sink. */
    method Send(n: Notification)
      modifies this
      ensures sink == old(sink) + [n]
      ensures state == old(state)
    {
      sink := sink + [n];
    }

    /** `Worker::open`, given what `SqlitePool::connect` answers. */
    method Open(path: Option<OsPath>, connect: string -> ConnectOutcome)
      modifies this
      ensures Current() == OpenStep(old(Current()), path, connect)
    {
      var cs := BuildConnectionStr(path);
      var connectionStr: string;
      match cs {
        case Err(e) =>
          Send(DatabaseOpenFailed(BadPath(e)));
          state := Closed;
          return;
        case Ok(s) =>
          connectionStr := s;
      }
      var pool: Pool;
      match connect(connectionStr) {
        case ConnectFailed(m) =>
          Send(DatabaseOpenFailed(ConnectError(m)));
          state := Closed;
          return;
        case Connected(p) =>
          pool := p;
      }
      Send(DatabaseOpened);
      state := State.Open(pool);
    }

    /** `Worker::close`. */
    method Close()
      modifies this
      ensures Current() == CloseStep(old(Current()))
    {
      if state.Open? {
        Send(DatabaseClosed);
      }
    }

    /** `Worker::query`, reduced to its guard; `ok` is false where the source panics. */
    method Query(sql: string, fetchError: Option<string>) returns (ok: bool)
      modifies this
      ensures ok == old(state).Open?
      ensures ok ==> Current() == QueryStep(old(Current()), fetchError).value
      ensures !ok ==> Current() == old(Current())
    {
      if !state.Open? {
        return false;
      }
      if fetchError.Some? {
        Send(QueryError(fetchError.value));
      }
      return true;
    }

    /** The loop `start` runs on the worker thread over the received messages. */
    method Run(msgs: seq<MsgIn>, connect: nat -> string -> ConnectOutcome,
               query: (nat, string) -> Option<string>) returns (stop: Stop)
      modifies this
      ensures RunResult(Current(), stop) == RunFrom(old(Current()), msgs, 0, connect, query)
    {
      var i := 0;
      while i < |msgs|
        invariant i <= |msgs|
        invariant RunFrom(Current(), msgs, i, connect, query) == RunFrom(old(Current()), msgs, 0, connect, query)
        decreases |msgs| - i
      {
        match msgs[i] {
          case Quit =>
            return QuitReceived(i);
          case OpenDatabase(p) =>
            Open(p, connect(i));
          case CloseDatabase =>
            Close();
          case RunQuery(sql) =>
            var ok := Query(sql, query(i, sql));
            if !ok {
              return Panicked(i);
            }
        }
        i := i + 1;
      }
      return StreamEnded;
    }
  }

  // ---------------------------------------------------------------------------
  // Single operations

  /**
   * `open` submits exactly one notification, and it agrees with the new state:
   * `DATABASE_OPENED` with `Open` exactly when the string was built and the
   * pool connected, `DATABASE_OPEN_FAILED` with `Closed` otherwise.
   */
  lemma OpenNotifiesOnce(w: Snapshot, path: Option<OsPath>, connect: string -> ConnectOutcome)
    ensures var w' := OpenStep(w, path, connect);
      |w'.sink| == |w.sink| + 1 && w'.sink[..|w.sink|] == w.sink &&
      (w'.state.Open? <==> w'.sink[|w.sink|] == DatabaseOpened) &&
      (w'.state == Closed <==> w'.sink[|w.sink|].DatabaseOpenFailed?) &&
      (w'.state.Open? <==> ConnectionStr(path).Ok? && connect(ConnectionStr(path).value).Connected?)
  {
  }

  /** A path that is not UTF-8 never reaches `connect`: it fails and the state is `Closed`. */
  lemma OpenNotUtf8(w: Snapshot, connect: string -> ConnectOutcome)
    ensures OpenStep(w, Some(NotUtf8), connect) ==
      Snapshot(Closed, w.sink + [DatabaseOpenFailed(BadPath(PathNotUtf8))])
  {
  }

  /** `open` from `Open` replaces the pool with no `DATABASE_CLOSED` for the old one. */
  lemma OpenIgnoresState(w: Snapshot, path: Option<OsPath>, connect: string -> ConnectOutcome)
    ensures OpenStep(w, path, connect) == OpenStep(Snapshot(Closed, w.sink), path, connect)
    ensures DatabaseClosed !in OpenStep(w, path, connect).sink[|w.sink|..]
  {
  }

  /**
   * `close` notifies once when the state is `Open` and otherwise does nothing;
   * either way the state is what it was.
   */
  lemma CloseNotifies(w: Snapshot)
    ensures CloseStep(w).state == w.state
    ensures w.state.Open? ==> CloseStep(w).sink == w.sink + [DatabaseClosed]
    ensures !w.state.Open? ==> CloseStep(w) == w
  {
  }

  /** Because `close` keeps the state `Open`, a second close notifies again. */
  lemma CloseTwice(pool: Pool, sink: seq<Notification>)
    ensures CloseStep(CloseStep(Snapshot(Open(pool), sink))) ==
      Snapshot(Open(pool), sink + [DatabaseClosed, DatabaseClosed])
  {
  }

  // ---------------------------------------------------------------------------
  // The message loop

  /** The sink only grows by appending. */
  lemma {:induction false} RunSinkGrows(w: Snapshot, msgs: seq<MsgIn>, k: nat,
      connect: nat -> string -> ConnectOutcome, query: (nat, string) -> Option<string>)
    requires k <= |msgs|
    ensures w.sink <= RunFrom(w, msgs, k, connect, query).last.sink
    decreases |msgs| - k
  {
    if k < |msgs| {
      match msgs[k]
      case Quit =>
      case OpenDatabase(p) => RunSinkGrows(OpenStep(w, p, connect(k)), msgs, k + 1, connect, query);
      case CloseDatabase => RunSinkGrows(CloseStep(w), msgs, k + 1, connect, query);
      case RunQuery(sql) =>
        match QueryStep(w, query(k, sql))
        case None =>
        case Some(w') => RunSinkGrows(w', msgs, k + 1, connect, query);
    }
  }

  /** `Taken` is never entered. */
  lemma {:induction false} RunNeverTaken(w: Snapshot, msgs: seq<MsgIn>, k: nat,
      connect: nat -> string -> ConnectOutcome, query: (nat, string) -> Option<string>)
    requires k <= |msgs|
    requires !w.state.Taken?
    ensures !RunFrom(w, msgs, k, connect, query).last.state.Taken?
    decreases |msgs| - k
  {
    if k < |msgs| {
      match msgs[k]
      case Quit =>
      case OpenDatabase(p) => RunNeverTaken(OpenStep(w, p, connect(k)), msgs, k + 1, connect, query);
      case CloseDatabase => RunNeverTaken(CloseStep(w), msgs, k + 1, connect, query);
      case RunQuery(sql) =>
        match QueryStep(w, query(k, sql))
        case None =>
        case Some(w') => RunNeverTaken(w', msgs, k + 1, connect, query);
    }
  }

  /**
   * The loop stops at the first `Quit`, or panics at the first query issued
   * while not `Open`, or reaches the end of the stream, and its stop reason
   * says which.
   */
  lemma {:induction false} RunStopReason(w: Snapshot, msgs: seq<MsgIn>, k: nat,
      connect: nat -> string -> ConnectOutcome, query: (nat, string) -> Option<string>)
    requires k <= |msgs|
    ensures var stop := RunFrom(w, msgs, k, connect, query).stop;
      (stop.QuitReceived? ==> k <= stop.at < |msgs| && msgs[stop.at] == Quit) &&
      (stop.Panicked? ==> k <= stop.at < |msgs| && msgs[stop.at].RunQuery?) &&
      (forall j :: k <= j < |msgs| && msgs[j] == Quit ==> stop.QuitReceived? || stop.Panicked?) &&
      (!stop.StreamEnded? ==> forall j :: k <= j < stop.at ==> msgs[j] != Quit)
    decreases |msgs| - k
  {
    if k < |msgs| {
      match msgs[k]
      case Quit =>
      case OpenDatabase(p) => RunStopReason(OpenStep(w, p, connect(k)), msgs, k + 1, connect, query);
      case CloseDatabase => RunStopReason(CloseStep(w), msgs, k + 1, connect, query);
      case RunQuery(sql) =>
        match QueryStep(w, query(k, sql))
        case None =>
        case Some(w') => RunStopReason(w', msgs, k + 1, connect, query);
    }
  }

  /** Messages after a `Quit` have no effect. */
  lemma {:induction false} RunIgnoresAfterQuit(w: Snapshot, pre: seq<MsgIn>, rest: seq<MsgIn>, k: nat,
      connect: nat -> string -> ConnectOutcome, query: (nat, string) -> Option<string>)
    requires k <= |pre|
    ensures RunFrom(w, pre + [Quit] + rest, k, connect, query) == RunFrom(w, pre + [Quit], k, connect, query)
    decreases |pre| - k
  {
    var long, short := pre + [Quit] + rest, pre + [Quit];
    assert long[k] == short[k];
    if k < |pre| {
      match short[k]
      case Quit =>
      case OpenDatabase(p) => RunIgnoresAfterQuit(OpenStep(w, p, connect(k)), pre, rest, k + 1, connect, query);
      case CloseDatabase => RunIgnoresAfterQuit(CloseStep(w), pre, rest, k + 1, connect, query);
      case RunQuery(sql) =>
        match QueryStep(w, query(k, sql))
        case None =>
        case Some(w') => RunIgnoresAfterQuit(w', pre, rest, k + 1, connect, query);
    }
  }

  /**
   * Messages are handled strictly in arrival order: when the loop gets through
   * `first` without stopping, running `first + second` is running `second`
   * from where `first` left the worker.
   */
  lemma {:induction false} RunInOrder(w: Snapshot, first: seq<MsgIn>, second: seq<MsgIn>, k: nat,
      connect: nat -> string -> ConnectOutcome, query: (nat, string) -> Option<string>)
    requires k <= |first|
    requires RunFrom(w, first, k, connect, query).stop == StreamEnded
    ensures RunFrom(w, first + second, k, connect, query) ==
      RunFrom(RunFrom(w, first, k, connect, query).last, first + second, |first|, connect, query)
    decreases |first| - k
  {
    var all := first + second;
    if k < |first| {
      assert all[k] == first[k];
      match first[k]
      case Quit =>
      case OpenDatabase(p) => RunInOrder(OpenStep(w, p, connect(k)), first, second, k + 1, connect, query);
      case CloseDatabase => RunInOrder(CloseStep(w), first, second, k + 1, connect, query);
      case RunQuery(sql) =>
        match QueryStep(w, query(k, sql))
        case None =>
        case Some(w') => RunInOrder(w', first, second, k + 1, connect, query);
    }
  }

  /**
   * A fresh worker told to open the in-memory database, run a query and close
   * submits `DATABASE_OPENED`, the query's error if it had one, then
   * `DATABASE_CLOSED`, and reaches the end of the stream.
   */
  lemma OpenQueryClose(sql: string, pool: Pool, connect: nat -> string -> ConnectOutcome,
      query: (nat, string) -> Option<string>)
    requires connect(0)(MemoryTarget) == Connected(pool)
    ensures var r := RunFrom(Snapshot(Closed, []), [OpenDatabase(None), RunQuery(sql), CloseDatabase], 0, connect, query);
      r.stop == StreamEnded && r.last.state == Open(pool) &&
      r.last.sink == [DatabaseOpened] +
        (if query(1, sql).Some? then [QueryError(query(1, sql).value)] else []) + [DatabaseClosed]
  {
    var msgs := [OpenDatabase(None), RunQuery(sql), CloseDatabase];
    var w1 := OpenStep(Snapshot(Closed, []), None, connect(0));
    assert w1 == Snapshot(Open(pool), [DatabaseOpened]);
    var w2 := QueryStep(w1, query(1, sql)).value;
    var w3 := CloseStep(w2);
    calc {
      RunFrom(Snapshot(Closed, []), msgs, 0, connect, query);
      RunFrom(w1, msgs, 1, connect, query);
      RunFrom(w2, msgs, 2, connect, query);
      RunFrom(w3, msgs, 3, connect, query);
    }
  }

  /** A query before any open crashes the loop at that message, with nothing submitted. */
  lemma QueryWhileClosedPanics(sql: string, rest: seq<MsgIn>, connect: nat -> string -> ConnectOutcome,
      query: (nat, string) -> Option<string>)
    ensures RunFrom(Snapshot(Closed, []), [RunQuery(sql)] + rest, 0, connect, query) ==
      RunResult(Snapshot(Closed, []), Panicked(0))
  {
  }
}
