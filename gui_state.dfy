/**
 * The GUI side of the application (src/gui/state.rs): an `App` holding an
 * append-only log and the database state as the user interface sees it.
 * Every transition method appends one line to the log and moves the state;
 * the source guards each one with `unreachable!()` or `assert!`, which
 * become preconditions here. Besides these methods, the query text box of
 * an open database writes the `sql` field directly, logging nothing.
 */
module GuiState {
  import opened Wrappers

  /** A database path as it is displayed (`Arc<Path>`). */
  type Path = string

  /** The result of the previous query. */
  datatype QueryResult = NoResult | Completed | Failed(msg: string)

  /** The data of an open database. */
  datatype StateOpen = StateOpen(queryRunning: bool, path: Option<Path>, sql: string, prevQueryResult: QueryResult)

  /** The database state; a `None` path is the in-memory database. */
  datatype State =
    | Closed
    | Closing(path: Option<Path>)
    | Opening(path: Option<Path>)
    | Open(open: StateOpen)

  /** The transition methods of `App`, and the text box's edit of `sql`, as values. */
  datatype Event =
    | RequestOpenMemoryDb
    | RequestOpenDb(target: Path)
    | DbOpened
    | DbOpenFailed(error: string)
    | CloseDb
    | DbClosed
    | StartQuery
    | CancelQuery
    | EditSql(text: string)

  /** The fields of `App` as a value. */
  datatype AppData = AppData(logs: string, state: State)

  /** `StateOpen::new`: no query running, no SQL text and no previous result. */
  function NewStateOpen(path: Option<Path>): StateOpen {
    StateOpen(false, path, "", NoResult)
  }

  /** The condition under which the source's transition does not panic. */
  predicate Enabled(s: State, e: Event) {
    match e
    case RequestOpenMemoryDb => true
    case RequestOpenDb(_) => true
    case DbOpened => s.Opening?
    case DbOpenFailed(_) => s.Opening?
    case CloseDb => s.Open?
    case DbClosed => s.Closing?
    case StartQuery => s.Open? && !s.open.queryRunning
    case CancelQuery => s.Open? && s.open.queryRunning
    case EditSql(_) => s.Open?
  }

  /** The state after a transition. */
  function Next(s: State, e: Event): State
    requires Enabled(s, e)
  {
    match e
    case RequestOpenMemoryDb => Opening(None)
    case RequestOpenDb(p) => Opening(Some(p))
    case DbOpened => Open(NewStateOpen(s.path))
    case DbOpenFailed(_) => Closed
    case CloseDb => Closing(s.open.path)
    case DbClosed => Closed
    case StartQuery => Open(s.open.(queryRunning := true))
    case CancelQuery => Open(s.open.(queryRunning := true))
    case EditSql(text) => Open(s.open.(sql := text))
  }

  /** Whether the transition writes a line to the log: all but the text box's edit do. */
  predicate Logs(e: Event) {
    !e.EditSql?
  }

  /** The line a transition writes to the log, without its newline. */
  function Message(s: State, e: Event): string
    requires Enabled(s, e)
  {
    match e
    case RequestOpenMemoryDb => "Opening in-memory database"
    case RequestOpenDb(p) => "Opening database at \"" + p + "\""
    case DbOpened => "Database successfully opened"
    case DbOpenFailed(err) =>
      if s.path.Some? then "Error opening database at \"" + s.path.value + "\": " + err
      else "Error opening in-memory database: " + err
    case CloseDb =>
      if s.open.path.Some? then "Closing database at \"" + s.open.path.value + "\""
      else "Closing and discarding in-memory database"
    case DbClosed =>
      if s.path.Some? then "Closed database at \"" + s.path.value + "\""
      else "Closed in-memory database"
    case StartQuery => "Running query \"" + s.open.sql + "\""
    case CancelQuery => "Cancelling query"
    case EditSql(_) => ""
  }

  /** One transition: its line, if any, is appended to the log and the state moves on. */
  function Apply(a: AppData, e: Event): AppData
    requires Enabled(a.state, e)
  {
    AppData(a.logs + (if Logs(e) then Message(a.state, e) + "\n" else ""), Next(a.state, e))
  }

  /** The number of transitions in `es` that write a log line. */
  function LoggedCount(es: seq<Event>): nat {
    if es == [] then 0 else (if Logs(es[0]) then 1 else 0) + LoggedCount(es[1..])
  }

  /** A sequence of transitions; `None` when one of them would panic. */
  function Replay(a: AppData, es: seq<Event>): Option<AppData>
    decreases |es|
  {
    if es == [] then Some(a)
    else if Enabled(a.state, es[0]) then Replay(Apply(a, es[0]), es[1..])
    else None
  }

  /**
   * Reference definition of the allowed moves between kinds of state: any
   * state may start opening; opening ends open or closed; an open database
   * stays open or starts closing; closing ends closed.
   */
  predicate Edge(s: State, s': State) {
    s'.Opening?
    || (s.Opening? && (s'.Open? || s'.Closed?))
    || (s.Open? && (s'.Open? || s'.Closing?))
    || (s.Closing? && s'.Closed?)
  }

  /** The query result field, which nothing ever sets. */
  predicate NoPrevResult(s: State) {
    s.Open? ==> s.open.prevQueryResult == NoResult
  }

  class App {
    var logs: string
    var state: State

    function Data(): AppData
      reads this
    {
      AppData(logs, state)
    }

    /** `App::default()`: an empty log and no database. */
    constructor ()
      ensures logs == "" && state == Closed
    {
      logs := "";
      state := Closed;
    }

    /** `App::log`: the message and a newline are appended. */
    method Log(msg: string)
      modifies this
      ensures logs == old(logs) + msg + "\n"
      ensures state == old(state)
    {
      logs := logs + msg + "\n";
    }

    method RequestOpenMemoryDb()
      modifies this
      ensures Data() == Apply(old(Data()), Event.RequestOpenMemoryDb)
    {
      Log("Opening in-memory database");
      state := Opening(None);
    }

    method RequestOpenDb(path: Path)
      modifies this
      ensures Data() == Apply(old(Data()), Event.RequestOpenDb(path))
    {
      Log("Opening database at \"" + path + "\"");
      state := Opening(Some(path));
    }

    method DbOpened()
      requires state.Opening?
      modifies this
      ensures Data() == Apply(old(Data()), Event.DbOpened)
    {
      Log("Database successfully opened");
      state := Open(NewStateOpen(state.path));
    }

    method DbOpenFailed(error: string)
      requires state.Opening?
      modifies this
      ensures Data() == Apply(old(Data()), Event.DbOpenFailed(error))
    {
      var msg := match state.path {
        case Some(p) => "Error opening database at \"" + p + "\": " + error
        case None => "Error opening in-memory database: " + error
      };
      Log(msg);
      state := Closed;
    }

    method CloseDb()
      requires state.Open?
      modifies this
      ensures Data() == Apply(old(Data()), Event.CloseDb)
    {
      var open := state.open;
      var msg := match open.path {
        case Some(p) => "Closing database at \"" + p + "\"\n"
        case None => "Closing and discarding in-memory database\n"
      };
      logs := logs + msg;
      state := Closing(open.path);
    }

    method DbClosed()
      requires state.Closing?
      modifies this
      ensures Data() == Apply(old(Data()), Event.DbClosed)
    {
      var msg := match state.path {
        case Some(p) => "Closed database at \"" + p + "\"\n"
        case None => "Closed in-memory database\n"
      };
      logs := logs + msg;
      state := Closed;
    }

    method StartQuery()
      requires state.Open? && !state.open.queryRunning
      modifies this
      ensures Data() == Apply(old(Data()), Event.StartQuery)
    {
      var open := state.open;
      logs := logs + "Running query \"" + open.sql + "\"\n";
      state := Open(open.(queryRunning := true));
    }

    method CancelQuery()
      requires state.Open? && state.open.queryRunning
      modifies this
      ensures Data() == Apply(old(Data()), Event.CancelQuery)
    {
      var open := state.open;
      logs := logs + "Cancelling query\n";
      state := Open(open.(queryRunning := true));
    }

    /**
     * The write the query text box makes through its lens on `StateOpen::sql`
     * while a database is open; it does not touch the log.
     */
    method EditSql(text: string)
      requires state.Open?
      modifies this
      ensures Data() == Apply(old(Data()), Event.EditSql(text))
    {
      state := Open(state.open.(sql := text));
    }
  }

  // ---------------------------------------------------------------------------
  // Single transitions

  /**
   * Every transition keeps the old log as a prefix; each transition method
   * appends a line ending in a newline, and the text box's edit appends nothing.
   */
  lemma ApplyAppendsLog(a: AppData, e: Event)
    requires Enabled(a.state, e)
    ensures var b := Apply(a, e);
      |b.logs| >= |a.logs| && b.logs[..|a.logs|] == a.logs &&
      (Logs(e) ==> |b.logs| > |a.logs| && b.logs[|b.logs| - 1] == '\n') &&
      (!Logs(e) ==> b.logs == a.logs)
  {
  }

  /** Opening may be requested from any state. */
  lemma RequestsAlwaysOpen(s: State, p: Path)
    ensures Enabled(s, Event.RequestOpenMemoryDb) && Next(s, Event.RequestOpenMemoryDb) == Opening(None)
    ensures Enabled(s, Event.RequestOpenDb(p)) && Next(s, Event.RequestOpenDb(p)) == Opening(Some(p))
  {
  }

  /** `db_opened` needs `Opening` and gives a fresh `Open` for the same path. */
  lemma DbOpenedOpens(s: State)
    ensures Enabled(s, Event.DbOpened) <==> s.Opening?
    ensures s.Opening? ==> Next(s, Event.DbOpened) == Open(StateOpen(false, s.path, "", NoResult))
  {
  }

  /** `db_open_failed` needs `Opening` and always ends `Closed`. */
  lemma DbOpenFailedCloses(s: State, error: string)
    ensures Enabled(s, Event.DbOpenFailed(error)) <==> s.Opening?
    ensures s.Opening? ==> Next(s, Event.DbOpenFailed(error)) == Closed
  {
  }

  /** `close_db` needs `Open` and starts closing the same path; `db_closed` needs `Closing`. */
  lemma CloseDbThenClosed(s: State)
    ensures Enabled(s, Event.CloseDb) <==> s.Open?
    ensures s.Open? ==> Next(s, Event.CloseDb) == Closing(s.open.path)
    ensures Enabled(s, Event.DbClosed) <==> s.Closing?
    ensures s.Closing? ==> Next(s, Event.DbClosed) == Closed
  {
  }

  /** `start_query` needs an idle open database and only marks a query as running. */
  lemma StartQueryRuns(s: State)
    ensures Enabled(s, Event.StartQuery) <==> s.Open? && !s.open.queryRunning
    ensures Enabled(s, Event.StartQuery) ==>
      var s' := Next(s, Event.StartQuery);
      s'.Open? && s'.open.queryRunning && s'.open.path == s.open.path && s'.open.sql == s.open.sql
  {
  }

  /** `cancel_query` needs a running query and, as written, leaves the state as it was. */
  lemma CancelQueryKeepsState(s: State)
    ensures Enabled(s, Event.CancelQuery) <==> s.Open? && s.open.queryRunning
    ensures Enabled(s, Event.CancelQuery) ==> Next(s, Event.CancelQuery) == s
  {
  }

  /**
   * Every transition follows the state graph: `Open` is entered only from
   * `Opening` by `db_opened`, and `Closed` only from `Closing` or from a
   * failed `Opening`.
   */
  lemma TransitionsFollowGraph(s: State, e: Event)
    requires Enabled(s, e)
    ensures Edge(s, Next(s, e))
    ensures Next(s, e).Open? && !s.Open? ==> s.Opening? && e == Event.DbOpened
    ensures Next(s, e).Closed? ==> (s.Closing? && e == Event.DbClosed) || (s.Opening? && e.DbOpenFailed?)
  {
  }

  // ---------------------------------------------------------------------------
  // Sequences of transitions

  /** Over any run without a panic, the log only grows, by at least one line per transition method. */
  lemma {:induction false} ReplayLogGrows(a: AppData, es: seq<Event>)
    requires Replay(a, es).Some?
    ensures var b := Replay(a, es).value;
      a.logs <= b.logs && |b.logs| >= |a.logs| + LoggedCount(es)
    decreases |es|
  {
    if es != [] {
      ReplayLogGrows(Apply(a, es[0]), es[1..]);
    }
  }

  /** No transition sets `prev_query_result`, so once open it keeps the `None` of `StateOpen::new`. */
  lemma {:induction false} ReplayNeverSetsPrevResult(a: AppData, es: seq<Event>)
    requires NoPrevResult(a.state)
    requires Replay(a, es).Some?
    ensures NoPrevResult(Replay(a, es).value.state)
    decreases |es|
  {
    if es != [] {
      ReplayNeverSetsPrevResult(Apply(a, es[0]), es[1..]);
    }
  }

  /** A started query logs the SQL text the text box last wrote. */
  lemma EditThenStartQuery(a: AppData, text: string)
    requires a.state.Open? && !a.state.open.queryRunning
    ensures Replay(a, [Event.EditSql(text), Event.StartQuery]) ==
      Some(AppData(a.logs + "Running query \"" + text + "\"\n",
                   Open(a.state.open.(sql := text, queryRunning := true))))
  {
    var b := Apply(a, Event.EditSql(text));
    assert [Event.EditSql(text), Event.StartQuery][1..] == [Event.StartQuery];
    assert Replay(a, [Event.EditSql(text), Event.StartQuery]) == Replay(b, [Event.StartQuery]);
    var c := Apply(b, Event.StartQuery);
    assert [Event.StartQuery][1..] == [];
    assert Replay(b, [Event.StartQuery]) == Replay(c, []);
    assert c.logs == a.logs + "Running query \"" + text + "\"\n";
  }
}
