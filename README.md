# sqlite_ui core, modelled in Dafny

This project models the two stateful pieces of the sqlite_ui desktop
application:

- **The database worker** (`src/db/mod.rs`). A background worker owns at most
  one SQLite connection pool. It reads `MsgIn` messages (`Quit`,
  `OpenDatabase`, `CloseDatabase`, `RunQuery`) from a channel in arrival order,
  moves between the states `Closed` and `Open` (plus `Taken`, which is declared
  but never used), and submits `DATABASE_OPENED`, `DATABASE_OPEN_FAILED`,
  `DATABASE_CLOSED` and `QUERY_ERROR` notifications to the GUI's event sink.
  Before it opens a file, it turns the path into an SQLite URI filename
  (`build_connection_str`), following the "URI Filenames" page of the SQLite
  documentation:
  - `?` becomes `%3f` and `#` becomes `%23`;
  - backslashes become `/`;
  - `//` is replaced until none is left;
  - a Windows drive letter gets an extra leading `/`;
  - with no path, the target is the shared in-memory database
    `sqlite:file::memory:?cache=shared`.
- **The GUI application state** (`src/gui/state.rs`). `App` holds an
  append-only log and the state `Closed`, `Opening(path?)`, `Open(StateOpen)`
  or `Closing(path?)`. Each of its transition methods appends one line to the
  log.

Files:

- `wrappers.dfy`: `Option` and `Result`.
- `connection_str.dfy` (module `DbConnectionStr`): `build_connection_str` is a
  method with the collapsing `while` loop. It is proved equal to the function
  `ConnectionStr`, and the lemmas state the properties of that function.
- `worker.dfy` (module `DbWorker`): the class `Worker`, whose fields are
  `state` and `sink`. The sink is every notification submitted so far. Each
  method is proved against a step function on `Snapshot` values. `Run` is the
  message loop of `start`, proved against `RunFrom`.
- `gui_state.dfy` (module `GuiState`): the class `App`. Each transition method
  is proved against `Apply`, a function on `AppData` values. `Replay` runs a
  sequence of transitions. Besides `App`'s own methods, the query text box of
  an open database writes `StateOpen::sql` through a lens
  (`src/gui/mod.rs:176-179`). This write is the event `EditSql`, and it logs
  nothing.

## How the environment is represented

- A `SqlitePool` is an opaque token `Pool(id)`.
- `SqlitePool::connect` is an input: `connect(k)(s)` is its answer for the
  connection string `s` at the message in position `k`.
- The query engine is an input: `query(k, sql)` is the fetch error, if any,
  of the query at position `k`.
- The channel is the sequence of received messages; its end is the end of
  the stream.
- The event sink is the `sink` sequence. It is only ever appended to.
- A path that is not UTF-8 is the distinguished input `NotUtf8`.
- The `\w` of the drive-letter pattern `^\w:` is modelled by `IsWordChar`,
  which accepts ASCII letters, digits and `_`. The regex crate also accepts
  other Unicode word characters.
- A panic (`unreachable!()` or `assert!`) in the worker thread ends the
  message loop with the stop reason `Panicked`. In the GUI, each panic guard
  is a precondition of the method, and `Replay` returns `None` instead.

## Gaps in the code as written

The model follows the code, including these gaps:

- `open` does not look at the current state. An open pool is replaced, and
  no `DATABASE_CLOSED` is sent. The TODO at `src/db/mod.rs:60` says the old
  connection should be closed first (`OpenIgnoresState`).
- `close` sends `DATABASE_CLOSED` but keeps the state `Open`
  (`src/db/mod.rs:82-85`). Closing twice therefore notifies twice
  (`CloseTwice`).
- `Quit` and the end of the stream break out of the loop without closing an
  open pool (`src/db/mod.rs:121`).
- A query sent while not `Open` reaches the `unreachable!()` at
  `src/db/mod.rs:97`, and the worker thread panics (`QueryWhileClosedPanics`).
- A query cannot be cancelled. The TODO at `src/db/mod.rs:118` says the query
  should be spawned as a task so it can be. The worker has no cancel message.
  The `CANCEL_QUERY` selector is submitted by the GUI but handled nowhere, and
  `QUERY_COMPLETED` is never sent (`src/gui/commands.rs:10-11`).
- In the GUI, `cancel_query` sets `query_running` to `true` again, so it
  leaves the state unchanged (`CancelQueryKeepsState`).
- Nothing ever sets `prev_query_result`; it keeps the `None` that
  `StateOpen::new` gives it (`ReplayNeverSetsPrevResult`).

## Model

| member | source | states |
|---|---|---|
| DbConnectionStr.BuildConnectionStr | src/db/mod.rs:131-159 | the method, with its collapsing loop, returns exactly `ConnectionStr(path)`: the in-memory literal for no path, an error only for a non-UTF-8 path |
| DbConnectionStr.IsWordChar | src/db/mod.rs:129 | the `\w` class of the drive-letter pattern, approximated by ASCII letters, digits and `_` |
| DbConnectionStr.HasDriveLetter | src/db/mod.rs:129 | `DRIVE_REGEX.is_match`: at least two characters, a word character and then `:` |
| DbConnectionStr.ContainsDoubleSlash | src/db/mod.rs:151 | `contains("//")`: some slash is directly followed by another |
| DbConnectionStr.ReplaceChar | src/db/mod.rs:148-150 | `replace` with a one-character pattern: each occurrence of the character is replaced by the text, everything else is kept in order |
| DbConnectionStr.Escape | src/db/mod.rs:148-150 | the three replacements, in the source's order |
| DbConnectionStr.PrefixDrive | src/db/mod.rs:155-157 | an extra `/` before a body that matches the drive-letter pattern |
| DbConnectionStr.Sanitise | src/db/mod.rs:148-157 | the replacements, the collapsing loop and the drive step, in that order |
| DbConnectionStr.ConnectionStr | src/db/mod.rs:131-159 | the in-memory literal for no path, the path error for a non-UTF-8 path, otherwise `sqlite:file:` and the sanitised body |
| DbConnectionStr.ReplaceDoubleSlash | src/db/mod.rs:152 | one `replace("//", "/")` never lengthens the string, shortens it whenever it contains `//`, and keeps its first character |
| DbConnectionStr.Collapse | src/db/mod.rs:151-153 | the loop terminates, and its result contains no `//` and is no longer than its input |
| DbConnectionStr.ReplaceCharRemoves | src/db/mod.rs:148-150 | after replacing `c` by a text without `c`, no `c` is left |
| DbConnectionStr.ReplaceCharOthers | src/db/mod.rs:148-150 | any other character occurs after the replacement exactly when it occurred before, or `c` occurred and the character is in the replacement text |
| DbConnectionStr.ReplaceCharAbsent | src/db/mod.rs:148-150 | replacing a character that does not occur changes nothing |
| DbConnectionStr.ReplaceDoubleSlashChars | src/db/mod.rs:152 | replacing `//` by `/` keeps exactly the set of characters of the string |
| DbConnectionStr.CollapseChars | src/db/mod.rs:151-153 | the loop neither adds nor removes any kind of character |
| DbConnectionStr.SqueezeReplace | src/db/mod.rs:152 | one replacement pass does not change the one-pass collapse of a string |
| DbConnectionStr.SqueezeClean | src/db/mod.rs:151-153 | a string without `//` is its own one-pass collapse |
| DbConnectionStr.CollapseIsSqueeze | src/db/mod.rs:151-153 | the loop equals the independent one-pass definition that drops every `/` following a `/`, so each run of slashes becomes one slash |
| DbConnectionStr.CollapseClean | src/db/mod.rs:151-153 | a string without `//` goes through the loop unchanged |
| DbConnectionStr.SlashBeforeNoDouble | src/db/mod.rs:155-157 | prepending `/` to a string without `//` that does not start with `/` creates no `//` |
| DbConnectionStr.EscapeRemoves | src/db/mod.rs:148-150 | after the three replacements, no `?`, `#` or backslash is left |
| DbConnectionStr.SanitiseClean | src/db/mod.rs:148-157 | every sanitised body has no `?`, `#`, backslash or `//`, and does not itself start with a drive letter |
| DbConnectionStr.SanitiseDrive | src/db/mod.rs:155-157 | exactly one `/` is prepended when the collapsed body starts with a word character and `:`, and nothing changes otherwise |
| DbConnectionStr.SanitiseFixed | src/db/mod.rs:148-157 | a clean body that does not start with a drive letter is a fixed point of the sanitising steps |
| DbConnectionStr.SanitiseIdempotent | src/db/mod.rs:148-157 | re-running the sanitising steps on their own output changes nothing |
| DbConnectionStr.ConnectionStrShape | src/db/mod.rs:131-159 | no path gives exactly `sqlite:file::memory:?cache=shared`; a non-UTF-8 path gives an error; a UTF-8 path gives `sqlite:file:` followed by a clean body |
| DbConnectionStr.ConnectionStrIdempotent | src/db/mod.rs:148-158 | opening the sanitised body of a path targets the same connection string as the path itself |
| DbWorker.Worker.constructor | src/db/mod.rs:46-51 | a new worker is `Closed` and has sent nothing |
| DbWorker.Worker.Send | src/db/mod.rs:53-57 | one notification is appended to the sink, and the state is unchanged |
| DbWorker.Worker.Open | src/db/mod.rs:59-79 | the new state and sink are those of `OpenStep` on the old ones |
| DbWorker.Worker.Close | src/db/mod.rs:81-86 | the new state and sink are those of `CloseStep` on the old ones |
| DbWorker.Worker.Query | src/db/mod.rs:88-99 | succeeds exactly when the state is `Open`, and then appends the query error if there is one; otherwise nothing changes, since the source panics there |
| DbWorker.Worker.Run | src/db/mod.rs:108-123 | the loop's final state, sink and stop reason are exactly those of `RunFrom` on the message sequence |
| DbWorker.OpenStep | src/db/mod.rs:59-79 | `open` on the worker's fields: a failed string or a failed connect gives `Closed` and `DATABASE_OPEN_FAILED`, a connected pool gives `Open` and `DATABASE_OPENED` |
| DbWorker.CloseStep | src/db/mod.rs:81-86 | `close` on the worker's fields: `DATABASE_CLOSED` when `Open`, state kept |
| DbWorker.QueryStep | src/db/mod.rs:88-99 | the query guard: no result (a panic) unless `Open`, otherwise the fetch error appended if there is one |
| DbWorker.RunFrom | src/db/mod.rs:109-123 | the loop from message `k`: each message dispatched in turn, stopping at `Quit`, at a panic or at the end of the stream |
| DbWorker.OpenNotifiesOnce | src/db/mod.rs:59-79 | `open` appends exactly one notification: `DATABASE_OPENED` with state `Open` exactly when the string was built and the pool connected, otherwise `DATABASE_OPEN_FAILED` with state `Closed` |
| DbWorker.OpenNotUtf8 | src/db/mod.rs:61-67 | a non-UTF-8 path yields `DATABASE_OPEN_FAILED` with the path error and state `Closed`, whatever `connect` would answer |
| DbWorker.OpenIgnoresState | src/db/mod.rs:59-60 | `open` behaves the same from any state and sends no `DATABASE_CLOSED` for a pool it replaces |
| DbWorker.CloseNotifies | src/db/mod.rs:81-86 | `close` appends one `DATABASE_CLOSED` when `Open` and otherwise changes nothing; the state is never changed |
| DbWorker.CloseTwice | src/db/mod.rs:81-86 | closing an open pool twice sends `DATABASE_CLOSED` twice and stays `Open` |
| DbWorker.RunSinkGrows | src/db/mod.rs:109-123 | over any message sequence the old sink is a prefix of the new one |
| DbWorker.RunNeverTaken | src/db/mod.rs:36-43 | starting outside `Taken`, the loop never enters `Taken` |
| DbWorker.RunStopReason | src/db/mod.rs:109-123 | the loop stops at the first `Quit`, at a query that panics, or at the end of the stream; a `Quit` anywhere means the stream end is never reached |
| DbWorker.RunIgnoresAfterQuit | src/db/mod.rs:121 | messages after a `Quit` have no effect on the result |
| DbWorker.RunInOrder | src/db/mod.rs:109-123 | messages are handled in arrival order: running `first + second` is running `second` from where `first` left the worker |
| DbWorker.OpenQueryClose | src/db/mod.rs:108-123 | for open-in-memory, query, close on a fresh worker, the sink is `DATABASE_OPENED`, then the query error if any, then `DATABASE_CLOSED` |
| DbWorker.QueryWhileClosedPanics | src/db/mod.rs:96-98 | a query before any open stops the loop with a panic at that message, with nothing sent |
| GuiState.App.constructor | src/gui/state.rs:118-122 | the default app has an empty log and state `Closed` |
| GuiState.App.Log | src/gui/state.rs:13-15 | the log becomes the old log, the message and a newline; the state is unchanged |
| GuiState.App.RequestOpenMemoryDb | src/gui/state.rs:17-20 | the new log and state are those of `Apply` for this transition |
| GuiState.App.RequestOpenDb | src/gui/state.rs:22-25 | the new log and state are those of `Apply` for this transition |
| GuiState.App.DbOpened | src/gui/state.rs:27-34 | requires `Opening`; the new log and state are those of `Apply` |
| GuiState.App.DbOpenFailed | src/gui/state.rs:36-46 | requires `Opening`; the new log and state are those of `Apply` |
| GuiState.App.CloseDb | src/gui/state.rs:48-62 | requires `Open`; the new log and state are those of `Apply` |
| GuiState.App.DbClosed | src/gui/state.rs:64-77 | requires `Closing`; the new log and state are those of `Apply` |
| GuiState.App.StartQuery | src/gui/state.rs:79-88 | requires `Open` with no query running; the new log and state are those of `Apply` |
| GuiState.App.CancelQuery | src/gui/state.rs:90-99 | requires `Open` with a query running; the new log and state are those of `Apply` |
| GuiState.App.EditSql | src/gui/mod.rs:176-179 | requires `Open`; the new `sql` is the edited text, the rest of the state and the log are unchanged, as `Apply` says |
| GuiState.NewStateOpen | src/gui/state.rs:132-141 | `StateOpen::new`: no query running, the given path, empty SQL and no previous result |
| GuiState.Next | src/gui/state.rs:17-99 | the state each transition leaves behind |
| GuiState.Message | src/gui/state.rs:17-99 | the log line each transition method writes, with the path and error texts inserted |
| GuiState.Apply | src/gui/state.rs:13-99 | one transition: its log line and a newline appended, unless it is the text box's edit, and the new state |
| GuiState.Replay | src/gui/state.rs:12-108 | a sequence of transitions, with no result as soon as one would panic |
| GuiState.ApplyAppendsLog | src/gui/state.rs:13-15 | every transition keeps the old log as a prefix; each method appends a line ending in a newline, and the text box's edit appends nothing |
| GuiState.RequestsAlwaysOpen | src/gui/state.rs:17-25 | from any state, the memory request gives `Opening(None)` and the path request gives `Opening(Some(p))` |
| GuiState.DbOpenedOpens | src/gui/state.rs:27-34 | `db_opened` is allowed exactly in `Opening(p)` and gives `Open` with path `p`, no query running, empty SQL and no previous result |
| GuiState.DbOpenFailedCloses | src/gui/state.rs:36-46 | `db_open_failed` is allowed exactly in `Opening` and always ends in `Closed` |
| GuiState.CloseDbThenClosed | src/gui/state.rs:48-77 | `close_db` is allowed exactly in `Open` and gives `Closing` with the same path; `db_closed` is allowed exactly in `Closing` and gives `Closed` |
| GuiState.StartQueryRuns | src/gui/state.rs:79-88 | `start_query` is allowed exactly when open and idle, and sets `query_running` while keeping path and SQL |
| GuiState.CancelQueryKeepsState | src/gui/state.rs:90-99 | `cancel_query` is allowed exactly when a query is running and leaves the state as it was |
| GuiState.TransitionsFollowGraph | src/gui/state.rs:110-116 | every transition follows the state graph; `Open` is entered only from `Opening`, and `Closed` only from `Closing` or a failed `Opening` |
| GuiState.ReplayLogGrows | src/gui/state.rs:12-99 | over any run without a panic, the old log is a prefix of the new one, which is longer by at least one character per transition method |
| GuiState.ReplayNeverSetsPrevResult | src/gui/state.rs:133-140 | an open state's `prev_query_result` stays `None` over any run |
| GuiState.EditThenStartQuery | src/gui/state.rs:79-88 | after the text box writes some SQL, `start_query` logs `Running query "<that SQL>"` and marks the query running with that SQL kept |

## Left out

- Row fetching in `Worker::query` (`src/db/mod.rs:88-99`): this code does not type-check as written. Only its guard is modelled (the state must be `Open`). A fetch error is taken as an input and becomes a `QUERY_ERROR`. No rows and no `QUERY_COMPLETED` are modelled.
- `App::query_response` (`src/gui/state.rs:101-103`): its body is `todo!()`.
- `db.close().await` inside `close`: its I/O effect on the pool is not modelled. Only the notification it is followed by is modelled.
- The tokio runtime, `thread::spawn` and the mpsc channel: concurrency and transport. They are replaced by a sequence of received messages.
- The `unwrap()` on `submit_command`: submission to the sink is taken to always succeed, so a failed delivery never panics in the model.
- The text of the non-UTF-8 error (`format_err!` with `path.display()`): it is reduced to the value `PathNotUtf8`. The text of a connect error is an input string.
- Unicode `\w`: `IsWordChar` accepts only ASCII letters, digits and `_`.
- The operating system's path-to-UTF-8 conversion: a path is either UTF-8 text or the marker `NotUtf8`.
- In the GUI, the widget tree, menus and the application delegate are not modelled. The one write they make to `App`'s state outside its methods, the query text box's edit of `sql`, is modelled as `EditSql`.
- In the GUI, `path.display()` is modelled as the path's text. The `Error` of `db_open_failed` is its displayed message.
- GuiState.App.DbOpened: the source appends its log line before it panics on a wrong state. With the guard as a precondition, that partial effect is not modelled.
- `src/main.rs`, `src/gui/commands.rs` and `src/worker.rs` are not part of this model, nor is `src/gui/mod.rs` beyond the text box's edit. They hold the widget tree, the application delegate, the selector constants (modelled here as the `Notification` datatype) and an earlier, superseded worker draft.
