# TextToSQL core, modelled in Dafny

TextToSQL is a web application that turns a natural-language question into SQL for a connected
database. This project models the parts of it that carry state or build strings, as
immutable datatypes and pure functions:

- **The client state store** (`AppContext`). A four-slot state holds connection, schema, chat and
  history. The reducer `Reduce` applies one of twelve actions, and any other action is a no-op.
  `Run` dispatches a list of actions in order.
- **The client handlers** (`ChatInterface`, `DatabaseConnection`, `SchemaExplorer`). Each handler
  is the list of actions it dispatches, folded through the reducer. Every awaited backend call is
  an input `Outcome<T> = Ok(value) | Err(msg)`, where `msg` is the thrown error's message.
- **The backend query registry** (`QueryQueue`). It is a map from query id to record, plus a
  first-in first-out line of waiting ids.
- **The backend session table** (`SessionManager`). It holds sessions with an idle timeout, and
  each session owns one database manager.
- **The backend database manager** (`Database`). It builds the connection URL, attaches an
  engine, assembles the schema from what the inspector reports, zips query rows into mappings,
  and disconnects.
- **The backend text-to-SQL string functions** (`NlpService`). These are the schema rendered as
  `CREATE TABLE` statements, the prompt, Python's `str.strip`, the cleanup of a fenced answer, and
  two message templates. The language model is a function parameter.

Clock readings (`Date.now()`, `new Date()`, `time.time()`, `datetime.now()`) are integer
parameters. Generated ids (`uuid4`) are parameters that the caller guarantees are fresh.

Facts about the code that shape the model:

- Nothing polls, backs off, times out or cancels. `executeQuery` (frontend/src/services/api.js:80-90)
  is a single POST whose answer or error settles the chat handler.
- Message ids are `Date.now()` for the user's message and `Date.now() + 1` for the reply
  (frontend/src/components/ChatInterface.jsx:41, 66, 77). The model takes them from clock
  parameters and does not claim they are ordered or unique.
- The reducer state has no `session` slot (frontend/src/context/AppContext.jsx:5-23). Yet the
  chat panel reads `state.session.sessionId` (frontend/src/components/ChatInterface.jsx:24, 56),
  and the connection panel reads `state.session.connectionId` (DatabaseConnection.jsx:87).
  As written, those reads throw a TypeError. The model treats the session id as part of the
  backend call, whose result is the `outcome` input. It does not model the crash.
- frontend/src/services/api.js exports neither `downloadSampleDatabase`, which the connection
  panel imports (frontend/src/components/DatabaseConnection.jsx:4), nor `getContextStatus`,
  which the chat panel imports (frontend/src/components/ChatInterface.jsx:4). A named ES-module
  import of a missing export fails when the modules are linked or bundled, before any of their
  code runs. The app imports the connection panel statically (frontend/src/App.jsx:3), so as
  written the client does not load at all. The model assumes both imports resolve.

## Model

| member | source | states |
|---|---|---|
| AppContext.Reduce | frontend/src/context/AppContext.jsx:25-102 | Disconnect gives exactly the initial state from any state. An unknown action changes nothing. Every other action writes only its own slot. `ADD_TO_HISTORY` puts the entry first, keeps the old entries shifted by one, and caps the length at min(old+1, 10). `ADD_MESSAGE` appends, keeping the old messages as a prefix. The connection, schema and chat actions set exactly the listed fields. |
| AppContext.RunAppend | frontend/src/context/AppContext.jsx:104-105 | Dispatching two action lists in turn equals dispatching their concatenation. |
| AppContext.Run | frontend/src/context/AppContext.jsx:25-105 | Dispatching a list of actions in order. From a well-formed state, every sequence of dispatches stays well-formed: at most 10 history entries, and a connected state always has a configuration. |
| AppContext.RunEndingInDisconnect | frontend/src/context/AppContext.jsx:95-98 | Any dispatch sequence that ends in a disconnect yields the initial state. |
| AppContext.HistoryAfterAdds | frontend/src/context/AppContext.jsx:85-89 | After n additions the history is the first 10 of (added entries newest first, then the old history), and nothing else changes. |
| AppContext.HistoryKeepsNewestTen | frontend/src/context/AppContext.jsx:85-89 | After 10 or more additions the history is exactly the 10 newest added entries, newest first. For 11 additions, entries 2 to 11 remain. |
| ChatInterface.Submitted | frontend/src/components/ChatInterface.jsx:40-49 | Before the backend call, chat is loading, the user message holds the untrimmed input and is appended, and the query is first in the capped history. Connection and schema are unchanged. |
| ChatInterface.HandleSubmit | frontend/src/components/ChatInterface.jsx:36-83 | Blank input, or a disconnected state, leaves the state unchanged. Otherwise exactly two messages are added: the user message, then the answer or the error message. Loading ends false. On failure the chat error is the message. On success the old chat error stays. History gains one capped entry. Connection and schema never change. |
| ChatInterface.Settle | frontend/src/components/ChatInterface.jsx:53-83 | From any state the app is in when the call returns, settling appends exactly the reply message and ends loading. A failure stores its message as the chat error, and a success keeps the error. Connection, schema and history are unchanged. |
| ChatInterface.ClearDuringAwait | frontend/src/components/Header.jsx:7-9 | A chat cleared while the query is awaited ends holding only the reply message. |
| DatabaseConnection.Connect | frontend/src/components/DatabaseConnection.jsx:22-43 | Full success: connected, configuration stored, tables stored, schema not loading, no error. Connect failure: disconnected, not loading, error stored, schema untouched. Schema failure after connecting: disconnected with the error, and the schema left loading. Chat and history never change. |
| DatabaseConnection.HandleConnect | frontend/src/components/DatabaseConnection.jsx:22-43 | The form handler reaches the `Connect` outcome: connected with the fetched tables when both calls succeed, otherwise disconnected with an error. |
| DatabaseConnection.ConnectStartsLoading | frontend/src/components/DatabaseConnection.jsx:22-24 | The first dispatch makes the connection loading and clears its error. |
| DatabaseConnection.HandleFileUpload | frontend/src/components/DatabaseConnection.jsx:45-61 | With no file chosen, nothing is dispatched. |
| DatabaseConnection.HandleLoadSampleDatabase | frontend/src/components/DatabaseConnection.jsx:63-79 | A failed download ends like a failed connect with the download's message. |
| DatabaseConnection.HandlersAgree | frontend/src/components/DatabaseConnection.jsx:22-79 | The three handlers reach the same state for the same connect and schema outcomes. |
| SchemaExplorer.ToggleTable | frontend/src/components/SchemaExplorer.jsx:10-18 | The toggled name is in the result iff it was absent before. Every other name keeps its membership. |
| SchemaExplorer.ToggleTwice | frontend/src/components/SchemaExplorer.jsx:10-18 | Toggling the same name twice restores the set. |
| SchemaExplorer.HandleRefreshSchema | frontend/src/components/SchemaExplorer.jsx:20-28 | Success stores {tables, not loading, no error}. Failure keeps the tables, stops loading and stores the error. The other slots are unchanged. |
| SchemaExplorer.HandleDisconnect | frontend/src/components/SchemaExplorer.jsx:30-37 | Success yields exactly the initial state. Failure marks the connection disconnected with the error, and leaves schema, chat and history unchanged. |
| QueryQueue.AddQuery | backend/app/query_queue.py:31-44 | A fresh id gets a queued record with the given session, query and time. A missing context becomes empty. Other records are unchanged, and the id joins the back of the line. |
| QueryQueue.GetQueryStatus | backend/app/query_queue.py:46-47 | Returns the record for a known id and nothing for an unknown one. |
| QueryQueue.GetNextQuery | backend/app/query_queue.py:49-53 | Takes the front id, or nothing when no id is waiting. The records are unchanged. |
| QueryQueue.DrainIsFifo | backend/app/query_queue.py:43-53 | Repeatedly taking the next id returns the waiting ids in arrival order. |
| QueryQueue.AddedQueryServedLast | backend/app/query_queue.py:31-53 | A newly added query is served after every id already waiting. |
| QueryQueue.UpdateQueryStatus | backend/app/query_queue.py:55-61 | An unknown id is a no-op. Otherwise the status is always set. Result and error are replaced only by non-empty values and are kept otherwise. Every other field and record is unchanged. |
| QueryQueue.UpdateIdempotent | backend/app/query_queue.py:55-61 | Repeating an update changes nothing further. |
| QueryQueue.CleanupOldQueries | backend/app/query_queue.py:63-70 | Keeps exactly the records created at or after now - 3600·hours, unchanged. The waiting line is untouched. |
| QueryQueue.DefaultCleanupKeepsOneDay | backend/app/query_queue.py:63-64 | Without an age limit, the cleanup keeps exactly the records of the last 86400 seconds. |
| QueryQueue.CleanupMonotonic | backend/app/query_queue.py:63-70 | A later cleanup with the same age limit keeps a subset of what an earlier one keeps. |
| QueryQueue.CleanupLeavesStaleIds | backend/app/query_queue.py:63-70 | A waiting id whose record was cleaned up is still served, and then has no status. |
| SessionManager.NewManager | backend/app/session_manager.py:7-9 | A new table is empty and has the given timeout, 3600 seconds when none is given. |
| SessionManager.Count | backend/app/session_manager.py:52-53 | The count is zero exactly when no session is held. |
| SessionManager.CreateSession | backend/app/session_manager.py:11-18 | A fresh id gets created = last accessed = now and a disconnected database. Other sessions are unchanged, and the count grows by one. |
| SessionManager.CleanupSession | backend/app/session_manager.py:35-41 | Removes the id if present, so the count drops by one. Otherwise it is a no-op. |
| SessionManager.GetSession | backend/app/session_manager.py:20-33 | An unknown id finds nothing and changes nothing. A session idle for strictly more than the timeout is removed and finds nothing. Otherwise its database is returned and only its last access moves to now. |
| SessionManager.CleanupExpiredSessions | backend/app/session_manager.py:43-50 | Removes exactly the expired sessions and leaves the rest untouched. Every survivor has now - last accessed ≤ timeout. |
| SessionManager.AccessKeepsAlive | backend/app/session_manager.py:20-33 | After a successful lookup, a second lookup within the timeout finds the same database. |
| SessionManager.SweepAgreesWithLookup | backend/app/session_manager.py:20-50 | A session survives the sweep at a given time iff a lookup at that time finds it. |
| SessionManager.SweepIdempotent | backend/app/session_manager.py:43-50 | A second sweep at the same time removes nothing. |
| SessionManager.CreatedSessionLifetime | backend/app/session_manager.py:11-33 | A fresh session is found exactly while no more than the timeout has passed since its creation. The boundary counts as alive. |
| NlpService.LStrip | backend/app/nlp_service.py:91 | The result is a suffix of the input. Everything removed is whitespace, and the result does not start with whitespace. |
| NlpService.RStrip | backend/app/nlp_service.py:91 | The result is a prefix of the input. Everything removed is whitespace, and the result does not end with whitespace. |
| NlpService.Strip | backend/app/nlp_service.py:91 | The result is a slice of the input with whitespace only around it, and neither end of the result is whitespace. |
| NlpService.StripUnique | backend/app/nlp_service.py:91 | Any slice with only whitespace around it and none at its own ends is what strip returns. |
| NlpService.StripRemovesPadding | backend/app/nlp_service.py:91 | Whitespace padding on both sides of a stripped text is exactly what strip removes. |
| NlpService.StripIdempotent | backend/app/nlp_service.py:91-99 | Stripping twice is stripping once. |
| NlpService.ColumnDef | backend/app/nlp_service.py:106-110 | A column prints as its name, a space and its type, followed by ` PRIMARY KEY` exactly when it is a primary key. |
| NlpService.TableDdl | backend/app/nlp_service.py:103-112 | A table with no columns gives `CREATE TABLE name (`, a newline and two spaces, then a newline and `);`. One column puts its definition between the two. The statement always starts with the table's head and ends with the close; `TableDdlAppend` gives each further column. |
| NlpService.TableDdlAppend | backend/app/nlp_service.py:106-112 | A further column adds `, ` and its definition just before the statement's close. |
| NlpService.BuildSchemaContext | backend/app/nlp_service.py:101-114 | No tables give the empty string. One table gives its statement. Otherwise the result starts with the first table's statement header and ends with a statement close. |
| NlpService.SchemaContextAppend | backend/app/nlp_service.py:101-114 | A further table adds a blank line and its statement at the end, so statements appear in input order. |
| NlpService.Prompt | backend/app/nlp_service.py:69-80 | The schema text precedes the request, and the prompt ends with the SQL heading. |
| NlpService.CleanSql | backend/app/nlp_service.py:91-99 | The output has no whitespace at either end and is a contiguous piece of the completion. For the stripped completion `s`: without fences the output is `s`. With only a leading ```sql it is `s` minus those six characters, stripped. With only a trailing ``` it is `s` minus those three, stripped. With both it is the middle part, stripped. |
| NlpService.DropFences | backend/app/nlp_service.py:94-97 | A leading ```sql and a trailing ``` are each dropped on their own, whatever stands next to them. Both are dropped when both are present, and the input is unchanged when neither is. The result is a contiguous piece of the input. |
| NlpService.CleanSqlUnwrapsFence | backend/app/nlp_service.py:91-99 | A stripped query wrapped in a ```sql block on lines of its own comes back unchanged. |
| NlpService.CleanSqlOpeningFenceOnly | backend/app/nlp_service.py:94-99 | A ```sql opening on a line of its own, with no closing fence, is dropped, and the stripped query comes back. |
| NlpService.CleanSqlClosingFenceOnly | backend/app/nlp_service.py:96-99 | A closing ``` on a line of its own, with no ```sql opening, is dropped, and the stripped query comes back. |
| NlpService.TextToSql | backend/app/nlp_service.py:62-99 | Without a model it fails with "Model not loaded…". With a model it returns the cleaned completion of the prompt, which has no whitespace at either end. |
| NlpService.FormatErrorWithQuery | backend/app/nlp_service.py:116-118 | Starts with "Query execution failed." The generated query, the original request and the error occur in that order, without overlapping. |
| NlpService.GetExplanation | backend/app/nlp_service.py:120-122 | Embeds the original query in single quotes right after its fixed opening. |
| NlpService.ExplanationIgnoresSql | backend/app/nlp_service.py:120-122 | The explanation does not depend on the SQL. |
| Database.NatToDecimal | backend/app/database.py:16 | The port prints as a non-empty string of decimal digits, without a leading zero for positive numbers. |
| Database.DecimalRoundTrip | backend/app/database.py:16 | Reading the printed digits back gives the number. |
| Database.ConnectionUrl | backend/app/database.py:13-20 | `postgresql://u:p@h:port/db` for postgresql and `mysql+pymysql://u:p@h:port/db` for mysql. Any other type fails with "Unsupported database type". The type is the last parameter and defaults to postgresql. |
| Database.IsConnected | backend/app/database.py:116-117 | Connected means an engine is attached. For a consistent manager this holds exactly when a connection is recorded. |
| Database.AttachAsWritten | backend/app/database.py:22-30 | As written: fails iff the engine or its test fails, with the prefixed message. An engine failure leaves the manager unchanged. A failed test leaves the new engine set next to the old connection record. Success stores both. |
| Database.AttachDiffersOnlyAfterFailedTest | backend/app/database.py:22-30 | The as-written and corrected attach give the same result and connection record. Their managers differ only after a failed test, and then exactly when the new engine is not the old one. |
| Database.Attach | backend/app/database.py:22-28 | Corrected, see ## Findings. Fails iff the engine or its test fails, with the prefixed message, and then leaves the manager as it was. Success stores the engine and the connection record. |
| Database.ConnectCredentials | backend/app/database.py:13-30 | Corrected, see ## Findings. Succeeds iff the type is supported and the server is reachable, recording type credentials with host and database. Every failure carries "Connection failed: " and leaves the manager as it was. |
| Database.ConnectCredentialsAsWritten | backend/app/database.py:13-30 | As written: succeeds iff the type is supported and the server is reachable. Every failure carries "Connection failed: ". An unsupported type or an engine failure leaves the manager unchanged. A failed test leaves the new engine set and the old connection record in place. |
| Database.ConnectCredentialsAsWrittenFailureStaysConnected | backend/app/database.py:22-30 | As written, a failed connection test leaves a fresh manager connected but with no connection record. |
| Database.ConnectCredentialsAsWrittenMixesConnections | backend/app/database.py:22-30 | As written, a failed connection test leaves the new engine next to the old connection record. |
| Database.ConnectSqlite | backend/app/database.py:32-44 | Corrected, see ## Findings. Succeeds iff the file is reachable, with URL `sqlite:///` + path and a file record. Failures carry "SQLite connection failed: " and leave the manager as it was. |
| Database.ConnectSqliteAsWritten | backend/app/database.py:32-44 | As written: succeeds iff the file is reachable, storing `sqlite:///` + path and a file record. Failures carry "SQLite connection failed: ". A failed test leaves the new engine set and the old connection record in place. |
| Database.ConnectSqliteAsWrittenFailureStaysConnected | backend/app/database.py:32-44 | As written, a file that fails the test leaves a fresh manager connected. |
| Database.Disconnect | backend/app/database.py:110-117 | Afterwards the manager is not connected and has no connection record. Disconnecting when not connected is a no-op. |
| Database.ForeignKeyOf | backend/app/database.py:63-70 | With no constraining key the result is none. Otherwise it is `table.column` of the first referred column of the first key constraining the column, or an index error when that key refers to no column. |
| Database.AssembleColumns | backend/app/database.py:55-77 | One column per inspected column, in order, with the same name and type. A column is a primary key iff it is in the key list, and its reference is the one `ForeignKeyOf` finds. Assembly fails iff some column's reference fails. |
| Database.AssembleTables | backend/app/database.py:54-81 | One table per inspected table name, in order, with its assembled columns. Fails iff some table's columns fail. |
| Database.GetSchema | backend/app/database.py:46-83 | Without an engine it fails with "No database connection". Inspector failures get the "Failed to get schema: " prefix. Otherwise it returns the assembled tables. |
| Database.ZipRow | backend/app/database.py:98 | The keys are the column names paired with a value (up to the shorter list). Each key maps to the value at its last occurrence. |
| Database.ZipPrefixFacts | backend/app/database.py:98 | Inserting pairs in order gives exactly those keys, each holding the value of its last occurrence. |
| Database.ExecuteQuery | backend/app/database.py:85-108 | Without an engine it fails with "No database connection". Driver errors get the "Query execution failed: " prefix. Otherwise the SQL is returned unchanged with one zipped mapping per row. |

## Left out

- Rendering, table formatting, view switching and the statistics widgets. They are presentation only.
- The HTTP transport in frontend/src/services/api.js. Each call is one request, and its `detail`-or-fallback error text reaches the model only as the `Err` message of an outcome.
- The context loader and `checkContextStatus`. They keep component-local flags set from one request.
- Loading and running the language model (`hf_hub_download`, `Llama`). The model is a function parameter of `NlpService.TextToSql`.
- Engine creation, the `SELECT 1` test and query execution. These belong to SQLAlchemy. The driver's answer is an input (`Database.Probe`, `RawResult`).
- The execution-time measurement and its rounding to 3 decimals. This is floating point over the clock.
- The `asyncio.Queue` blocking wait and its 1-second timeout. `QueryQueue.GetNextQuery` returns nothing at once when no id is waiting.
- The `onStatsUpdate` callback in `handleSubmit`. It is an external observer with no effect on the state.
- backend/app/main.py, which defines only a greeting at `/`, plus the install and process scripts and the proxy. They are plumbing.
- Interleaving while a backend call is awaited. The handlers are modelled as one uninterrupted run of dispatches, but the header's Clear button (frontend/src/components/Header.jsx:28-29) and the schema panel's Disconnect button (frontend/src/components/SchemaExplorer.jsx:79-80) stay enabled while the chat is loading. `ChatInterface.Settle` states the settling step from any intermediate state, and `ChatInterface.ClearDuringAwait` shows a cleared chat keeping only the reply.
- SessionManager.GetSession: the source reads the clock twice, once for the expiry test and once for the new last access. The model uses one reading for both. The source also hands out the session's one mutable `DatabaseManager`, which the caller then connects; the model holds each session's manager as a value, so a session created here stays disconnected in the model whatever a caller does with the returned manager.
- SessionManager.CreateSession: the source reads the clock twice, so created and last accessed can differ by a few microseconds. The model uses one reading for both.
- SessionManager.CleanupSession: the source disconnects the removed session's database. The model drops the session and its manager value together, so that disconnect has nothing left to act on. The model does not say what a caller still holding the source's shared manager would see.
- QueryQueue.CleanupOldQueries: times are whole seconds here, while the source compares float timestamps.
- ChatInterface.HandleSubmit: message ids and timestamps come from clock parameters, so nothing is claimed about their order or uniqueness. Its "old messages plus the user message and the reply" holds only when nothing else is dispatched while the query is awaited.
- DatabaseConnection.HandleLoadSampleDatabase: the model assumes the `downloadSampleDatabase` import resolves, and takes the download as an outcome input. As written, api.js does not export that name, so the connection panel fails to link or bundle and the client never loads; no handler runs at all.
- Database.GetSchema: the inspector's answer is one outcome for all tables, read before assembly. In the source the inspector calls and the assembly interleave table by table. So when an earlier table's empty `referred_columns` raises an IndexError before a later inspector call would fail, the source reports the IndexError and the model reports the inspector's failure. Both messages carry the "Failed to get schema: " prefix.
- Database.ConnectCredentials: the port is an integer. The case where the form sends no port and the URL would print "None" is not modelled.
- Database.ConnectionUrl: no escaping is modelled, because the source performs none. User names or passwords containing `@`, `:` or `/` produce ambiguous URLs.

## Findings

| source | as written | input that shows it | evidently intended | confidence | as-written member | corrected member |
|---|---|---|---|---|---|---|
| backend/app/database.py:22-30 | `self.engine` is assigned before the connection test, and the `except` does not undo it. | On a fresh manager, `connect_credentials("db.example", 5432, "app", "wrong", "shop")` where the test query fails: the call raises, yet `is_connected()` is true and `connection_info` is None. On a connected manager, the old record stays next to the new engine. | A failed connect leaves the manager as it was, so `is_connected()` holds exactly when a connection is recorded. | medium, not executed | Database.ConnectCredentialsAsWrittenFailureStaysConnected | Database.ConnectCredentials |
| backend/app/database.py:32-44 | `connect_sqlite` has the same ordering: the engine is assigned before the test. | `connect_sqlite("upload.db")` on a fresh manager, where the file fails the test: the call raises, and `is_connected()` is true. | A failed connect leaves the manager as it was. | medium, not executed | Database.ConnectSqliteAsWrittenFailureStaysConnected | Database.ConnectSqlite |
