# dbt — a verified model of the terminal database browser's core

dbt is an ncurses browser for PostgreSQL servers. A configuration file lists
named servers. The user walks a five-level hierarchy (server, database,
schema, table/view, column) by typing names at a prompt, and types SQL into
one of seven query slots. This project models, in Dafny:

- the keystroke state machine of `dbt_session_handle_input` and the main
  loop (quit, Ctrl-C, exit codes);
- the select/refresh cascade of the five levels, with the adapter calls it
  makes, in order;
- the column label rule;
- the PostgreSQL adapter's shaping of libpq results into lists and query
  results.

libpq is an oracle (`Libpq.Engine`): a predicate saying which logins
succeed, and a function from (connection, statement) to a result. A result
has a status, field names, a tuple count and a total cell function. Every
adapter call is appended to a ghost call log, so statements such as "connect
before the schema load" and "one cascade per matching entry" are about that
log.

Layout, one module per source file:

| module | file | source |
|---|---|---|
| `Wrappers` | wrappers.dfy | Option |
| `Libpq` | libpq.dfy | the libpq oracle |
| `Dbt` | dbt.dfy | src/dbt.h: `CTRL`, the modes, the sizes, the state shapes |
| `Editor` | editor.dfy | the editing rules of src/dbt_session.c as pure functions |
| `PsqlAdapter` | psql_adapter.dfy | src/adapters/dbt_adapter_psql.c: class `Adapter`, shaping loops |
| `SessionState` | session.dfy | struct dbt_session as class `Session`, `dbt_session_init` |
| `Columns`, `Tables`, `Schemas`, `Databases`, `Servers` | columns.dfy … servers.dfy | src/dbt_columns.c … src/dbt_servers.c |
| `Input` | input.dfy | `dbt_session_handle_input` and the two commits |
| `Main` | main.dfy | src/main.c |

Each level module has a pure `RefreshEffect`/`SelectEffect` that returns the
new hierarchy, the adapter calls and the return code. The imperative
`Refresh`/`Select` methods scan the list with a found flag, as the C does.
They are proved to produce exactly that effect on the session. The
properties are then proved as lemmas about the pure effects.

Facts about the code that the model keeps:

- The "execute" key in QUERY mode is `CTRL(13)`. That is 13, plain Enter,
  not a separate chord (`Dbt.CtrlFacts`, `Editor.QueryExecute`).
- A query slot is allocated when QUERY mode is entered with the slot still
  null. It is not allocated on the first character typed.
- Slots are fixed 4096-byte buffers, not growable ones. All seven share one
  head (`q_buffer_head`).
- No key changes the active slot index.
- Query result rows are never checked for width. On text that is valid
  UTF-8, every row has exactly `nfields` cells by construction of the
  libpq table.

## Model

| member | source | states |
|---|---|---|
| Libpq.GetValue | src/adapters/dbt_adapter_psql.c:96 | PQgetvalue yields a value exactly for an in-range tuple and field, otherwise null |
| Dbt.Ctrl | src/dbt.h:12 | `CTRL(c)` is always in 0..31 and is the identity on 0..31 |
| Dbt.CtrlFacts | src/dbt.h:12 | `CTRL(13) == 13`, `CTRL('c') == CTRL('C') == 3`, and CTRL is idempotent |
| Dbt.SelectMode | src/dbt.h:31-38 | every level has a select mode |
| Dbt.ModeLevel | src/dbt.h:31-38 | each select mode prompts for exactly one level, the inverse of SelectMode |
| Dbt.HeaderOrder | src/dbt.h:31-38 | NORMAL is enumerator 0 and the select modes follow in hierarchy order Server, Database, Schema, Table/View, Column |
| Dbt.DistinctCount | src/dbt_databases.c:57-81 | in a list without repeats a name occurs at most once, and exactly once when listed |
| Editor.CString | src/dbt_session.c:18 | the string a committed buffer denotes: the bytes before the first zero byte, with no zero inside and a zero after |
| Editor.CStringEndsAt | src/dbt_session.c:18 | a zero at n with no earlier zero ends the C string at n |
| Editor.CleanText | src/dbt_session.c:266-268 | in a clean buffer, the text the C string denotes is exactly the bytes before head |
| Editor.Zeros | src/dbt_session.c:127 | calloc'd bytes: n zero bytes |
| Editor.Append | src/dbt_session.c:266-268 | a bounded append stays in range and keeps a clean buffer clean; it takes any line, so the stale-byte case can be typed on |
| Editor.Erase | src/dbt_session.c:242-245 | backspace keeps the buffer clean |
| Editor.AppendText | src/dbt_session.c:203-204 | an append extends the text by the character unless the head is at size-1, when it is dropped; the head never passes size-1 |
| Editor.EraseText | src/dbt_session.c:178-181 | backspace is a no-op at head 0, otherwise the text loses its last character |
| Editor.ResetClears | src/dbt_session.c:227-228 | the reset loop, modelled by `Editor.Reset`, leaves an all-zero buffer with head 0 and empty text |
| Editor.Step | src/dbt_session.c:88-277 | one keystroke keeps the editing invariant; the new mode is NextMode of the old mode and the key; the active slot index never changes |
| Editor.NormalKeyMap | src/dbt_session.c:94-120 | 'S','d','s','t','c','i' map to the five select modes in level order and to QUERY; every other key keeps NORMAL |
| Editor.NormalStep | src/dbt_session.c:94-167 | in NORMAL only the mode changes, except for the slot allocation on entering QUERY |
| Editor.AllocatedOk | src/dbt_session.c:124-129 | a zeroed slot of 4096 bytes with head 0 keeps the editing invariant |
| Editor.QueryBufferOk | src/dbt_session.c:171-212 | writing a clean buffer back into the allocated active slot keeps the editing invariant |
| Editor.QueryEntry | src/dbt_session.c:124-129 | entering QUERY allocates a zeroed slot with head 0 only when the slot is null; an allocated slot keeps its text and head |
| Editor.QueryExecute | src/dbt_session.c:173-177 | the execute key leaves the mode, the slots and the head unchanged |
| Editor.QueryTyping | src/dbt_session.c:196-204 | typing in QUERY grows only the active slot's text, bounded at 4095; other slots are unchanged |
| Editor.QueryBackspace | src/dbt_session.c:178-181 | backspace in QUERY is a no-op at head 0, otherwise removes the last character of the active slot only |
| Editor.LineTyping | src/dbt_session.c:260-268 | typing at a prompt grows the line by the character unless 63 bytes are already taken |
| Editor.LineBackspace | src/dbt_session.c:242-245 | backspace at a prompt is a no-op on an empty line, otherwise removes the last character |
| Editor.LineCommit | src/dbt_session.c:217-228 | Enter at a prompt returns to NORMAL with an all-zero line and head 0, leaving the slots untouched |
| Editor.IgnoredInput | src/dbt_session.c:196-199 | outside NORMAL, keys other than Enter, backspace and 0x20..0x7E change nothing |
| PsqlAdapter.InitHandles | src/adapters/dbt_adapter_psql.c:192-227 | init drops both connections; a successful server login becomes the connection and stores host, user and pass; a failed one leaves the connection null and the old credentials |
| PsqlAdapter.ConnectHandles | src/adapters/dbt_adapter_psql.c:36-43 | only a successful login replaces the database handle; on failure every handle is unchanged |
| PsqlAdapter.ConnectIdempotent | src/adapters/dbt_adapter_psql.c:36-43 | connecting twice to the same database leaves the handles as connecting once |
| PsqlAdapter.NameList | src/adapters/dbt_adapter_psql.c:14-27 | null unless TUPLES_OK; otherwise field 0 of every tuple in tuple order |
| PsqlAdapter.NameListOnePerTuple | src/adapters/dbt_adapter_psql.c:22-27 | a one-field catalog result gives exactly one name per tuple |
| PsqlAdapter.ColumnList | src/adapters/dbt_adapter_psql.c:127-140 | null unless TUPLES_OK; otherwise one column object per tuple, with name, ordinal, nullable, datatype, max_length, is_identity taken from fields 0..5 |
| PsqlAdapter.QueryOutcome | src/adapters/dbt_adapter_psql.c:149-181 | null unless TUPLES_OK; otherwise the column names, one row per tuple, and every row exactly nfields cells, cell (i, j) being the value at tuple i, field j |
| PsqlAdapter.CollectNames | src/adapters/dbt_adapter_psql.c:20-27 | the append loop builds exactly NameList of the result |
| PsqlAdapter.CollectColumns | src/adapters/dbt_adapter_psql.c:127-140 | the append loop builds exactly ColumnList of the result |
| PsqlAdapter.CollectQuery | src/adapters/dbt_adapter_psql.c:158-181 | the two loops build exactly QueryOutcome of the result, and every row has as many cells as there are columns |
| PsqlAdapter.Adapter.constructor | src/dbt.h:42-54 | an adapter with no connections and credentials and an empty call log |
| PsqlAdapter.Adapter.Init | src/adapters/dbt_adapter_psql.c:192-227 | the handles become InitHandles of the old ones and the init call is logged |
| PsqlAdapter.Adapter.LoadDatabaseList | src/adapters/dbt_adapter_psql.c:6-34 | the database catalog over the server connection, shaped by NameList |
| PsqlAdapter.Adapter.ConnectToDb | src/adapters/dbt_adapter_psql.c:36-43 | the handles become ConnectHandles of the old ones |
| PsqlAdapter.Adapter.LoadSchemaList | src/adapters/dbt_adapter_psql.c:45-72 | the schema catalog over the database connection, shaped by NameList |
| PsqlAdapter.Adapter.LoadTableList | src/adapters/dbt_adapter_psql.c:74-105 | the table catalog of the given schema over the database connection, shaped by NameList |
| PsqlAdapter.Adapter.LoadColumnList | src/adapters/dbt_adapter_psql.c:107-147 | the column catalog of (schema, table) over the database connection, shaped by ColumnList |
| PsqlAdapter.Adapter.PerformQuery | src/adapters/dbt_adapter_psql.c:149-188 | the user's SQL over the database connection, shaped by QueryOutcome |
| SessionState.Session.EditorView | src/dbt_session.c:336-347 | the buffers of a valid session satisfy the editing invariant |
| SessionState.Session.constructor | src/dbt_session.c:301-347 | NORMAL mode, an all-zero line with head 0, seven null slots, head and slot index 0, nothing selected, no connection |
| SessionState.Session.ResetLine | src/dbt_session.c:227-228 | the reset loop zeroes bytes 0..head and sets head 0, giving an all-zero line and keeping the invariant |
| SessionState.Session.EraseLine | src/dbt_session.c:242-245 | backspace on the line array is Erase of the line |
| SessionState.Session.AppendLine | src/dbt_session.c:266-268 | typing on the line array is Append of the line, bounded at 63 |
| SessionState.Session.EraseQuery | src/dbt_session.c:178-181 | backspace on the active slot is Erase of that slot only |
| SessionState.Session.AppendQuery | src/dbt_session.c:202-204 | typing on the active slot is Append of that slot only, bounded at 4095 |
| SessionState.Session.AllocateSlot | src/dbt_session.c:124-129 | a null active slot gets a fresh zeroed 4096-byte array with head 0; an allocated one is left alone |
| SessionState.Session.SetMode | src/dbt_session.c:96-119 | a mode change touches only the mode; QUERY is entered only with its slot allocated |
| SessionState.InitLineAsWritten | src/dbt_session.c:336-337 | init as written zeroes only byte 0 of the line; bytes 1..63 are what the stack held |
| SessionState.StaleLineCommitsStaleBytes | src/dbt_session.c:336-337 | with a stale 'x' in byte 1, typing 'a' through `Editor.Append` makes the committed name "ax" |
| Columns.LabelMarks | src/dbt_columns.c:32-41 | `Columns.Label` models the label printing; a label starts with "name - datatype", and a strict reader (`Columns.ReadMarks`, which accepts only an empty or parenthesised length part before "/REQ" and "/ID") reads its suffix back as exactly the column's decisions: "(max_length)" iff the type is varchar or nvarchar, "/REQ" iff nullable is "NO", "/ID" iff is_identity is "YES" |
| Columns.TagRoundTrip | src/dbt_columns.c:37-41 | a suffix tag is recognised, and stripped, exactly when it was appended |
| Columns.SuffixMarks | src/dbt_columns.c:37-41 | the suffixes alone read back as the three decisions about the column |
| Columns.ReadTags | src/dbt_columns.c:39-41 | "/REQ" and "/ID" appended after a length part are read back, and so is the length part |
| Columns.UsersTableLabels | src/dbt_columns.c:32-41 | "id" (int4, NOT NULL, identity) shows as "id - int4/REQ/ID"; "email" (varchar(255), NOT NULL) as "email - varchar(255)/REQ" |
| Columns.ReadMarksStrict | src/dbt_columns.c:37-41 | the reader refuses a length in other brackets and a stray character, so only the rendering the label code writes reads back |
| Columns.RefreshEffect | src/dbt_columns.c:6-13 | one adapter call with (current schema, current table); column_list becomes the answer; rc 0 iff it is a list |
| Columns.SelectListed | src/dbt_columns.c:53-96 | `Columns.SelectEffect` models the select; without a column list rc is 1 and nothing changes; otherwise rc 0 iff a column of that name is listed; only current_column changes: to the name on a match, to null otherwise; no adapter call |
| Columns.Refresh | src/dbt_columns.c:6-50 | the session and the call log change as RefreshEffect says; one label per column, in list order |
| Columns.Select | src/dbt_columns.c:53-96 | the scan changes the session as SelectEffect says |
| Tables.RefreshEffect | src/dbt_tables.c:6-13 | one adapter call with the current schema, unchecked; table_list becomes the answer; rc 0 iff it is a list |
| Tables.CascadeIdempotent | src/dbt_tables.c:49-63 | `Tables.Cascade` models one match (store, then refresh the columns); a second cascade for the same name finds the state as the first left it |
| Tables.SelectListed | src/dbt_tables.c:38-79 | `Tables.SelectEffect` models the select; without a table list rc is 1 and nothing changes; otherwise rc 0 iff the name is listed; only current_table and column_list change; on a match the table is current and its columns are loaded; otherwise the table is nulled and the columns stay |
| Tables.DistinctListOneCascade | src/dbt_tables.c:47-63 | in a list without repeats a listed name makes exactly one column-list call |
| Tables.ReselectIdempotent | src/dbt_tables.c:38-79 | selecting the same name twice runs the cascade again, with the same calls, and leaves the state of one selection |
| Tables.Refresh | src/dbt_tables.c:6-36 | the session and the call log change as RefreshEffect says |
| Tables.Select | src/dbt_tables.c:38-79 | the scan, one cascade per matching entry, changes the session and the call log as SelectEffect says |
| Schemas.RefreshEffect | src/dbt_schemas.c:6-13 | one adapter call; schema_list becomes the answer over the database connection; rc 0 iff it is a list |
| Schemas.CascadeIdempotent | src/dbt_schemas.c:49-63 | `Schemas.Cascade` models one match (store, then refresh the tables); a second cascade for the same name finds the state as the first left it |
| Schemas.SelectListed | src/dbt_schemas.c:38-80 | `Schemas.SelectEffect` models the select; without a schema list rc is 1 and nothing changes; otherwise rc 0 iff the name is listed; only current_schema and table_list change; on a match the schema is current and its tables are loaded; otherwise the schema is nulled and the tables stay |
| Schemas.DistinctListOneCascade | src/dbt_schemas.c:47-63 | in a list without repeats a listed name makes exactly one table-list call |
| Schemas.ReselectIdempotent | src/dbt_schemas.c:38-80 | selecting the same name twice runs the cascade again, with the same calls, and leaves the state of one selection |
| Schemas.Refresh | src/dbt_schemas.c:6-36 | the session and the call log change as RefreshEffect says |
| Schemas.Select | src/dbt_schemas.c:38-80 | the scan changes the session and the call log as SelectEffect says |
| Databases.RefreshCalls | src/dbt_databases.c:6-47 | `Databases.RefreshEffect` models the refresh; no call without a current server; init comes first, and only for type "psql", where the handles become InitHandles; other types keep the handles; database_list becomes NameList of the catalog query over the resulting connection; rc 0 iff a list came back; only the handles and database_list change |
| Databases.CascadeIdempotent | src/dbt_databases.c:61-79 | `Databases.Cascade` models one match (store, connect, refresh the schemas); doing it again for the same name leaves the state of the first cascade |
| Databases.SelectListed | src/dbt_databases.c:50-95 | `Databases.SelectEffect` models the select; without a database list rc is 1 and nothing changes; otherwise rc 0 iff the name is listed; only current_database, the database handle and schema_list change; on a match the database is current and the handle is the connect's; otherwise only current_database is nulled |
| Databases.ConnectBeforeSchemas | src/dbt_databases.c:59-81 | each successful select logs connect, schema-list pairs, connect first; the schemas come over the connection just made |
| Databases.CascadeCalls | src/dbt_databases.c:61-79 | k cascades log connect and schema-list alternately, 2k calls |
| Databases.DistinctListOneCascade | src/dbt_databases.c:59-81 | in a list without repeats a listed name connects and loads schemas exactly once |
| Databases.ReselectIdempotent | src/dbt_databases.c:50-95 | re-selecting the current database connects and loads the schemas again, with the same calls as the first selection, and leaves the state of one selection |
| Databases.Refresh | src/dbt_databases.c:6-47 | the session, the adapter and the call log change as RefreshEffect says |
| Databases.Select | src/dbt_databases.c:50-95 | the scan changes the session and the call log as SelectEffect says |
| Databases.Store | src/dbt_databases.c:61-79 | a match stores the name as current_database, connects and refreshes the schemas, as Cascade says |
| Servers.Rows | src/dbt_servers.c:22-30 | every row comes from a server whose type is a string, and every such server has a row; the order is stated by Servers.RowsOrder |
| Servers.RowsPrefix | src/dbt_servers.c:21-29 | the rows of a prefix of the servers are the first rows of all of them |
| Servers.RowsOrder | src/dbt_servers.c:21-30 | rows follow configuration order: a server whose type is a string gets the row numbered by the typed servers before it, every row is such a server's row, and servers without a type take no number |
| Servers.RowIndex | src/dbt_servers.c:21-30 | the row of a typed server sits right after the rows of the servers before it |
| Servers.RowsCovered | src/dbt_servers.c:21-30 | every row is the row of a typed server, numbered by the typed servers before it |
| Servers.Lookup | src/dbt_servers.c:64-80 | a server is found exactly when some entry with a string type has that name |
| Servers.LookupUnique | src/dbt_servers.c:64-80 | with no duplicate keys, the entry found is the one with that name |
| Servers.Refresh | src/dbt_servers.c:7-42 | rc 1 iff "servers" is not an object; otherwise the drawn rows are Rows of the servers |
| Servers.SelectableIffListed | src/dbt_servers.c:45-104 | `Servers.SelectEffect` models the select and `Servers.Cascade` one match; when "servers" is not an object rc is 1 and nothing changes; otherwise rc 0 iff refresh drew a row with that name; a match stores that entry as current_server, and the result is then the databases refresh; a failure makes no call, nulls current_server and leaves every other level untouched |
| Servers.LookupIffRow | src/dbt_servers.c:21-30 | an entry is found exactly when a drawn row carries the name |
| Servers.Select | src/dbt_servers.c:45-104 | the scan changes the session and the call log as SelectEffect says; on success the marked row is a row with that name, numbered without the skipped entries |
| Servers.Store | src/dbt_servers.c:69-83 | a match stores the entry as current_server and then runs the databases refresh, as Cascade says |
| Input.CommitSelects | src/dbt_session.c:15-31 | `Input.CommitEffect` models the dispatch of dbt_session_commit_input; a commit in a select mode succeeds iff the name is listed at that mode's level, and never changes a selection or list above it |
| Input.KeyEffectQuiet | src/dbt_session.c:88-277 | `Input.KeyEffect` models what a key does to the hierarchy and the adapter; only Enter (in a select mode or in QUERY) reaches either |
| Input.CommitInput | src/dbt_session.c:15-31 | the line's C string goes to the select of the current mode, with that select's effect and return value |
| Input.CommitQuery | src/dbt_session.c:34-38 | the active slot's text goes to perform_query; rc 1 iff the result is not an object |
| Input.HandleInput | src/dbt_session.c:88-277 | 1 for a null session; otherwise 0, the buffers after Step and the hierarchy and call log after KeyEffect |
| Input.NormalInput | src/dbt_session.c:94-167 | the NORMAL branch performs Step and leaves the hierarchy as it was |
| Input.QueryInput | src/dbt_session.c:171-212 | the QUERY branch performs Step, keeps the hierarchy and logs exactly the query call of KeyEffect |
| Input.LineInput | src/dbt_session.c:216-276 | the select-mode branch performs Step and KeyEffect |
| Input.SubmitLine | src/dbt_session.c:216-227 | Enter at a select prompt commits the line, returns to NORMAL and leaves an all-zero line, as Step and KeyEffect say |
| Input.KeyEffectNormal | src/dbt_session.c:94-167 | a key in NORMAL reaches neither the adapter nor the hierarchy |
| Main.QuitKeys | src/main.c:40-64 | 'q' ends the loop only in NORMAL; Ctrl-C followed by 'q' ends it from any mode |
| Main.CancelEditor | src/main.c:41-60 | Ctrl-C keeps the editing invariant |
| Main.CancelClears | src/main.c:41-60 | after Ctrl-C the mode is NORMAL and the line is empty and all zero; the slots, their head and the slot index are unchanged |
| Main.Cancel | src/main.c:41-60 | the Ctrl-C branch changes the buffers as CancelEditor says |
| Main.Dispatch | src/main.c:36-65 | the loop stops iff the key is 'q' in NORMAL; Ctrl-C cancels and leaves the hierarchy alone; every other key is handled by the session |
| Main.Run | src/main.c:16-72 | exit 1 when the configuration cannot be loaded, 2 when "servers" is not an object, 0 iff some 'q' is typed in NORMAL, otherwise still waiting |

## Left out

- ncurses: windows, geometry, prompts, cursor moves and the "[*]"/"[ ]" marks. These are display only. `Servers.Select` returns the marked row's index. `Columns.Refresh` returns the labels.
- The rendering loops of `dbt_session_commit_query`. `Input.CommitQuery` returns the result it would draw.
- Locating and reading the configuration (`getenv("HOME")`, `fopen`, `json_loadf`). The configuration is a parameter. `Main.Run` receives None for any failure there. Keys are unique because the file is parsed with JSON_REJECT_DUPLICATES.
- JSON typing beyond what the code checks. A "type", "host", "user" or "pass" member that is missing or not a string is None.
- PsqlAdapter.NameList, PsqlAdapter.ColumnList, PsqlAdapter.QueryOutcome, PsqlAdapter.CollectNames, PsqlAdapter.CollectColumns, PsqlAdapter.CollectQuery: assume every value the database server returns converts to a JSON string. `json_string` fails on invalid UTF-8. The failed element is then not appended, so a name list or a result row can be shorter than the result and a column object can lack a key.
- libpq. Connections and results come from an oracle (`Libpq.Engine`) that stays fixed for the session. The idempotence lemmas rely on the server answering the same catalog query twice with the same result. The ORDER BY clauses are assumptions about the oracle and are not modelled.
- The oracle is assumed sound: a successful catalog statement returns the columns its select list names.
- jansson reference counting and memory: lists are never freed, and old connections are never closed.
- Uninitialised state of the session local in `main`. The hierarchy pointers and adapter fields start as null in the model.
- The adapter's function pointers are bound only by the first "psql" init. A first server of another type would call through uninitialised pointers. The model always dispatches to the psql functions.
- The null-name and null-config guards of the select and refresh functions. Names come from the line buffer and the configuration is loaded before the loop, so they cannot be taken. The null-session guard of `dbt_session_handle_input` is modelled.
- A "type" that is not a string reaching `strcmp` in `dbt_databases_refresh`. It cannot happen: such servers are never selectable.
- The commented-out mssql, mysql and sqlite adapters.
- `getchar` and end of file. `Main.Run` takes a finite key sequence. EOF (-1) is an ordinary non-printable key, and a run without quit ends as Waiting.
- SessionState.Session.AllocateSlot: assumes the `calloc` of a 4096-byte slot succeeds. If it failed, the C would be in QUERY mode with a null slot, and the next typed key would write through that null pointer. The model keeps "QUERY implies an allocated slot" as part of `Session.Valid` and `Session.SetMode` requires it.
- The width of `buffer_head` (short) and of the other integers. Both heads stay below 64 and 4096, so nothing overflows.

## Findings

| source | as written | input that shows it | evidently intended | confidence | as-written member | corrected member |
|---|---|---|---|---|---|---|
| src/dbt_session.c:336-337 | `dbt_session_init` zeroes only `input_buffer[0]`. The session is an uninitialised local of `main`, so bytes 1..63 keep what the stack held. The C string committed at a select prompt runs on past the typed text into those bytes. The reset loop only clears bytes 0..head. | byte 1 holds 'x'; the user types 'a' and Enter; the name passed to the select is "ax" | every byte of the line starts zero, so the committed name is exactly the typed text | not executed | SessionState.InitLineAsWritten, SessionState.StaleLineCommitsStaleBytes | SessionState.Session.constructor |
