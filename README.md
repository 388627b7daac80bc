# An in-process PostgreSQL harness, modelled in Dafny

The harness runs a PostgreSQL backend inside the host process. It has six
pieces, and this project models each one.

- **Static extension registry.** It replaces dynamic library loading: a
  newest-first list of registered libraries, each with a sentinel-terminated
  function table and a one-shot `_PG_init`.
- **Embedded-file lookup.** The engine asks to open a file. If its path ends
  in the name of a compiled-in file (a library's control or script file, or
  the timezone file), the compiled-in bytes are served instead.
- **Notification FIFO.** The engine's notify hook fills a head/tail queue,
  and `pg_embedded_poll_notifications` drains it one notification at a time.
- **Embedded session.** It covers:
  - the initialised flag and the guards of every entry point;
  - the 32-slot exit-handler stack, run newest first;
  - the pre-initialisation settings;
  - the autocommit and unwinding logic of `pg_embedded_exec`, with its
    copy and free of the result matrix;
  - begin, commit and rollback;
  - listen, unlisten and notify;
  - shutdown.
- **Global reset.** Run before an in-process initdb, it puts every reachable
  backend global back to a fixed value and drains the notification queue.
- **In-process initdb.** It covers:
  - the entry checks and defaults;
  - the subdirectory plan;
  - the BKI token substitution;
  - the option list for `createdb`;
  - the post-bootstrap script loop;
  - the creation of `template0` and `postgres`.

The PostgreSQL backend is an oracle. Each engine call either returns or
raises an ERROR. The outcome (which call raises, what SPI returns, which
allocation fails) is a parameter of the operation.

- A raising call has no effect on the state tracked here.
- A ghost `log` records, in order, the engine calls that returned.
- `PG_TRY`/`PG_CATCH` becomes an early return and a catch path that reads
  the volatile flags as the try block left them.

Modules follow the source files:

| Module | File | Source |
|---|---|---|
| `Extensions` | `extensions.dfy` | `src/extensions.c` |
| `EmbeddedFiles` | `embedded_fopen.dfy` | `src/embedded_fopen.c` |
| `Notifications` | `notifications.dfy` | `src/pg_notification.c` |
| `AtExit` | `atexit.dfy` | exit-handler stack of `src/pgembedded.c` |
| `QueryResult` | `query_result.dfy` | `copy_tuptable` and `pg_embedded_free_result` of `src/pgembedded.c` |
| `Embedded` | `session.dfy` | the rest of `src/pgembedded.c` |
| `Reset` | `reset.dfy` | `src/pg_reset.c` |
| `Initdb` | `initdb.dfy` | `src/initdb_simple.c` |
| `Common` | `common.dfy` | shared helpers: `Option`, `Count`, prefix test, decimal printing |

Each module takes the source's own form.

- State the C code updates in place becomes a class whose methods state the
  new state:
  - the registry and its libraries;
  - the notification queue;
  - the handler array;
  - the result record and its row array;
  - the session flags;
  - the process globals.
- Loops in the source are `while` loops proved against a specification
  function:
  - the function-table scan and the embedded-file scan;
  - the queue drain;
  - the handler run;
  - the row copy and the free;
  - the subdirectory loop;
  - the BKI scanner;
  - the script loop.
- Pure searches and string slicing are functions with lemmas.

The following design facts are stated and proved:

- **`pg_embedded_exec` is tied to one specification, `Embedded.RunExec`.**
  - `Embedded.RaisePoint` is the first raising step on the path the try
    block takes.
  - The calls made are those of the steps before it, then the catch block's
    calls as its two flags say.
  - Lemmas about `RunExec` give the autocommit rules, the unconditional
    abort on error, and the exactly-once pop and finish counts.
- **`pg_embedded_init_internal` is a fixed list of steps, `Embedded.InitSteps`,
  run until the first one that fails.**

Where the header comments and the code disagree, the model follows the code:

- **Error path of `pg_embedded_exec`.** The header `src/pgembedded.h:77-78`
  says the call returns NULL on error. The code returns the result with
  status -1 (`src/pgembedded.c:561-565`), and it aborts even a transaction
  opened by `pg_embedded_begin`.
- **Shutdown does not reset globals.** `pg_embedded_shutdown` does not call
  `reset_state`. Only `pg_embedded_initdb` does (`src/pgembedded.c:114`).
- **Rollback before initialisation.** `pg_embedded_rollback` reports
  "Not in transaction" rather than "Not initialized"
  (`src/pgembedded.c:704-708`).
- **Header signature.** `register_static_extension` has six parameters, as
  `src/extensions.c:19-24` defines it. The header declares only four.

## Model

| member | source | states |
|---|---|---|
| Extensions.LastIndexOf | src/extensions.c:66 | `strrchr`: the index holds the character and no later index does; None exactly when the character is absent |
| Extensions.StripLibdir | src/extensions.c:55-56 | a leading `$libdir/` is removed once; any other name is unchanged |
| Extensions.Basename | src/extensions.c:58-62 | the result has no `/` and is either the whole name or the text after its last `/` |
| Extensions.BasenameAfterSeparator | src/extensions.c:58-62 | any directory prefix before a `/` is irrelevant to the base name |
| Extensions.LibdirPrefixIrrelevant | src/extensions.c:55-62 | stripping `$libdir/` never changes the base name |
| Extensions.StripOneSharedSuffix | src/extensions.c:66-68 | exactly one `.so`/`.dll`/`.dylib` is removed from the end, whatever dots precede it |
| Extensions.StripSharedSuffix | src/extensions.c:66-68 | the result is a prefix of the base name |
| Extensions.StripSharedSuffixExactly | src/extensions.c:66-68 | the base name changes exactly when it ends in `.so`, `.dll` or `.dylib`, and then exactly that suffix is cut |
| Extensions.StripKeepsOtherSuffix | src/extensions.c:66-68 | any other last suffix, such as `.so.1` or `.sox`, is kept |
| Extensions.StripKeepsDotless | src/extensions.c:66-68 | a name without a dot is kept as it is |
| Extensions.Normalize | src/extensions.c:48-71 | the normalised name never contains a `/` |
| Extensions.NormalizeBareName | src/extensions.c:48-71 | a bare name such as `vector` normalises to itself |
| Extensions.NormalizeLibdirName | src/extensions.c:48-71 | `$libdir/vector` normalises to `vector` |
| Extensions.NormalizeSharedObjectPath | src/extensions.c:48-71 | `/any/path/vector.so` (or `.dll`, `.dylib`) normalises to `vector` |
| Extensions.NormalizeStripsOnlyOneSuffix | src/extensions.c:66-68 | `x.so.so` keeps one `.so` |
| Extensions.NormalizeKeepsOtherSuffix | src/extensions.c:48-71 | `dir/name.ext` with any other last suffix normalises to `name.ext` |
| Extensions.SentinelIndex | src/extensions.c:102 | the first `{NULL, NULL}` row: every row before it is named |
| Extensions.ScanTable | src/extensions.c:102-108 | the first row before the sentinel with an equal name; None when no such row exists |
| Extensions.ScanStopsAtSentinel | src/extensions.c:102-106 | rows after the sentinel never affect the scan |
| Extensions.TableLookup | src/extensions.c:99-108 | a pointer exactly when the table is non-NULL and a row before the sentinel has the name |
| Extensions.LookupFunctionInLibrary | src/extensions.c:94-109 | the loop returns TableLookup of the library's table, and NULL for a NULL library |
| Extensions.Library.constructor | src/extensions.c:28-40 | every field as given, `init_called` false |
| Extensions.Library.CallInitOnce | src/extensions.c:111-120 | init runs exactly when non-NULL and not yet called; it runs at most once in a library's lifetime |
| Extensions.FindLibrary | src/extensions.c:81-91 | the first library with the normalised name; None when no name matches |
| Extensions.FindLibraryFirst | src/extensions.c:81-88 | the first matching index is the one returned |
| Extensions.ScanLibraries | src/extensions.c:81-88 | the walk down the list returns the library FindLibrary selects, or NULL |
| Extensions.NewestRegistrationWins | src/extensions.c:42-43 | after a registration under a colliding name, the new library is found |
| Extensions.RegistrationKeepsOtherLookups | src/extensions.c:42-43 | a registration under another name shifts every other lookup by one place and changes nothing else |
| Extensions.Registry.constructor | src/extensions.c:10 | the registry starts empty |
| Extensions.Registry.Register | src/extensions.c:18-46 | a fresh library with `init_called` false is prepended and the older ones keep their order; a failed allocation changes nothing |
| Extensions.Registry.LookupStaticLibrary | src/extensions.c:73-92 | the loop returns the library FindLibrary selects for the normalised name, or NULL |
| Extensions.Registry.InitFound | src/extensions.c:142 | the found library's init runs at most once and no other library's init state changes |
| Extensions.FunctionFromLibrary | src/extensions.c:144-169 | a missing symbol raises only with `signalNotFound`, else NULL; a found one is returned, with a handle of magic `0xDEADBEEF` when `filehandle` is non-NULL, or an out-of-memory raise when its allocation fails |
| Extensions.Registry.LoadExternalFunction | src/extensions.c:122-170 | unknown library: raises, no init; otherwise init runs once, before the lookup; a missing function raises only with `signalNotFound`; a handle with magic `0xDEADBEEF` and the library is made only when `filehandle` is non-NULL |
| Extensions.LookupExternalFunction | src/extensions.c:172-206 | NULL for a NULL handle or a bad magic; `pg_finfo_` names are searched only in the finfo table, others only in the function table |
| EmbeddedFiles.TimezoneFile | src/embedded_timezone.c:9-13 | the single compiled-in file `Default` with its bytes and length |
| EmbeddedFiles.PathEndsWith | src/embedded_fopen.c:12-22 | true only when the suffix is no longer than the path and ends it |
| EmbeddedFiles.PathEndsWithAppended | src/embedded_fopen.c:12-22 | every path of the form prefix + suffix matches the suffix |
| EmbeddedFiles.EmptySuffixMatches | src/embedded_fopen.c:18-21 | the empty file name matches every path |
| EmbeddedFiles.PathEndsWithTransitive | src/embedded_fopen.c:12-22 | matching a longer name implies matching each of its tails |
| EmbeddedFiles.LookupInLibraries | src/embedded_fopen.c:30-37 | the file found matches and belongs to some library; none exactly when no control or script file matches |
| EmbeddedFiles.LookupEmbeddedFile | src/embedded_fopen.c:24-44 | the file found matches the path; NULL exactly when neither a library file nor the timezone file matches |
| EmbeddedFiles.FirstMatch | src/embedded_fopen.c:30-37 | the first matching candidate; none when no candidate matches |
| EmbeddedFiles.FirstMatchAppend | src/embedded_fopen.c:30-37 | the left part of a concatenation wins when it has a match |
| EmbeddedFiles.LookupInLibrariesIsFirstMatch | src/embedded_fopen.c:30-37 | the registry scan equals the first match in the flat list, control file before script file, newest library first |
| EmbeddedFiles.LookupIsPriorityOrder | src/embedded_fopen.c:24-44 | the lookup is the first match in the flat list, with the timezone file after the whole registry |
| EmbeddedFiles.ControlBeforeScript | src/embedded_fopen.c:32-36 | a library's matching control file is returned ahead of its script file |
| EmbeddedFiles.NewerLibraryShadows | src/embedded_fopen.c:30-37 | a newer library's matching file hides every older library's file and the timezone file |
| EmbeddedFiles.FindEmbeddedFile | src/embedded_fopen.c:24-44 | the loop over the registry returns LookupEmbeddedFile |
| EmbeddedFiles.HasEmbeddedFile | src/embedded_fopen.c:58-63 | true exactly when the timezone file or some library file matches |
| EmbeddedFiles.GetEmbeddedFileData | src/embedded_fopen.c:65-78 | NULL with `*length` untouched on a miss; on a hit the file's bytes, with `*length` set to its length only when the pointer is non-NULL |
| Notifications.Node.constructor | src/pg_notification.c:34-37 | a node with the given channel, payload and sender and a NULL link |
| Notifications.Values | src/pg_notification.c:93-105 | the notifications a chain holds, one per node and in order |
| Notifications.NotificationQueue.constructor | src/pg_notification.c:47-55 | the queue starts empty with both ends NULL |
| Notifications.NotificationQueue.Capture | src/pg_notification.c:25-56 | when every allocation succeeds, the notification (NULL payload as `""`) is appended at the tail; otherwise the queue is unchanged |
| Notifications.NotificationQueue.Link | src/pg_notification.c:47-55 | the node is linked after the tail, or becomes head and tail of an empty queue |
| Notifications.NotificationQueue.Poll | src/pg_notification.c:71-117 | the deliveries of `ProcessNotifyInterrupt` are queued first; then, with q the old contents plus the kept deliveries: q empty gives NULL and an empty queue; otherwise exactly q's head is removed, the tail becomes NULL exactly when q had one element, the head comes back unchanged unless the record allocation fails ("Out of memory"), and an engine error only sets the message |
| Notifications.NotificationQueue.PollQueued | src/pg_notification.c:81-117 | after the hook: an engine error only sets the message; an empty queue gives NULL; otherwise exactly the head is unlinked, returned unless the record allocation fails, which sets "Out of memory" |
| Notifications.NotificationQueue.Deliver | src/pg_notification.c:77-80 | each notification handed to the hook is captured in order: the queue becomes its old contents plus the kept deliveries |
| Notifications.NotificationQueue.TakeHead | src/pg_notification.c:93-114 | the head is unlinked whether or not the record allocation succeeds; the tail becomes NULL exactly when the queue empties; the record holds the head's values |
| Notifications.CapturedAll | src/pg_notification.c:25-56 | a run of captures adds at most one notification per delivery |
| Notifications.CapturedAllKeepsEvery | src/pg_notification.c:25-56 | when every allocation succeeds, every delivery is queued in order, a NULL payload as `""` |
| Notifications.CapturedAllDropsFailed | src/pg_notification.c:30-45 | a delivery whose node or string allocation fails adds nothing |
| Notifications.NotificationQueue.Reset | src/pg_notification.c:139-149 | every node is dropped and both ends are NULL |
| Notifications.PollUntilNull | src/pg_notification.c:71-117 | calling poll until it returns NULL returns the queue's contents in order and leaves the queue empty with both ends NULL |
| Notifications.CaptureThenDrain | src/pg_notification.c:25-117 | when every allocation succeeds, the hook captures xs and poll is called until NULL: the polls return the notifications already queued and then xs, in capture order, and the queue ends empty |
| Notifications.FreeNotification | src/pg_notification.c:125-136 | NULL frees nothing; channel and payload are freed exactly when non-NULL; nothing is freed twice |
| Notifications.FreePolledReleasesAll | src/pg_notification.c:100-106 | freeing a polled notification releases both strings and the record |
| AtExit.Reversed | src/pgembedded.c:69-72 | the reversal of a sequence, element by element |
| AtExit.ReversedAppend | src/pgembedded.c:61-74 | the handler registered last runs first |
| AtExit.ReversedTwice | src/pgembedded.c:69-72 | reversing twice is the identity |
| AtExit.AtExitStack.constructor | src/pgembedded.c:56-57 | no handler is registered |
| AtExit.AtExitStack.Register | src/pgembedded.c:61-66 | with 32 handlers held: -1 and no change; otherwise the handler is appended and 0 returned |
| AtExit.AtExitStack.Execute | src/pgembedded.c:68-74 | the handlers are called newest first and the count becomes 0 |
| QueryResult.WellFormed | src/pgembedded.c:409-434 | every tuple has one value per attribute |
| QueryResult.CellOf | src/pgembedded.c:425-433 | a cell is NULL exactly when the engine's value is NULL or its `strdup` failed, and otherwise holds the value's text |
| QueryResult.NameOf | src/pgembedded.c:392-398 | a column name is NULL exactly when its `strdup` failed, and otherwise is the attribute's name |
| QueryResult.StopOf | src/pgembedded.c:409-435 | the copy stops at the first failing row allocation or raising conversion, inside the table |
| QueryResult.PgResult.constructor | src/pgembedded.c:469-476 | a zeroed result: status, rows and cols 0, both arrays NULL |
| QueryResult.PgResult.CopyTuptable | src/pgembedded.c:376-438 | names, then rows, copied in row-major order until the first failure; the outcome is 0, out of memory or the raise; the arrays equal CopiedView, each name or cell NULL where the engine value is NULL or its `strdup` failed |
| QueryResult.CopiedView | src/pgembedded.c:385-435 | the name array exists exactly when its allocation succeeded, the row array exactly when both did, with one entry per attribute and per row |
| QueryResult.CopyRows | src/pgembedded.c:408-435 | the row loop leaves every slot as SlotAfter says, each cell NULL where the engine value is NULL or its `strdup` failed, and reports where it stopped |
| QueryResult.NamesFreed | src/pgembedded.c:583-591 | the non-NULL names, each once |
| QueryResult.CellsFreed | src/pgembedded.c:600-604 | the non-NULL cells of a row, each once; undefined exactly when an indeterminate cell is read |
| QueryResult.RowsFreedDefined | src/pgembedded.c:594-609 | the row part is defined exactly when no indeterminate slot is read |
| QueryResult.RowsFreedExactly | src/pgembedded.c:594-609 | every non-NULL row and each of its non-NULL cells are freed exactly once |
| QueryResult.NamesPartExactly | src/pgembedded.c:583-591 | exactly the owned names and the name array, each once |
| QueryResult.ValuesPartExactly | src/pgembedded.c:594-609 | exactly the owned rows, cells and row array, each once |
| QueryResult.FreeReleasesOwnedOnce | src/pgembedded.c:573-612 | on a free-safe result, exactly the owned blocks are freed, each once, whatever part of the matrix was built |
| QueryResult.FreeUnsafeIsUndefined | src/pgembedded.c:594-609 | a free that meets an indeterminate slot is undefined |
| QueryResult.FreeSpec | src/pgembedded.c:573-612 | the free is defined exactly when no indeterminate slot is reachable, and then ends with the record itself |
| QueryResult.FreeResult | src/pgembedded.c:573-612 | NULL frees nothing; otherwise the loops free what FreeSpec lists |
| QueryResult.CompleteCopyMirrorsEngine | src/pgembedded.c:392-434 | after a complete copy every name is NULL exactly when its `strdup` failed and otherwise the attribute's name, and every cell is NULL exactly when the engine's value is NULL or its `strdup` failed, and otherwise holds its text |
| QueryResult.MallocCopyLeavesGarbage | src/pgembedded.c:401-418 | as written: a failed first row allocation leaves the second row pointer indeterminate, and the free reads it |
| QueryResult.ZeroedCopyIsFreeSafe | src/pgembedded.c:401-418 | with cleared row and cell arrays, every copy however it stops can be freed |
| Reset.ProcessGlobals.ResetState | src/pg_reset.c:30-98 | every global gets its fixed pristine value, independent of the old state, so a second reset changes nothing; the queue is empty with both ends NULL; the thirteen subsystem resets are requested in their order |
| Reset.ProcessGlobals.LeaveInit | src/pgembedded.c:295-298 | `NormalProcessing` and `DestNone` are written only when the initialisation got that far; nothing else changes |
| Embedded.InitSteps | src/pgembedded.c:155-327 | 30 steps with system table modifications and 29 without |
| Embedded.CompletedSteps | src/pgembedded.c:149-342 | all steps complete unless a fallible step fails, and then exactly those before it |
| Embedded.CallsOf | src/pgembedded.c:155-327 | the engine calls among the steps, nothing else |
| Embedded.RunExec | src/pgembedded.c:445-566 | an error leaves no transaction, status -1 and a returned result unless it was freed; without one the transaction state is the caller's and no NULL is written through |
| Embedded.RunInit | src/pgembedded.c:149-345 | the flag is set exactly when every step completed; the calls are those of the completed steps; a failure writes "Initialization failed: " and the error |
| Embedded.InitAppliesPreinitConfig | src/pgembedded.c:195-217 | fsync as true/false and the other two settings as on/off are applied before the configuration files are read |
| Embedded.SystemModsOnlyWhenAsked | src/pgembedded.c:208-211 | `allow_system_table_mods` is set exactly when asked for |
| Embedded.LateInitFailureStaysInDataDir | src/pgembedded.c:221-342 | a failure after the change into the data directory leaves the process there, the cwd saved and the flag false |
| Embedded.RunInImplicitTx | src/pgembedded.c:783-812 | success: a transaction is started and committed exactly when none was open; an error ends with the current transaction aborted |
| Embedded.RaisePoint | src/pgembedded.c:478-546 | the raising step is on the path, and is the faulty call or a failing cell conversion; none when neither is reached |
| Embedded.CallsBeforeCount | src/pgembedded.c:487-545 | each step's call occurs once in the try block exactly when the step is on the path before the raise |
| Embedded.CatchCalls | src/pgembedded.c:557-559 | the pop exactly when the snapshot was pushed, the finish exactly when SPI is connected, and the abort last |
| Embedded.ExecStatementOnce | src/pgembedded.c:510-531 | the header gets the SPI status and row count; rows are copied only for a positive status with a tuple table; a copy out of memory frees the result |
| Embedded.ExecTry | src/pgembedded.c:478-546 | the try block ends as TryEnd says: the raise, both flags, whether the result survives, the message and the calls |
| Embedded.ExecOpen | src/pgembedded.c:487-501 | the implicit start and the snapshot push, with the raise when one occurs there |
| Embedded.ExecStatement | src/pgembedded.c:503-534 | a failed connect gives status -1 and "SPI_connect failed"; otherwise the statement runs connected |
| Embedded.ExecConnected | src/pgembedded.c:510-534 | the statement and the finish, with `spi_connected` set between them |
| Embedded.ExecAfterConnect | src/pgembedded.c:510-545 | the try block after the connect ends as TryEnd says, with the result header as the statement left it |
| Embedded.ExecFinish | src/pgembedded.c:532 | `SPI_finish` raises exactly at its step, leaving SPI connected; otherwise it is recorded and `spi_connected` cleared |
| Embedded.ExecClose | src/pgembedded.c:536-545 | the pop, then commit of a kept result with a non-negative status or else abort, both only for an implicit transaction |
| Embedded.TryMatchesRun | src/pgembedded.c:478-565 | the try block's end determines the whole run: the catch calls follow from the two flags and the result is the one the try block filled |
| Embedded.NormalExecTransaction | src/pgembedded.c:487-545 | without an error, a transaction is started exactly when none was open and then committed or aborted as the result says; an explicit transaction stays open, neither committed nor aborted |
| Embedded.FailedExecAborts | src/pgembedded.c:547-565 | an error ends with the current transaction aborted (an explicit one too), status -1 and "Query failed: "; the result is returned, never NULL, unless the copy had already freed it |
| Embedded.SnapshotPoppedUnlessPopRaises | src/pgembedded.c:500-537 | the pushed snapshot is popped exactly once, unless the pop itself raises |
| Embedded.SpiFinishedUnlessFinishRaises | src/pgembedded.c:503-558 | a successful connect is finished exactly once; a failed connect never is |
| Embedded.ExecCallCounts | src/pgembedded.c:547-559 | a call's count is its try-block count plus its catch-block count; the catch block pops and finishes at most once |
| Embedded.CopyOnlyForRows | src/pgembedded.c:520-531 | rows are copied only for a positive status with a tuple table, and `cols` is then the descriptor's width |
| Embedded.Session.constructor | src/pgembedded.c:77-90 | not initialised, no saved cwd, default settings, no handlers, empty queue, pristine globals |
| Embedded.Session.SetConfig | src/pgembedded.c:736-745 | NULL changes nothing; otherwise the three settings are replaced |
| Embedded.Session.Init | src/pgembedded.c:133-147 | already initialised: 0 and nothing else; a NULL argument: -1 before any engine call; otherwise the state follows RunInit |
| Embedded.Session.ApplyInit | src/pgembedded.c:149-345 | the flag, log, message, cwd, hook, mode and output destination as the run says |
| Embedded.Session.RecordInit | src/pgembedded.c:162-342 | the flag, log, message, saved cwd, cwd and hook after an initialisation attempt, 0 exactly on success |
| Embedded.Session.Exec | src/pgembedded.c:445-566 | not initialised, NULL query or no memory: NULL with no engine call; otherwise the log, transaction state, message and returned result follow RunExec |
| Embedded.Session.ExecQuery | src/pgembedded.c:469-565 | the zeroed result, the try block and the catch block together realise RunExec |
| Embedded.Session.ApplyExec | src/pgembedded.c:547-565 | the catch block writes the message, makes its calls, leaves no transaction and writes status -1 through the result pointer |
| Embedded.ConnectedFlags | src/pgembedded.c:510-532 | `spi_connected` is set before `SPI_execute`; when the statement or its copy raised, the try block ends there with the flag still set; otherwise `SPI_finish` runs and the flag is cleared, the result kept exactly when its copy did not run out of memory |
| Embedded.Session.Begin | src/pgembedded.c:619-653 | fails when not initialised or in a transaction; otherwise starts one, or aborts and reports "BEGIN failed: " |
| Embedded.Session.Commit | src/pgembedded.c:660-694 | fails when not initialised or not in a transaction; otherwise commits, or aborts and reports "COMMIT failed: " |
| Embedded.Session.Rollback | src/pgembedded.c:701-727 | "Not in transaction" when not initialised or not in a transaction; otherwise aborts, discards an abort error and returns 0 |
| Embedded.Session.InImplicitTx | src/pgembedded.c:783-812 | the statement runs as RunInImplicitTx says, message untouched |
| Embedded.Session.Listen | src/pgembedded.c:768-815 | a NULL or empty channel is refused before any engine call; an error reports "LISTEN failed: "; the cwd, saved cwd and hook are unchanged |
| Embedded.Session.Unlisten | src/pgembedded.c:824-872 | NULL selects unlisten-all; an empty name is passed through; an error reports "UNLISTEN failed: "; the cwd, saved cwd and hook are unchanged |
| Embedded.Session.Notify | src/pgembedded.c:880-927 | a NULL or empty channel is refused; a NULL payload is sent as `""`; an error reports "NOTIFY failed: "; the cwd, saved cwd and hook are unchanged |
| Embedded.Session.InitdbInProcess | src/pgembedded.c:100-125 | a NULL argument: -1 and nothing reset; otherwise the globals are reset and the queue drained, then initdb runs, and a non-zero result becomes -1 with "initdb failed" |
| Embedded.Session.Shutdown | src/pgembedded.c:934-972 | not initialised: nothing; otherwise the handlers run newest first, the saved cwd is restored only if one was captured and `chdir` succeeds, and the flag is cleared; the saved cwd, hook, message and settings are unchanged |
| Initdb.StartInitdb | src/initdb_simple.c:341-363 | a NULL data directory or user name refuses; an existing `PG_VERSION` returns 0 with nothing created; encoding defaults to `UTF8` and locale to `C` |
| Initdb.DirPlanParentsFirst | src/initdb_simple.c:52-75 | every entry's parent is created before it: `pg_wal` before `pg_wal/archive_status`, and so on |
| Initdb.Mkdir | src/initdb_simple.c:106-132 | a `mkdir` fails for a missing parent only when the parent was not made |
| Initdb.RunPlan | src/initdb_simple.c:98-135 | the plan stops at the first failing `mkdir`; without a failure every path is created, in order |
| Initdb.ReadyPlanHasParents | src/initdb_simple.c:116-135 | with parents ready, no `mkdir` fails for a missing parent |
| Initdb.DirPlanNeverLacksParent | src/initdb_simple.c:52-75 | the fixed plan never fails for want of a parent |
| Initdb.CreateSubdirectories | src/initdb_simple.c:98-135 | the loop creates `pg_wal`, then the table entries, as RunPlan says |
| Initdb.TokenAt | src/initdb_simple.c:444-494 | the first token in the fixed order that prefixes the rest, with a non-empty length |
| Initdb.Substitute | src/initdb_simple.c:442-500 | a character that does not start a token is copied as it is |
| Initdb.NextPiece | src/initdb_simple.c:444-498 | one scanner turn consumes a token or one character and emits its share of Substitute |
| Initdb.SubstituteLine | src/initdb_simple.c:442-500 | the scanner's output is Substitute of the line |
| Initdb.SubstituteFile | src/initdb_simple.c:435-503 | one output line per input line, each substituted |
| Initdb.TokenFreeLineUnchanged | src/initdb_simple.c:495-498 | a line with no token is copied unchanged |
| Initdb.TokenReplaced | src/initdb_simple.c:444-498 | each of the ten tokens at the start of the rest of a line is replaced by its value, and scanning resumes after the token without rescanning the value |
| Initdb.UsernameNotRescanned | src/initdb_simple.c:459-463 | `POSTGRES` becomes the user name, which is not scanned again |
| Initdb.AlignmentLetter | src/initdb_simple.c:454-458 | `ALIGNOF_POINTER` becomes `i` for 4-byte pointers and `d` otherwise |
| Initdb.CreatedbOptions | src/initdb_simple.c:174-215 | owner, template1, libc, lc_collate, lc_ctype first, `strategy=file_copy` last, and one more option for each of `is_template`, `allow_connections=false` and a valid `oid` |
| Initdb.CreatedbOptionFlags | src/initdb_simple.c:192-211 | `is_template`, `allow_connections=false` and `oid` are in the list exactly when the database is a template, refuses connections, and has a valid OID |
| Initdb.CreateDatabaseDirect | src/initdb_simple.c:143-263 | start, then createdb with the option list, recorded only when it returned; 0 exactly without a raise, and then commit and the comment; otherwise abort last and -1 |
| Initdb.Template0Options | src/initdb_simple.c:747 | template0: oid 4, a template, connections refused, as an exact list |
| Initdb.PostgresOptions | src/initdb_simple.c:754-755 | postgres: oid 5, not a template, connections allowed, as an exact list |
| Initdb.ScriptsRcFatal | src/initdb_simple.c:657-679 | the loop fails exactly when some script's buffer or result is NULL |
| Initdb.ScriptsRc | src/initdb_simple.c:657-679 | the loop's result is 0 or -1 |
| Initdb.RunScripts | src/initdb_simple.c:632-692 | -1 exactly at a fatal script; every script before it that cannot be opened or returns a negative status draws a warning and the loop goes on |
| Initdb.AlreadyInitializedCreatesNothing | src/initdb_simple.c:348-357 | an initialised directory returns 0 with nothing created and no script run |
| Initdb.InitdbMain | src/initdb_simple.c:333-772 | initdb returns 0 or -1 or exits with 1; a session is left open only after a fatal script; databases are created only after the scripts and the second initialisation; an exit happens before any script |
| Initdb.BkiAndReinitStages | src/initdb_simple.c:415-738 | the BKI values are recorded only once both BKI files opened; the second session starts only after the scripts, on the data directory resolved against the caller's directory |
| Initdb.CommentSql | src/initdb_simple.c:239-240 | the statement is `COMMENT ON DATABASE <name> IS '` followed by the comment, closed by `';` |
| Initdb.ParentDir | src/initdb_simple.c:721-729 | the directory `chdir("..")` reaches is never empty: the root, or a proper prefix of the directory it started from |
| Initdb.AbsDataDirAsWritten | src/initdb_simple.c:712-731 | as written: an absolute data directory is kept; a relative one is appended to a longer path that ends with it; from an absolute directory the result is absolute |
| Initdb.AbsDataDir | src/initdb_simple.c:710-739 | a relative data directory is resolved against the caller's directory, an absolute one kept |
| Initdb.AbsDataDirIsAbsolute | src/initdb_simple.c:710-739 | from an absolute caller directory the resolved path is absolute and starts with that directory |
| Initdb.DropLastComponentOf | src/initdb_simple.c:721-730 | dropping the last component of `parent/name` gives `parent` |
| Initdb.AbsDataDirAsWrittenMisses | src/initdb_simple.c:712-730 | as written: below the top directory, the path built after `chdir("..")` is a sibling of the caller's directory, not the data directory |
| Initdb.SuccessfulInitdb | src/initdb_simple.c:333-772 | 0 exactly when every stage succeeds; then every subdirectory is created, the BKI file uses the user name and locale (or their defaults), the second session gets the resolved data directory, and template0 then postgres are created with their options |
| Initdb.Template0First | src/initdb_simple.c:746-759 | postgres is created only after template0 was |
| Initdb.FatalScriptLeavesSessionOpen | src/initdb_simple.c:657-679 | a fatal script returns -1 without shutting down the embedded session |

## Left out

- **Engine internals** are outcome parameters, as described above. This
  covers `InitPostgres`, SPI execution, the transaction manager,
  `Async_*`, `ProcessNotifyInterrupt`, `createdb`, `BootstrapModeMain`,
  `shmem_exit` and the thirteen `Reset*State` calls.
- **File and process I/O**: `mkdir`, `fopen`/`fread`/`fsync`,
  `fork`/`waitpid`, `getcwd`/`chdir`, `setenv`, signals and all console
  output. These are outcome parameters or are left out.
- **`embedded_AllocateFile`**: the `fmemopen`/`AllocateFile` call is I/O.
  The lookup it uses is modelled.
- **`pg_embedded_error_message`**: a plain accessor of `errorMessage`.
- **The getcwd failure in `pg_embedded_init_internal`**: it re-throws with
  no current error. The model treats it as an ordinary failing step.
- **Process id and start time** set at init: clock and process queries.
- **Raises inside a catch block** (a raising abort or finish during the
  error path) are not modelled, apart from the abort raise that
  `pg_embedded_rollback` discards.
- **The fixed 8192-byte BKI line and output buffers.** A line longer than
  `fgets` reads is split into pieces, and substitution can overflow the
  output buffer. The model substitutes whole lines with no bound.
- **`pg_char_to_encoding`, `NAMEDATALEN` and the pointer size** are
  parameters of the substitution.
- **The directory calls for the absolute data-directory path**: whether
  `getcwd` and `chdir` succeed is an outcome. The path itself is the
  corrected one (see Findings).
- **Session effects of initdb's nested sessions.** The sessions that
  `pg_embedded_initdb_main` opens and shuts down are outcomes of
  `Initdb.InitdbMain`. `Embedded.Session.InitdbInProcess` does not apply
  their effects to the session's own fields.
- **The comment statement in `create_database_direct`**: only whether it
  is issued is modelled. Its quoting and result are not.
- **`src/pg_result.c`**: backend tuple deforming and type output. Its
  accessors use fields `pg_result` does not have.
- **Library and handle lifetimes**: handles and library records are never
  freed, and the model does not track their memory.
- Initdb.CreatedbOptions: does not state that no `encoding` option is
  present. The exact lists in `Initdb.Template0Options` and
  `Initdb.PostgresOptions` show it for the two calls initdb makes.
- Initdb.InitdbMain: takes the directory plan as a parameter. The
  source always uses `Initdb.DirPlan`, and
  `Embedded.Session.InitdbInProcess` passes that. The data directory of
  the second session is resolved against the caller's directory, not as
  written (see Findings). The script outcomes are a list of any length;
  the source always runs the four scripts whose paths it builds from
  `getcwd` (src/initdb_simple.c:605-614), and the properties proved hold
  for every length.
- Embedded.Session.Exec and Embedded.Session.ExecQuery: the copy
  uses the corrected allocation (see Findings). With the code as written,
  a failed row allocation leaves later rows indeterminate, and
  `QueryResult.MallocCopyLeavesGarbage` shows it.
- **The NULL write in the exec catch block.** The copy runs out of memory,
  frees the result and sets it to NULL. If a later call of the same try
  block then raises, the catch block writes `result->status` through NULL.
  The model reports this as `NullDereference` and does not go further.

## Findings

| source | as written | input that shows it | evidently intended | confidence | as-written member | corrected member |
|---|---|---|---|---|---|---|
| src/pgembedded.c:401-418 | `copy_tuptable` allocates the row-pointer array with `malloc`. When a row allocation fails, it returns with the later row pointers never written, and `pg_embedded_exec` then calls `pg_embedded_free_result`, which reads and frees them (src/pgembedded.c:594-607). | A result of two rows and one column, where the allocation of row 0 fails: slot 0 is NULL and slot 1 is indeterminate. | Clear the row array and each row (`calloc`), so that a partly built matrix can always be freed. | not executed | QueryResult.MallocCopyLeavesGarbage | QueryResult.ZeroedCopyIsFreeSafe |
| src/initdb_simple.c:712-730 | For a relative data directory, initdb calls `chdir("..")` and appends the data directory to the result, assuming it is still inside the data directory. `pg_embedded_shutdown` has already restored the caller's directory (src/pgembedded.c:963-968). | Run from `/home/u` with data directory `pg_data`: the second session is started on `/home/pg_data` instead of `/home/u/pg_data`. | Resolve the relative data directory against the current directory, with no `chdir("..")`. | not executed | Initdb.AbsDataDirAsWrittenMisses | Initdb.AbsDataDirIsAbsolute |
