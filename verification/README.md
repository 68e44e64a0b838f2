# Verification model of Interest Growth's execution core and maintenance layer

This project models the stateful protocols of the repository's native execution core, maintenance and
device-session layers in Dafny and proves what they keep over whole runs. Nothing was executed: every
statement below is a theorem about the model, and every model member cites the source it follows.

| files | what they model |
|---|---|
| `grants.dfy`, `history.dfy`, `store.dfy` | tool grants and their re-check at execution; the message history and its tool-call discipline; checkpoint rows, compare-and-swap, event log |
| `tutor.dfy` | one tutor run as a step machine: its row, its log, and any number of executor loops, cancel callers and resume callers, each store call one atomic step |
| `tutor_safety.dfy`, `tutor_runs.dfy` | the invariants of single steps (ownership, text, history, grants), and the theorems over every schedule |
| `tutor_loop.dfy` | `_run_loop`, `_call_round` and `_fail` with their nested loops and locals, the rows and events each part leaves, each atomic step proved to be the machine's, while other actors act in between |
| `tutor_routes.dfy` | the machine driven through a round by a stream and by `complete` |
| `streaming.dfy` | streamed tool-call assembly, the continuation loop of `complete`, and the two routes through `_call_round` |
| `gate.dfy`, `spans.dfy` | the re-entrant reader/writer gate; whole maintenance spans over many processes, each with the gate of its process and a file lock on a handle of its own |
| `backup.dfy`, `restore.dfy` | uploads, deletes and backups; the restore switch-over with a fault at any operation |
| `tokens.dfy`, `limiter.dfy` | refresh-token rotation and revocation; the fixed-window rate limiter |
| `chunker.dfy`, `index_cache.dfy`, `topk.dfy` | the overlapping chunker; the fingerprint-keyed index cache; the merge of per-base top-k lists |
| `plugins.dfy` | the plugin lifecycle and its dependency closure |
| `solve.dfy`, `research.dfy` | the two agent loops whose queues the model's answers replace or extend |
| `options.dfy` | `Option` and `Result` |

Code that only computes is modelled as functions. Objects and loops that change state are classes and
methods with loops, proved against those functions; races are step machines, with lemmas over every
sequence of steps. In `tutor_loop.dfy` the imperative loop and the step machine meet: `RunSegment` runs
one and ends in a world the other reaches.

## Hypotheses

- Model answers, tool results, callers' inputs and schedules are arbitrary. Message contents and tool arguments are opaque.
- `append_event` never fails; an event log write is one atomic step.
- Stale-run recovery runs only while the process starts, with no loop alive (bundle.py:48 in the execution core). `RecoveryBesideALiveLoop` shows why.
- SHA-256 and the JSON encoding of a key are injective; newly issued ids, tokens and device ids are new.
- Reads of the token tables are separate steps; a write transaction, from its first statement to its commit, is one.
- Spans end in LIFO order (`with` blocks), and a thread acts in its innermost span only. In `backup.dfy` a span is one lock: exclusive excludes all, shared excludes exclusive (`ExclusiveSpanIsAlone` in `spans.dfy` is what that rests on).
- A file lock is granted to a handle when no other handle holds it in a conflicting mode, whoever owns the handles; converting it may give up the old mode first. Asking for it fails only if it is refused and a timeout was given and has passed.
- The registry of tools and capabilities is the same before and after a process restart. (A redeploy that unregisters `ask_user` while a run waits could empty the intersection at tutor.py:369.)
- A file unlinked while an upload writes it is written where nobody finds it. Uploads under one key that overlap write the same bytes (only exports share keys); of others the file could become a mixture.
- The rate limiter counts the calls of one key in the order of their times. (The clock is monotonic, but it is read before the lock is taken, remote_auth.py:215-216.)
- No `.pre-restore` copy with the same stamp exists before a restore; removing a tree removes all of it.
- Each native search returns its own k best hits, by descending score.

## Where the code differs from what it says

The model follows the code.

- An override `max_stream_continuations` that `int` cannot parse is read before the `try` of `_run_loop` (tutor.py:199-204). The exception escapes and leaves the run RUNNING. `UnparsableOverrideAbandonsTheRun` and `RunSegment` show that exactly these inputs do it.
- When the checks after a restore fail, the error says that the data was rolled back (backup_restore.py:338-342); nothing is. The live paths hold the bundle then, so they are as before if and only if they held the bundle before, and the old data is retained next to them (`RestoreBackup`).
- In the gate, a shared span that asks for the exclusive one only bumps a counter (maintenance.py:76-78) and excludes nobody; `ExclusionIffOutermostExclusive` gives the exact condition. The file lock of such a span is never granted while the outer one lasts (`NestedBodiesAreShared`).
- The gate is re-entrant, the span is not: a span begun in a body can end if and only if the innermost span around it is shared and it is itself shared or has a timeout (`NestedCanEndIff`), and can be entered if and only if both are shared (`NestedCanEnterIff`). One that cannot end keeps everybody else out of exclusive spans for good (`StuckShutsOut`).
- A timeout on the file lock is not prompt: the clean-up asks for the shared lock without a deadline (maintenance.py:158), so the span gets out exactly when nobody else holds the lock exclusively (`TimedOutGetsOutIff`) and outlasts any holder (`TimedOutOutlastsHolder`).
- A delete unlinks the file under its row's key whoever else counts on it: another row with the key, as repeated exports of one artifact leave, or an export of the key that has been written but not yet committed (`ReexportLosesItsFile`). `UnlinkDanglesIff` and, over whole runs, `NeverDanglesIff` give the exact condition.
- The reference check of a backup looks for files, not for whole files: a rewrite of a referenced file that is cut short goes into the bundle torn (`TornFilePassesTheCheck`); `ReturnedBundleIsClosed` gives the exact condition.
- The cached index is keyed by declared source fingerprints, so a change of the text behind a declared fingerprint is served stale. `FreshIff`, and for what `_built` returns the contract of `GetBuilt`, give the exact condition.
- Text that is neither `auto` nor `answer`, without tool calls, is shown by the stream route and suppressed by the direct one. `RoutesAgreeIff` gives the exact condition under which the routes agree.
- `install_defaults` enables default plugins without looking at their requirements' records. `DefaultsKeepClosureIff` gives the exact condition.
- A completed research block carries the error type `missing_summary` (research.py:152-155).
- The limiter admits fewer calls in a window-long interval than twice the limit: at most 2N - 1.

## Model

| member | source | states |
|---|---|---|
| TutorRuns.AnswerTextIsWhatWasShown | packages/native-execution-core/interest_growth_native/tutor.py:148-250 | after every schedule the persisted answer is a prefix of the concatenated `answer_delta` texts, and equals it whenever the run waits or is completed, across wait/resume segments and the fallback to `complete` |
| TutorRuns.TerminalStateIsFinal | packages/native-execution-core/interest_growth_native/tutor.py:116-146 | a terminal row is never rewritten; at most one `done` is logged and it names the row's state; a cancelled run never gets a `result` |
| TutorRuns.HistoryIsAppendOnly | packages/native-execution-core/interest_growth_native/tutor.py:252-308 | persisted histories only grow by appending and keep the batch discipline; a waiting run owes exactly the pending `ask_user`, a completed one nothing |
| TutorRuns.ResumeAnswersThePendingCall | packages/native-execution-core/interest_growth_native/tutor.py:361-388 | a step that changes the row of a waiting run is a cancel, which leaves the history as it is, or a resume that appends exactly one tool message, the answer under the pending call's id |
| TutorRuns.ResumedHistory | packages/native-execution-core/interest_growth_native/tutor.py:376-388 | the message a resume appends carries the id the call was asked with, and settles all debts |
| TutorRuns.GrantsOnlyShrink | packages/native-execution-core/interest_growth_native/tutor.py:367-369 | along any chain of segments the grant only shrinks, and stays inside the grants computed at the start and at every resume |
| TutorRuns.ExecutedWasGranted | packages/native-execution-core/interest_growth_native/tutor.py:263-290 | every tool whose handler started was in the grant of every segment up to then and passed the current capability, permission and risk checks |
| TutorRuns.ResumeNeverFallsBack | packages/native-execution-core/interest_growth_native/tutor.py:199 | a resumed loop about to enter holds a grant with `ask_user`, so the fallback to a fresh one cannot fire |
| TutorRuns.ResumedGrant | packages/native-execution-core/interest_growth_native/tutor.py:367-369 | the intersection of the stored and the current grant always holds `ask_user`, so the fallback to a fresh grant cannot fire |
| TutorRuns.SegmentsAreBounded | packages/native-execution-core/interest_growth_native/tutor.py:197-312 | a segment makes at most `max_tool_rounds + 1` rounds; a loop that has returned does not leave the run it holds RUNNING; a loop's compare-and-swap is refused exactly if the run was cancelled |
| TutorRuns.UnparsableOverrideAbandonsTheRun | packages/native-execution-core/interest_growth_native/tutor.py:199-204 | from a fresh run the loop crashes before its error handler, leaving the run RUNNING, if and only if the continuation override does not parse |
| TutorRuns.RecoveryBesideALiveLoop | packages/native-execution-core/interest_growth_native/execution_store.py:346-372 | recovery under a loop about to complete makes it log `result` and `done: completed` for a row that says ERROR |
| TutorRuns.CancelCancelsIff | packages/native-execution-core/interest_growth_native/tutor.py:400-410 | in every reachable world a caller of `cancel` that has read a record moves the row to CANCELLED, one version on, text and history kept, if and only if the row is still that record; else it changes nothing |
| TutorRuns.CancelAnnounces | packages/native-execution-core/interest_growth_native/tutor.py:408-409 | having cancelled it logs exactly `run_cancelled` and then `done: cancelled`, whatever the others do in between |
| TutorRuns.CancelAlone | packages/native-execution-core/interest_growth_native/tutor.py:400-410 | a cancel nobody interferes with cancels and announces exactly the runs that are RUNNING or WAITING, and leaves row and log of any other as they are |
| TutorRuns.ResumeResumesIff | packages/native-execution-core/interest_growth_native/tutor.py:361-398 | in every reachable world a caller of `resume` that has read a record resumes the run if and only if the row is still that record and a grant can be computed; what row, loop, context and grant are then |
| TutorRuns.ResumeAlone | packages/native-execution-core/interest_growth_native/tutor.py:350-398 | a resume nobody interferes with resumes exactly the runs that wait, if their capability is still available and a grant can be computed |
| TutorRuns.RestartFailsSilently | packages/native-execution-core/interest_growth_native/execution_store.py:354-372 | a restart moves a RUNNING run to ERROR, text and history kept, and after that no event is ever logged for it; any other run it leaves alone |
| TutorRuns.StepKeeps | packages/native-execution-core/interest_growth_native/tutor.py:197-410 | every step of every actor keeps the whole invariant and undoes nothing that was persisted or logged |
| TutorRuns.Reachable | packages/native-execution-core/interest_growth_native/tutor.py:314-327 | the invariant holds after every schedule from the commit of `create_run` |
| TutorSafety.OwnershipStep | packages/native-execution-core/interest_growth_native/tutor.py:197-312 | a loop that holds its run writes the row only while it is RUNNING and unchanged since its load, and lets go only of a run that is no longer RUNNING |
| TutorSafety.TextStep | packages/native-execution-core/interest_growth_native/tutor.py:148-250 | a loop step keeps row text, accumulated text and shown text in agreement |
| TutorSafety.HistoryStep | packages/native-execution-core/interest_growth_native/tutor.py:252-308 | a loop step keeps what the history in memory and the persisted one owe at each program point |
| TutorSafety.GrantStep | packages/native-execution-core/interest_growth_native/tutor.py:263-290 | a loop step neither widens the grant nor starts a tool outside it |
| TutorLoop.RunSegment | packages/native-execution-core/interest_growth_native/tutor.py:197-312 | a whole segment terminates beside any schedule of others, in a world the protocol reaches; it returns with the run it holds not RUNNING unless the override does not parse, and then it crashes |
| TutorLoop.TurnLoop.Turn | packages/native-execution-core/interest_growth_native/tutor.py:197-312 | beside any schedule of others the loop returns, after at most `max_tool_rounds + 1` rounds and the continuations allowed, exactly when the override parses. Something went wrong only if the last round raised, a call in it did not bind, was not granted, not allowed or failed, the rounds were used up, or the run was cancelled; then it was cancelled or the loop's last events are the error and `done: error`. Otherwise the run was cancelled, or the last events are `result` and `done: completed`, or the question of a wait |
| TutorLoop.TurnLoop.Commit | packages/native-execution-core/interest_growth_native/tutor.py:197-312 | an atomic step of the imperative loop is the machine's step on the row as found, followed by the others' steps; it records the event and the row written, and a row it made terminal stays |
| TutorLoop.TurnLoop.CallRound | packages/native-execution-core/interest_growth_native/tutor.py:148-195 | a round that does not raise yields chunks, narration, calls, finish reason and events of exactly the stream route, or of what was streamed before a signature mismatch followed by the direct route; or it was abandoned, empty, for a cancelled run; a round that raises wrote no row |
| TutorLoop.TurnLoop.AfterRound | packages/native-execution-core/interest_growth_native/tutor.py:216-312 | the answer grows by the round's chunks; a cancelled run gets nothing more; a cut-off answer puts text and prompt into the history and is persisted once; a last answer completes the run; calls enter the history as a batch of which all, or those up to where it stopped, were answered and persisted in order |
| TutorLoop.TurnLoop.RunBatch | packages/native-execution-core/interest_growth_native/tutor.py:261-308 | the calls are answered in order, each result appended under its call's id and persisted in a row of its own; the batch gets through all of them, or stops at the first `ask_user`, at a call that cannot be answered, or at a cancel, and raises for no other reason |
| TutorLoop.TurnLoop.Suspend | packages/native-execution-core/interest_growth_native/tutor.py:270-287 | writes exactly one WAITING row, with the answer so far, the question, the pending call and the history, and then logs the question unless a cancel came in between; or does nothing because the run was cancelled |
| TutorLoop.TurnLoop.Complete | packages/native-execution-core/interest_growth_native/tutor.py:236-250 | writes exactly one COMPLETED row, with answer and history as they stand, and logs `result` and `done: completed`; or does nothing because the run was cancelled |
| TutorLoop.TurnLoop.HandleFailure | packages/native-execution-core/interest_growth_native/tutor.py:131-146 | a run found RUNNING is moved to ERROR and announced, unless it was cancelled meanwhile; one found in ERROR is announced and not rewritten; otherwise nothing is done |
| TutorLoop.FallbackSucceeds | packages/native-execution-core/interest_growth_native/tutor.py:199 | an empty grant at the start of a segment is one that `_granted_tools` can compute |
| Grants.GrantedIsExecutable | packages/native-execution-core/interest_growth_native/tools.py:21-47 | a granted tool other than `ask_user` passes every check made at execution, in its own context and in a resumed child of it |
| Grants.AskUserGranted | packages/native-execution-core/interest_growth_native/tutor.py:86-91 | a grant holds `ask_user` exactly when such a tool is registered |
| Grants.GrantedIff | packages/native-execution-core/interest_growth_native/tools.py:21-36 | who is granted: `ask_user`, and the tools the selected capability owns or, unless it is exclusive, the baseline lists, if registered, on both allow lists, with all their rights, and for network risk only with an explicit list of enabled tools |
| Grants.GrantRefusedIff | packages/native-execution-core/interest_growth_native/capabilities.py:60-75 | a grant is refused exactly if the selected capability is unknown or not offered by area and installation |
| Grants.ExecutionAllowedIff | packages/native-execution-core/interest_growth_native/tools.py:38-47 | a handler may start exactly if capability, resources and risk its tool demands are each covered by name or by wildcard |
| Grants.ContinuationLimit | packages/native-execution-core/interest_growth_native/tutor.py:204 | two continuations by default, otherwise what the override asks for, from none up to four, and nothing if it does not parse |
| Grants.RoundLimit | packages/native-execution-core/interest_growth_native/tutor.py:53 | `max_tool_rounds`, from one up to thirty-two |
| History.BatchAnswers | packages/native-execution-core/interest_growth_native/tutor.py:252-308 | after a batch's envelope, answers keep the discipline exactly when they name a prefix of the expected calls in order, and the rest is owed |
| Store.StoreRuns | packages/native-execution-core/interest_growth_native/execution_store.py:126-261 | over every sequence of store calls at most one run per (area, session) is active, and a row's version counts the successful writes to it |
| Store.PerformKeepsIndex | apps/api/pg_api/db.py:757-761 | every store call keeps the partial unique index |
| Store.OneWinnerPerVersion | packages/native-execution-core/interest_growth_native/execution_store.py:187-261 | of all callers that read one version of a row at most one writes it; so of concurrent resumes of one wait at most one succeeds |
| Store.FirstResumeWins | packages/native-execution-core/interest_growth_native/execution_store.py:187-229 | the resume of an untouched wait is never refused |
| Store.OneRowAtATime | packages/native-execution-core/interest_growth_native/execution_store.py:187-229 | on an active row the outcome is the compare-and-swap on that row alone |
| Store.TransitionWritesIff | packages/native-execution-core/interest_growth_native/execution_store.py:187-229 | a transition writes exactly if the row is there, in the caller's area, at the version and in a state expected, and, should it become active, is alone in its session; exactly what changes then; and no other row changes |
| Store.SnapshotWritesIff | packages/native-execution-core/interest_growth_native/execution_store.py:231-261 | a snapshot is written exactly to a RUNNING row of the caller's area at the version expected, and only snapshot, text and version change |
| Store.CreateWritesIff | packages/native-execution-core/interest_growth_native/execution_store.py:126-160 | a run is created exactly under a new id in a session without an active one, RUNNING, empty and at version 0 |
| Store.ReplayPages | packages/native-execution-core/interest_growth_native/execution_store.py:282-300 | reading a page and then on from its last sequence number gives what one larger page gives |
| Store.ReplayIsPage | packages/native-execution-core/interest_growth_native/execution_store.py:282-300 | what a page holds: at most `limit` entries, each of this run under its own number behind the cursor, ascending, none left out up to the last one, nor up to the end of the log if there was room |
| Store.ExecutionStore.CreateRun | packages/native-execution-core/interest_growth_native/execution_store.py:126-160 | inserts a RUNNING row of version 0, or reports a busy session and writes nothing |
| Store.ExecutionStore.Load | packages/native-execution-core/interest_growth_native/execution_store.py:162-185 | the row, or why it cannot be read: missing or of another area |
| Store.ExecutionStore.DoTransition | packages/native-execution-core/interest_growth_native/execution_store.py:187-229 | writes exactly when area, version and state match, and says why not otherwise |
| Store.ExecutionStore.DoUpdateSnapshot | packages/native-execution-core/interest_growth_native/execution_store.py:231-261 | writes snapshot and text exactly when the row is RUNNING at the expected version |
| Store.ExecutionStore.AppendEvent | packages/native-execution-core/interest_growth_native/execution_store.py:263-280 | appends one entry, whose sequence number is its place |
| Store.ExecutionStore.Events | packages/native-execution-core/interest_growth_native/execution_store.py:282-300 | the run's events after the cursor, with their numbers, in order and complete, up to the clamped limit (`IsPage`) |
| Store.ExecutionStore.RecoverStaleRunning | packages/native-execution-core/interest_growth_native/execution_store.py:354-372 | moves every RUNNING row to the target, keeps every other row, and refuses other targets |
| Streaming.CallIsItsFragments | packages/native-execution-core/interest_growth_native/llm.py:279-288 | each assembled call is, field by field, the strings of its own fragments joined in arrival order |
| Streaming.InterleavingIsIrrelevant | packages/native-execution-core/interest_growth_native/llm.py:279-288 | streams with the same fragments per index assemble the same calls, however they interleave |
| Streaming.StreamCalls | packages/native-execution-core/interest_growth_native/llm.py:254-302 | one call per index seen, in ascending order of index, each field the strings of its own fragments joined in arrival order |
| Streaming.JoinBoth | packages/native-execution-core/interest_growth_native/llm.py:279-288 | joining keeps the order: the strings of a longer list are those of its first part followed by those of its second |
| Streaming.OfBoth | packages/native-execution-core/interest_growth_native/llm.py:279-288 | a call's own fragments are those with its index, in arrival order |
| Streaming.Complete | packages/native-execution-core/interest_growth_native/llm.py:197-234 | asks again exactly while answers are cut off without calls and the limit allows, and joins all texts |
| Streaming.StreamOfResponse | packages/native-execution-core/interest_growth_native/usage.py:45-58 | what the stream made of a `complete` response accumulates to |
| Streaming.RoutesAgreeIff | packages/native-execution-core/interest_growth_native/tutor.py:154-195 | stream and direct route agree on chunks, narration, calls, finish reason and log exactly when no call is empty and no bare text is marked neither `auto` nor `answer` |
| TutorRoutes.StreamDriven | packages/native-execution-core/interest_growth_native/tutor.py:154-181 | the tutor machine driven by any whole stream ends the round with the chunks, calls and events of the stream route |
| TutorRoutes.RoutesMeetIff | packages/native-execution-core/interest_growth_native/tutor.py:154-195 | a response sent as a stream leaves the machine's loop and log as the response itself does, exactly under the condition of `RoutesAgreeIff` |
| Gate.GateMeaning | apps/api/pg_api/maintenance.py:58-109 | over every run of LIFO spans by any threads, with timeouts: the counters count spans, `_readers` counts the threads whose outermost span is shared, `_writer` says whether one thread's is exclusive, and then no other is inside |
| Gate.ExclusiveExcludes | apps/api/pg_api/maintenance.py:58-91 | while a thread's outermost span is exclusive no other thread is inside any span |
| Gate.ExclusionIffOutermostExclusive | apps/api/pg_api/maintenance.py:76-78 | being inside given spans excludes all other threads in every run if and only if the outermost of them is exclusive |
| Gate.AllEndedIsInitial | apps/api/pg_api/maintenance.py:94-109 | when all spans have ended both fields have their initial values |
| Gate.WhoMustWait | apps/api/pg_api/maintenance.py:58-91 | exactly who is made to wait: never a thread already inside, an outermost shared span for a thread that entered exclusively, an outermost exclusive one for anybody inside |
| Gate.NonLifoReleaseCorrupts | apps/api/pg_api/maintenance.py:94-109 | in every run: if a thread ended an exclusive span before the shared one inside it, the count of readers would be -1, the writer's mark would stay, and every thread in no span would be blocked |
| Gate.ReaderWriterGate.TryAcquire | apps/api/pg_api/maintenance.py:58-91 | grants exactly when not blocked, with the counters of the run's next state |
| Gate.ReaderWriterGate.Acquire | apps/api/pg_api/maintenance.py:58-91 | the wait loop, other threads running in between, ends with the span entered or with a timeout and nothing held; it never waits for a gate that is free for it |
| Gate.ReaderWriterGate.Release | apps/api/pg_api/maintenance.py:94-109 | ends the innermost span |
| Spans.ExclusiveSpanIsAlone | apps/api/pg_api/maintenance.py:140-161 | over every run of any processes and threads, nested or not: in the body of an exclusive span nobody else is in the body of any span |
| Spans.Reachable | apps/api/pg_api/maintenance.py:140-161 | in every run each process's gate means what it should of that process's spans, and two handles hold the file lock together only if both hold it shared |
| Spans.AllEnded | apps/api/pg_api/maintenance.py:155-161 | when all spans have ended, no handle holds the file lock and every gate is back at its initial values |
| Spans.FirstSpanEntersIff | apps/api/pg_api/maintenance.py:140-161 | in every run a thread in no span gets into one at once if and only if nobody of its process holds the gate against it and no handle the file lock |
| Spans.LoneSpanPasses | apps/api/pg_api/maintenance.py:140-161 | a span begun while nobody is in any is entered, and left again |
| Spans.NestedBodiesAreShared | apps/api/pg_api/maintenance.py:151-154 | in the body of a nested span all spans of the thread are shared |
| Spans.NestedCanEndIff | apps/api/pg_api/maintenance.py:119-161 | in every run: a span begun in a body has a continuation in which it ends if and only if the innermost span around it is shared, and it is itself shared or was given a timeout |
| Spans.NestedCanEnterIff | apps/api/pg_api/maintenance.py:119-161 | in every run: a span begun in a body has a continuation in which its own body is entered if and only if it and the innermost span around it are shared |
| Spans.NestedIsStuck | apps/api/pg_api/maintenance.py:119-161 | a span begun in an exclusive body, and an exclusive one begun without a timeout in a shared body, is still waiting after every further run |
| Spans.StuckShutsOut | apps/api/pg_api/maintenance.py:119-161 | from then on no other thread of any process gets into the body of an exclusive span, nor into any body if the stuck one is inside an exclusive span |
| Spans.TimedOutGetsOutIff | apps/api/pg_api/maintenance.py:151-161 | a span past its deadline gets out by its own clean-up steps if and only if no other handle holds the file lock exclusively |
| Spans.TimedOutOutlastsHolder | apps/api/pg_api/maintenance.py:151-161 | it is still there after every run in which another thread's exclusive body is not left |
| Backup.ReturnedBundleIsClosed | apps/api/pg_api/backup_restore.py:165-200 | over every interleaving of uploads, cut short or not, deletes, row edits and backups, a returned bundle holds every file its own database references, as it was at the snapshot, and whole if and only if no write of it had been cut short by then |
| Backup.ReferenceCheckNeverFails | apps/api/pg_api/backup_restore.py:165-200 | without deletes the reference check passes whenever the walk is complete, and the bundle is the vaults as they were at the snapshot |
| Backup.SnapshotMoment | apps/api/pg_api/backup_restore.py:165-200 | every backup that copies or has returned was taken, database, vaults and torn files, at one moment of the run, under its lock |
| Backup.NeverDanglesIff | apps/api/pg_api/routes/content.py:196-219 | over every interleaving of uploads, cut short or not, deletes, edits and backups: at no moment, and in no continuation without such an unlink, does a reference dangle, if and only if no unlink hits a file that is then referenced or in an upload that will insert its row |
| Backup.UnlinkDanglesIff | apps/api/pg_api/routes/content.py:214-217 | one unlink, while everything referenced or pending is there: a reference can come to dangle after it if and only if its file is referenced or pending |
| Backup.DeleteDanglesIffShared | apps/api/pg_api/routes/content.py:196-219 | run alone in a quiet system, a delete leaves every referenced file there if and only if no other row has the deleted row's key |
| Backup.ReexportLosesItsFile | apps/api/pg_api/routes/content.py:277-293 | whatever the other rows' keys: a key exported again between a delete's commit and its unlink ends referenced and without its file |
| Backup.TornFilePassesTheCheck | apps/api/pg_api/backup_restore.py:70-89 | a referenced file torn by a rewrite that was cut short goes into a backup that passes the reference check and returns |
| Backup.Reachable | packages/artifacts/pg_artifacts/storage.py:49-64 | over every interleaving: a file is torn only while an upload writes it or after a write of it was cut short, no span overlaps an exclusive one, and what a backup has copied is what was there at its snapshot |
| Backup.CopyDir | apps/api/pg_api/backup_restore.py:106-121 | the result is the destination overlaid with every source file, the source itself if the destination was empty, and the count is the number of files |
| Backup.UploadAlone | packages/artifacts/pg_artifacts/storage.py:59-64 | an upload nobody interferes with leaves exactly its bytes under its key, and then the new row that references it |
| Backup.WriteLeavesBytes | packages/artifacts/pg_artifacts/storage.py:59-64 | whoever else is about, an upload that ends its write leaves its bytes, unless the file was unlinked under it |
| Backup.BundleReferenceCheck | apps/api/pg_api/backup_restore.py:70-89 | reports, in query order, the unmatched references of both tables, and none exactly when all are matched |
| Backup.NothingUnmatched | apps/api/pg_api/backup_restore.py:70-89 | the report is empty exactly when every reference is matched |
| Backup.UnmatchedOfBoth | apps/api/pg_api/backup_restore.py:70-89 | each reference is reported by itself, with its prefix exactly if it is unmatched, and in query order |
| Restore.LivePaths.RestoreBackup | apps/api/pg_api/backup_restore.py:263-348 | with a fault possible at every file operation, and no failure without one: a bundle that fails verification changes nothing; up to the end of the switch the old data is on disk at every moment, live or retained; the checks after it never fail for a missing file of the paths restored to; after failed checks the live paths hold the bundle and the old data is retained, so they are as before if and only if they held the bundle before; from the end of the switch on success leaves exactly the bundle |
| Restore.LivePaths.SwitchPaths | apps/api/pg_api/backup_restore.py:312-333 | database, then both vaults; unless a file operation raises the live paths then hold the bundle and everything old is retained |
| Restore.LivePaths.SwitchVault | apps/api/pg_api/backup_restore.py:319-331 | one vault is replaced, the other and the database are untouched |
| Restore.LivePaths.CopyInto | apps/api/pg_api/backup_restore.py:106-121 | files are copied one by one, each torn before it is whole, without losing old data |
| Restore.BackupThenRestore | apps/api/pg_api/backup_restore.py:145-348 | round trip over every run: a disk that holds a returned bundle is back to the moment of the backup's snapshot, the database row for row, every referenced file as it was, and every file at all if nothing was deleted |
| Restore.ReturnedIsComplete | apps/api/pg_api/backup_restore.py:70-89 | a returned bundle is never refused by the file checks of a restore |
| Restore.RestoreReturned | apps/api/pg_api/backup_restore.py:263-348 | restoring a returned bundle either takes the live paths back to the snapshot, database and vaults, or, if a file operation raised, has not yet lost any old data; with the configured paths it is never refused or failed for a missing file |
| Tokens.OneSuccessorPerToken | apps/api/pg_api/remote_auth.py:414-463 | in every interleaving a refresh token is rotated at most once, into a token of its own |
| Tokens.OneLiveTokenPerChain | apps/api/pg_api/remote_auth.py:127-159 | the rotation chain of a login never holds two unconsumed tokens |
| Tokens.RevokeIsFinal | apps/api/pg_api/remote_auth.py:466-496 | after a device's revoke commits no refresh of it commits and no access token of it authenticates, whatever was in flight or is inserted by a racing login |
| Tokens.RevokeRevokes | apps/api/pg_api/remote_auth.py:478-492 | the write of a revoke is logged, revokes the device, and takes away its unconsumed refresh tokens and its access tokens and nobody else's |
| Tokens.RefreshRotatesIff | apps/api/pg_api/remote_auth.py:435-455 | in every run the write of a refresh rotates its token, within its chain and with the lifetimes configured, if and only if that is unconsumed, unexpired and of a device that is not revoked; else it changes nothing |
| Tokens.LoginAlone | apps/api/pg_api/remote_auth.py:366-400 | a login nobody interferes with logs in an unrevoked device of that name if there is any and a new one otherwise, and starts a chain |
| Tokens.RefreshAlone | apps/api/pg_api/remote_auth.py:414-463 | a refresh nobody interferes with rotates exactly the usable tokens |
| Tokens.RevokeAlone | apps/api/pg_api/remote_auth.py:466-496 | a revoke nobody interferes with leaves a known device revoked and nothing of it usable |
| Tokens.AuthAlone | apps/api/pg_api/remote_auth.py:162-181 | an access token authenticates exactly while its row is there, unexpired, and its device not revoked |
| Tokens.AuthenticatedWasIssued | apps/api/pg_api/remote_auth.py:127-181 | in every interleaving what authenticates for a device is an access token that a login or refresh has issued to it before |
| Tokens.Reachable | apps/api/pg_api/remote_auth.py:127-181 | the invariant of tables, requests in flight and log holds in every interleaving |
| Limiter.AnyInterval | apps/api/pg_api/remote_auth.py:212-225 | for every non-decreasing sequence of call times a closed interval of the window's length sees at most 2N - 1 admissions |
| Limiter.PerWindow | apps/api/pg_api/remote_auth.py:212-225 | at most N admissions per window |
| Limiter.RefusedIffUsedUp | apps/api/pg_api/remote_auth.py:212-225 | a call is refused exactly when its window has admitted N |
| Limiter.LateCallAdmitted | apps/api/pg_api/remote_auth.py:212-225 | a call is more than a window after the start of the current window if and only if it opens the next one, and then, with N >= 1, it is admitted, whatever was refused in between |
| Limiter.PatientCallAdmitted | apps/api/pg_api/remote_auth.py:212-225 | with N >= 1 a call more than a window after the one before it is admitted, however many were refused |
| Limiter.BoundAttained | apps/api/pg_api/remote_auth.py:212-225 | for every limit and window there are calls that fill a window-long interval with 2N - 1 admissions |
| Limiter.RateLimiter.Exceeded | apps/api/pg_api/remote_auth.py:212-225 | one call: its answer and the entry it leaves, other keys untouched |
| Limiter.RateLimiter.Calls | apps/api/pg_api/remote_auth.py:212-225 | from any state the limiter has reached, any calls of any clients are each answered as the lemmas say of all calls so far with the same key; clients do not disturb each other |
| Chunker.Split | packages/native-execution-core/interest_growth_native/knowledge.py:65-95 | the loop terminates for every text, target > 0 and overlap >= 0, and gives the chunks of the normalized text |
| Chunker.NormalForm | packages/native-execution-core/interest_growth_native/knowledge.py:66 | normalized text has no carriage return and no surrounding white space |
| Chunker.NormalizeKeeps | packages/native-execution-core/interest_growth_native/knowledge.py:66 | normalized text is the source with its breaks unified, but for white space at both ends |
| Chunker.BreakBecomesLineFeed | packages/native-execution-core/interest_growth_native/knowledge.py:66 | a carriage return, together with the line feed behind it if there is one, becomes one line feed; what is before and behind is unified by itself |
| Chunker.PlainStays | packages/native-execution-core/interest_growth_native/knowledge.py:66 | text without carriage returns is left as it is |
| Chunker.ChunksAreSlices | packages/native-execution-core/interest_growth_native/knowledge.py:68-93 | every chunk is the slice its offsets claim, numbered in order |
| Chunker.ChunksAdvance | packages/native-execution-core/interest_growth_native/knowledge.py:94-95 | starts advance by the stride, all chunks but the last are full, the last reaches the end |
| Chunker.EveryPositionCovered | packages/native-execution-core/interest_growth_native/knowledge.py:68-95 | every position of the text is inside some chunk |
| Chunker.ChunksShare | packages/native-execution-core/interest_growth_native/knowledge.py:95 | consecutive chunks share exactly the overlap when that is below the target, and target minus stride in general |
| Chunker.RejoinGivesText | packages/native-execution-core/interest_growth_native/knowledge.py:68-95 | dropping what consecutive chunks share and joining gives the text back, for every overlap |
| Chunker.ChunkCount | packages/native-execution-core/interest_growth_native/knowledge.py:68-95 | the number of chunks is 1 + ceil(max(0, n - target) / stride) |
| IndexCache.Index.GetBuilt | packages/native-execution-core/interest_growth_native/knowledge.py:111-129 | the cached generation for the snapshot's key or a fresh build; it is a fresh build of the given snapshot, up to metadata, if and only if what reaches the index is unchanged since the snapshot that started the generation, which for a native engine and sources with different views means that every source kept its content; at most one generation per base and engine, nothing else dropped |
| IndexCache.Index.Invalidate | packages/native-execution-core/interest_growth_native/knowledge.py:180-181 | drops every generation of the base and nothing else |
| IndexCache.SameKeyIff | packages/native-execution-core/interest_growth_native/knowledge.py:14-43 | two snapshots have one key exactly if they are of one base and engine, with one declared fingerprint and configuration, and their sources have, one by one, the same id, file name, place and fingerprint, declared or computed |
| IndexCache.SourceIsChunked | packages/native-execution-core/interest_growth_native/knowledge.py:65-95 | what a source contributes: chunks of 900 characters, each sharing its last 100 with the next, from beginning to end, under the source's file name, offset base and metadata |
| IndexCache.StaleIffContentChanged | packages/native-execution-core/interest_growth_native/knowledge.py:14-43 | under an equal key a source's cached chunks are the fresh ones, up to metadata, if and only if normalized text, offset base and file name are unchanged |
| IndexCache.HashedTextIsFresh | packages/native-execution-core/interest_growth_native/knowledge.py:14-16 | for a source without a declared fingerprint the text cannot go stale |
| IndexCache.DeclaredFingerprintHidesChanges | packages/native-execution-core/interest_growth_native/knowledge.py:14-43 | behind a declared fingerprint every change of text is hidden: same key, different fresh build |
| IndexCache.SameIndexIff | packages/native-execution-core/interest_growth_native/knowledge.py:14-43 | any two snapshots give the same native index, up to metadata, if and only if their sources that have text agree one by one on what reaches the index |
| IndexCache.FreshIff | packages/native-execution-core/interest_growth_native/knowledge.py:14-43 | under one key, for sources with different views, the cached native index is the fresh one, up to metadata, if and only if every source has kept its content |
| IndexCache.FreshIffUnchanged | packages/native-execution-core/interest_growth_native/knowledge.py:111-129 | the same for whatever `_built` returns, exact engines included |
| TopK.MergedTopK | packages/native-execution-core/interest_growth_native/knowledge.py:131-168 | sorting the union of the bases' top-k lists and cutting to k gives a top k of all chunks of all bases |
| TopK.SortIsStable | packages/native-execution-core/interest_growth_native/knowledge.py:131-168 | the sort permutes, descends and keeps equal scores in order |
| TopK.ConcatBoth | packages/native-execution-core/interest_growth_native/knowledge.py:131-168 | the lists are joined in the order of the bases |
| TopK.TotalCounts | packages/native-execution-core/interest_growth_native/knowledge.py:131-168 | every base's hits count as often as they occur |
| TopK.Retrieve | packages/native-execution-core/interest_growth_native/knowledge.py:131-168 | the loop, the sort and the cut return that top k |
| Plugins.ClosureIsKept | packages/plugin-runtime/pg_plugin_runtime/runtime.py:94-221 | every sequence of operations, completed or refused, keeps every enabled plugin's requirements enabled |
| Plugins.InstallIff | packages/plugin-runtime/pg_plugin_runtime/runtime.py:102-115 | an absent plugin of the bundle, and no other, can be installed; then it is there at the bundle's version, and off |
| Plugins.EnableIff | packages/plugin-runtime/pg_plugin_runtime/runtime.py:117-130 | a plugin can be enabled exactly if all it requires is enabled, and then is; otherwise the first requirement that is not is named |
| Plugins.DisableIff | packages/plugin-runtime/pg_plugin_runtime/runtime.py:132-152 | a plugin can be disabled exactly if no enabled plugin requires it, and then is off; otherwise exactly those that do are named |
| Plugins.UninstallIff | packages/plugin-runtime/pg_plugin_runtime/runtime.py:154-169 | a plugin can be uninstalled under the same condition, and then is absent |
| Plugins.UpdateIff | packages/plugin-runtime/pg_plugin_runtime/runtime.py:171-200 | a plugin can be updated exactly if the bundle has another version; then it is at that one, the old one remembered and the flag kept |
| Plugins.RollbackIff | packages/plugin-runtime/pg_plugin_runtime/runtime.py:202-221 | a plugin can be rolled back exactly if a non-empty version is remembered and deployed, and then is at it |
| Plugins.OnlyItsOwnRecord | packages/plugin-runtime/pg_plugin_runtime/runtime.py:94-221 | an operation that does not complete changes nothing, one that does only the record of its plugin |
| Plugins.OperationsBreakNothing | packages/plugin-runtime/pg_plugin_runtime/runtime.py:94-221 | from any state, closed or not: a requirement unmet after any sequence of operations was unmet before it |
| Plugins.AlwaysClosedIffBearable | packages/plugin-runtime/pg_plugin_runtime/runtime.py:52-221 | over every life of operations, redeployed bundles and installed defaults: the enabled plugins are closed at every moment if and only if each bundle, when deployed, asked of the plugins enabled then only what was enabled, and defaults, when installed, only for what was enabled already or with them |
| Plugins.TransitiveRequirements | packages/plugin-runtime/pg_plugin_runtime/runtime.py:94-100 | closure reaches requirements at any depth |
| Plugins.DisabledCycleStays | packages/plugin-runtime/pg_plugin_runtime/runtime.py:117-130 | a dependency cycle with no enabled member stays disabled whatever is done |
| Plugins.UpdateThenRollback | packages/plugin-runtime/pg_plugin_runtime/runtime.py:171-221 | update, any operations but an uninstall of the plugin, redeploy of the old bundle and rollback bring the old version back, with the enabled flag as the operations left it, if and only if the old version is not the empty string |
| Plugins.DefaultsKeepClosureIff | packages/plugin-runtime/pg_plugin_runtime/runtime.py:69-80 | installing defaults keeps closure exactly when every newly enabled plugin's requirements are enabled already or newly enabled |
| Plugins.DefaultsAre | packages/plugin-runtime/pg_plugin_runtime/runtime.py:69-80 | records that are there stay; a plugin without one gets one at its version, on exactly if that is its default |
| Plugins.PluginRuntime.Discover | packages/plugin-runtime/pg_plugin_runtime/runtime.py:52-67 | refuses exactly the bundles with a repeated id, leaving the manifests as they were; adopts any other and names the first manifest with unmet requirements, exactly if there is one |
| Plugins.Collect | packages/plugin-runtime/pg_plugin_runtime/runtime.py:52-61 | the loop over the bundle: a table of the manifests found, or an id found twice |
| Plugins.PluginRuntime.ValidateDependencies | packages/plugin-runtime/pg_plugin_runtime/runtime.py:63-67 | reports the requirements no manifest meets, and nothing exactly if all are met |
| Plugins.PluginRuntime.InstallDefaults | packages/plugin-runtime/pg_plugin_runtime/runtime.py:69-80 | the state `DefaultsKeepClosureIff` speaks of: every plugin without a record gets its default one, the others keep theirs |
| Plugins.PluginRuntime.RunInstall | packages/plugin-runtime/pg_plugin_runtime/runtime.py:102-115 | the record it writes, or the reason why none |
| Plugins.PluginRuntime.RunEnable | packages/plugin-runtime/pg_plugin_runtime/runtime.py:117-130 | enables only over enabled requirements and otherwise names the first that is not |
| Plugins.PluginRuntime.SwitchOff | packages/plugin-runtime/pg_plugin_runtime/runtime.py:139-169 | disables or uninstalls only without enabled dependants and otherwise names them all |
| Plugins.PluginRuntime.RunUpdate | packages/plugin-runtime/pg_plugin_runtime/runtime.py:171-200 | adopts the new version, remembers the old one, keeps the flag |
| Plugins.PluginRuntime.RunRollback | packages/plugin-runtime/pg_plugin_runtime/runtime.py:202-221 | returns to the remembered version if the deployed manifest is that version |
| Solve.SolvePlan | packages/native-execution-core/interest_growth_native/solve.py:43-61 | terminates for every model; completed steps of the plans followed, then one blocked step exactly when `partial`; each recorded step says what its answer said, and every answer that decided no step was no success and led to a revision; replans within the budget; why a partial solution stopped |
| Solve.PartialIffBlocked | packages/native-execution-core/interest_growth_native/solve.py:51-58 | `partial` if and only if not every recorded step is completed, and then only the last is blocked |
| Solve.UnrevisedIsThePlan | packages/native-execution-core/interest_growth_native/solve.py:46-51 | without a revision a solution that is not partial is the given plan, step for step |
| Solve.RevisedAre | packages/native-execution-core/interest_growth_native/solve.py:55-57 | the steps of a revision are exactly its drafts with title and instruction, numbered by their place |
| Solve.RevisedInOrder | packages/native-execution-core/interest_growth_native/solve.py:55-57 | they come in the order of the drafts |
| Solve.BudgetIs | packages/native-execution-core/interest_growth_native/solve.py:45 | the replans asked for, or else the solver's own limit, from none up to three |
| Research.RunConfirmed | packages/native-execution-core/interest_growth_native/research.py:157-171 | researches, first in first out, exactly min(max_queue, confirmed + appended) topics; partial exactly when a block failed or a topic was left over |
| Research.FailedInOrder | packages/native-execution-core/interest_growth_native/research.py:163 | the failed blocks are exactly those not completed, in order |
| Research.NothingProposedTwice | packages/native-execution-core/interest_growth_native/research.py:164-166 | an appended topic has a key, and one that no earlier topic has; appended topics never exceed the limit |
| Research.NothingDroppedWithRoom | packages/native-execution-core/interest_growth_native/research.py:164-166 | a proposal is turned down only for lack of room, of a key or of novelty |
| Research.ProposalsAreHeard | packages/native-execution-core/interest_growth_native/research.py:164-166 | over a whole run: what a researched block proposed is on the agenda from then on, by its key, unless it has none or the agenda is full |
| Research.AdmittedWereProposed | packages/native-execution-core/interest_growth_native/research.py:164-166 | nothing is queued but what was proposed |
| Research.ConfirmedTopicsDrain | packages/native-execution-core/interest_growth_native/research.py:159-169 | if the confirmed topics fit the limit nothing is left over |
| Research.RunBlock | packages/native-execution-core/interest_growth_native/research.py:130-156 | a block is completed exactly when it has a summary and claims and no claim cites an identifier it was not given; it appends exactly the titled ones among the first two topics proposed, stripped, in order |
| Research.TitledAre | packages/native-execution-core/interest_growth_native/research.py:148-150 | a proposal is appended, stripped, if and only if its title is not blank |
| Research.Ground | packages/native-execution-core/interest_growth_native/research.py:137-147 | the loop over the claims: their grounding, the citations used, and whether any is invalid |
| Research.JudgedIs | packages/native-execution-core/interest_growth_native/research.py:137-147 | a claim says what the raw one says and cites exactly the identifiers that names; it is invalid exactly if one of them was not supplied, else grounded exactly if there is any |
| Research.CleanedBoth | packages/native-execution-core/interest_growth_native/research.py:142 | identifiers are cleaned one by one, in order |
| Research.ClaimsBoth | packages/native-execution-core/interest_growth_native/research.py:137-145 | claims are judged one by one, in order |
| Research.ClaimsOne | packages/native-execution-core/interest_growth_native/research.py:137-145 | a raw claim without a text is left out, any other judged |
| Research.UsedIsCitedAndSupplied | packages/native-execution-core/interest_growth_native/research.py:146-147 | a block's citations are exactly the supplied identifiers some claim cites, each once |
| Research.CompletedBlockIsGrounded | packages/native-execution-core/interest_growth_native/research.py:142-151 | with no invalid claim every cited identifier is a citation of the block, and a claim is grounded exactly if it cites something |

## Left out

- HTTP routes, FastAPI wiring, middleware, SQLAlchemy mapping and the web and desktop interfaces; tables are maps, with the atomic steps named above.
- Real model, web and retrieval calls, the adapters of exact retrieval engines, document parsing; they are oracles with the contracts named above.
- Server-sent-event framing, bearer-header parsing, password checks, SHA-256 and scrypt.
- SQLite's byte-level backup, operating-system file locks beyond the rule above, and Windows branches.
- `maintenance_lock` opens its lock file outside its `try` (maintenance.py:152); an open that fails would leave the in-process hold behind.
- A crash of the process between the two writes of a plugin `update`; closure is stated at operation boundaries.
- Tool-failure entries among research candidates: they have no citation id, and `_run_block` reads one from every entry (research.py:132).
- The wording of prompts, the research report, the usage numbers of model calls and the domain-pack and persona parts of a snapshot.
- Question transitions, co-writer splices, claim review rules and source invalidation, which would add only easier members.
- The parent link of `regenerate` (tutor.py:412-427); its run starts like any other, from the context it builds, and everything proved of a start holds of it.
- Negative `top_k` slices; the grant as an ordered tuple (it is a set here).
- TutorLoop.TurnLoop.Commit: exceptions raised by the store itself or inside `_fail` are not modelled.
- Restore.LivePaths.RestoreBackup: the contents of the checks after the switch are an input; they read the configured default paths, not the ones passed in.
