# Verification of the control plane

A Dafny model of the durable control plane of an autonomous software-engineering
service, with proofs of what it promises: the workspace lock, the run records,
the run graph with its commit gate and cancellation, patch preparation and the
drift check, retrieval, and the idempotency, audit, redaction and quality-gate
layers. Language-model answers and everything else from outside are inputs of a
step, so a statement about all inputs is one about all runs.

`dafny verify dfyconfig.toml` verifies the project.

## Layout

| files | what they model |
|---|---|
| `Options`, `Texts`, `TextOrder` | an option type, the string operations relied on, the order of strings |
| `LockTables`, `LockProtocol`, `LockDescriptors`, `LockThreads` | the lock manager's tables and object; any processes and threads over them; which descriptors are open; when the RLock is freed |
| `RunStore`, `Collector`, `StoreClients` | run records and their statements; the collector's calls; collectors, cancellers and watchdogs that read first and write later |
| `RevisionLog`, `RunGraph`, `RunAnswers`, `Cancellation`, `AgentRunner` | the attempt log; the graph of one run; its log read back; that run beside the store's clients; starting and resuming runs |
| `Patcher`, `Snapshots`, `BatchWrites`, `AstCheck`, `GitWorkspace`, `DriftCheck` | applying one patch; what developer and revision write; how their batches end; the pre-flight check; diff preparation; the diff text and the check before a commit |
| `Ranking`, `Bm25`, `RankFusion`, `Chunker` | the stable sort; the lexical index; rank fusion; line windows and whole-file context |
| `Fingerprint`, `Idempotency`, `AuditChain`, `Sanitizer`, `QualityGate` | canonical requests; reservation; hash chains; redaction; pipeline and judge |

Where the source updates an object in place the model is a class whose methods
are proved equal to functions on its state; the theorems are about those
functions. Concurrent parts are state machines whose steps are single critical
sections, statements or system calls; a step that is not possible leaves the
state alone, so every sequence of steps is a run. Sequences of steps are
arbitrary, and so is the number of processes, threads, clients and workers.

## Main results

- Lock: `MutualExclusion`, `OpenExactlyWhenInUse`, `RecoveryIsHarmless`, `ReentrancyAccounting`,
  `LastReleaseFreesThreadLock`.
- Run records: `AnyScheduleOnlyGrows`, `WritingBackIsNeutral`, `RequestedAtMostOnce`, `OneStuckEvent`,
  `LatchedCheckFiresExactlyWhen`, `CheckKeepsFiring`.
- Graph: `CommittedExactlyWhen`, `EveryStepFollows`, `BoundedRuns`, `FailedExactlyWhen`, `ResumedExactlyWhen`; with
  crashes and store clients `EveryCommitIsGated`, `RequestStopsCommits`, `RequestStopsNodes`.
- Workspace: `OriginalsAreFromBeforeTheRun`, `WholeFileVerdictIsFromBeforeTheRun`, `BatchEndsExactlyWhen`,
  `RefusedExactlyWhen`, `PairsAreHeadAndDisk`,
  `UntouchedPassesExactlyWhen`, `PreparingTwiceIsStable`, `RerunOfTrackedFile`, `WrittenBatchPassesExactlyWhen`.
- Retrieval: `SearchAgreesWithScan`, `RarerTermContributesMore`, `ContributionIsBounded`, `FusionIsTheUnion`, `ScoresAddUp`,
  `AheadInBothScoresHigher`, `WindowsCoverTheFile`, `ConsolidateTwice`.
- Records of trust: `ExactlyOnce`, `NewsMatchRecords`, `ReplayTellsTheCompletion`, `SameFormExactlyWhenSameMeaning`, `SameLastHashSameChain`,
  `ChainsVerify`, `SanitizeTwice`, `SanitizedIsClean`, `GateOverThePipeline`, `ConfidenceIsCalibrated`.

## Assumptions

- SHA-256 is free of collisions and never yields the genesis value or the empty
  text; `difflib`, `ast.parse` and the tokenizers are arbitrary functions of
  their inputs; `log` is strictly increasing with `log 1 = 0`. Where a theorem
  asks for it (`ReadsBack`), the text of a diff can be read back: together with
  the files after the change it determines the files before, and (`ReadsForward`)
  the other way round.
- Where preparation resolves a path to and where the drift check looks for it are
  two given functions; `Plain` says that they agree on the listed paths and that
  no two of these lead to one file. Committed content is looked up by the path
  as it is written.
- Floating-point scores are reals; confidence is counted in hundredths, as it is
  rounded. Lower-casing is modelled on ASCII.
- File locks are POSIX `flock`: exclusive per open file description and dropped
  when the descriptor is closed or the process dies. The telemetry call inside
  `acquire_lock` does not raise, and `os.close` does not fail.
- Every SQL statement is atomic. A collector may edit any field of a record
  between its read and its write, except the organization it resolved.
- Each language-model, policy, test or human answer is arbitrary in every step.
- Nothing but the modelled writes changes the workspace between a preparation
  and its check, unless a theorem says so.

## Found on the way

These promises do not hold as stated. For each the model shows an input that
breaks it and, for all but a few, exactly when it holds:

- Lock isolation between tenants: sanitised keys collide (`DistinctTenantsMayShareALock`, `SameLockExactlyWhen`).
- The last release frees the RLock: not when the thread of the final release is not the one
  that recorded the ownership (`CrossThreadReleaseLosesThreadLock`, `LastReleaseFreesThreadLock`).
- A recorded cancellation is seen by the run: not when a caller reports under
  another organization (`WrongOrganizationHidesTheRequest`, `CheckElsewhereCommits`,
  `LatchedCheckFiresExactlyWhen`, `FiresAfterExactlyWhen`).
- A terminal status is final: not against a stale upsert (`StaleWriteRevivesRun`, `OnlyWritesLeaveTerminal`).
- An untouched workspace never reports drift: not with a snippet patch on an
  uncommitted file (`ExceptionalFileReportsDrift`, `UntouchedPassesExactlyWhen`), and not
  with a path that preparation trims (`PaddedPathReportsDrift`, `UnexceptionalPassesExactlyWhen`).
- Preparing again changes nothing: not for a tracked file that was emptied
  (`EmptiedFileIsRefilled`, `RerunOfTrackedFile`).
- Original snapshots predate the run: not for a file reached under two spellings
  (`AliasRecordsChangedText`), and not when a visit that wrote was cut off before its
  result was kept (`LostVisitRecordsChangedText`, `OriginalsAreFromBeforeTheRun`).
- Every tenant's audit chain verifies: `log` takes no lock, so not when two calls
  of one tenant overlap (`OverlappingCallsBreakTheChain`, `VerifiesExactlyWhenAppendsAreCurrent`).
- Nothing sensitive is stored: dictionary keys, tuples and other objects pass through
  redaction untouched (`KeyKeepsItsSecret`, `TupleKeepsItsSecret`, `CleanInDepthExactlyWhen`),
  and of a run record two columns are redacted (`StoredWithoutSecretsExactlyWhen`).
- A run that is rejected or refused for drift derives COMPLETED (`FailedExactlyWhen`).
- A finished run is recorded as finished: not when `start_run` ends with exhausted
  revisions (`UnfixableRunIsExhausted`, `ExhaustedRunIsRecordedAsRunning`,
  `StartAnswerIsRecordedExactlyWhen`).
- A valid patch passes the pre-flight check: the check applies it again to the file
  it is already in (`ReplacementFailsItsOwnCheck`, `WrittenBatchPassesExactlyWhen`).
- `fallback_chunk` does not end when the overlap reaches the window width
  (`NeverEnds`). A check with status ERROR does not count as failed
  (`PassesExactlyWhen`).

## Model

| member | source | states |
|---|---|---|
| LockTables.SameKeyExactly | backend/vcs/workspace_lock.py:142-154 | two requests contend for the same lock if and only if their organizations and their resources agree after sanitising; the separator can never come from the data |
| LockTables.SameLockExactlyWhen | backend/vcs/workspace_lock.py:138-154 | two callers contend for one lock if and only if the organizations and the resources they mean, defaults filled in and spaces cut, differ in no character that a key tells apart |
| LockTables.DistinctTenantsMayShareALock | backend/vcs/workspace_lock.py:114-126 | the documented "distinct tenants, strictly isolated locks" fails for organizations that differ only in replaced characters: `a/b` and `a_b` get one key |
| LockTables.BeginRelease | backend/vcs/workspace_lock.py:308-329 | a caller that does not own the key changes nothing; the key disappears when the count runs out and not before; the three dictionaries keep the same keys |
| LockTables.EvictStale | backend/vcs/workspace_lock.py:419-443 | recovery never touches an owner, and when the dictionaries agree it finds no descriptor to close |
| LockTables.ReleaseCounts | backend/vcs/workspace_lock.py:308-329 | a release lowers exactly the count of the run that owns the key, by exactly one |
| LockTables.WorkspaceLockManager.ThreadLock | backend/vcs/workspace_lock.py:161-165 | the RLock of a key is created once and found again until recovery drops it |
| LockTables.WorkspaceLockManager.Reenter | backend/vcs/workspace_lock.py:190-195 | hits exactly for the owning run and raises its count; changes nothing otherwise |
| LockTables.WorkspaceLockManager.RecordOwner | backend/vcs/workspace_lock.py:236-246 | the new owner, descriptor and start time are recorded under one key |
| LockTables.WorkspaceLockManager.ReleaseOwner | backend/vcs/workspace_lock.py:308-329 | the critical section of a release is the specified transition, with its outcome |
| LockTables.WorkspaceLockManager.Evict | backend/vcs/workspace_lock.py:419-443 | the critical section of stale recovery is the specified transition, with its outcome |
| LockTables.WorkspaceLockManager.AcquireLock | backend/vcs/workspace_lock.py:189-290 | however other threads change the tables between its critical sections, the call re-enters at once for the owning run, and otherwise ends in the first round that finds the run to be the owner, obtains both locks, or reaches the deadline, with the tables that outcome must leave |
| LockTables.SettlesExactlyWhen | backend/vcs/workspace_lock.py:199-290 | the deciding round is the first at or past the deadline, or with the RLock taken and the run found to be the owner or granted the OS lock; there is one when the last round reaches the deadline |
| LockTables.VainRoundForgetsAtMostTheRLock | backend/vcs/workspace_lock.py:259-290 | a round in vain leaves the tables as the others had, except that the RLock of a key whose stale owner is gone is forgotten |
| LockTables.EvictionForgetsTheKey | backend/vcs/workspace_lock.py:419-443 | recovery of an unowned key empties every dictionary of that key alone, in whatever state they were, and hands over the descriptor it drops |
| LockProtocol.RunKeepsInv | backend/vcs/workspace_lock.py:167-342 | the inductive invariant of every interleaving, covering a held but unrecorded and an unrecorded but still held OS lock |
| LockProtocol.MutualExclusion | backend/vcs/workspace_lock.py:199-275 | in every interleaving of acquire, release, recovery and crash, over any threads and processes, at most one (process, key) owns a lock file, and its recorded descriptor holds that file's OS lock |
| LockProtocol.RecoveryIsHarmless | backend/vcs/workspace_lock.py:308-329 | at every point of every run the three dictionaries have the same keys, so recovery has nothing to close and changes neither owners nor OS locks |
| LockProtocol.ReentrancyAccounting | backend/vcs/workspace_lock.py:190-210 | a run's count is always its successful acquires minus its releases since the process started, and it owns the key exactly while that is positive |
| LockDescriptors.RunLosesNone | backend/vcs/workspace_lock.py:199-275 | the inductive invariant about descriptors: in every interleaving an open descriptor is recorded by its process or in the hands of exactly one of its threads |
| LockDescriptors.OpenExactlyWhenInUse | backend/vcs/workspace_lock.py:199-275 | at every point of every run a descriptor is open if and only if its process has it on record for a key it owns, or one of its threads is at a stage between opening and recording or closing it; a refused acquisition leaks none |
| LockDescriptors.IdleProcessHoldsNothing | backend/vcs/workspace_lock.py:331-342 | a process with no owner and nobody at work has no open descriptor and holds no OS lock |
| LockDescriptors.LockedExactlyWhenHeld | backend/vcs/workspace_lock.py:218-342 | the OS lock on a file is taken exactly while a process owns a key of it or a thread is about to record or give up such ownership |
| LockThreads.LastReleaseFreesThreadLock | backend/vcs/workspace_lock.py:331-342 | for a key that was never recovered, with nobody at work on it: its RLock is free if and only if it has no owner and every final release since the process started was made by the thread that had recorded the ownership; otherwise the recording thread holds it, once per ownership and once per final release made elsewhere |
| LockThreads.CrossThreadReleaseLosesThreadLock | backend/vcs/workspace_lock.py:331-342 | one final release on another thread loses the RLock: acquire, re-enter, release, release on two threads of one run, and the RLock stays held with no owner |
| LockThreads.RecoveryForgetsTheLostLock | backend/vcs/workspace_lock.py:429-443 | why the theorem excludes recovery: it forgets the lost RLock, so the key has a free one again although a final release was made elsewhere |
| Sanitizer.SanitizeStringValue | backend/observability/sanitizer.py:71-87 | the loop over the prefixes, with its shortcut when a prefix does not occur, computes the redaction of all five patterns and the cut |
| Sanitizer.TokenIsCutOut | backend/observability/sanitizer.py:76-82 | the first credential in a text is replaced as a whole, and the text before and after it stays |
| Sanitizer.TokenRunIsLongest | backend/observability/sanitizer.py:82 | a match extends as far as token characters go and no further |
| Sanitizer.SanitizedTextHasNoToken | backend/observability/sanitizer.py:71-87 | no sanitised string contains a match of any pattern, also at the cut |
| Sanitizer.SanitizeTextTwice | backend/observability/sanitizer.py:71-87 | sanitising a string twice equals sanitising it once, past the limit too |
| Sanitizer.UntouchedExactlyWhen | backend/observability/sanitizer.py:71-87 | a string is left alone if and only if it holds no credential and is short enough or was cut before |
| Sanitizer.SanitizedIsClean | backend/observability/sanitizer.py:40-68 | in every nested value, no reached string, dictionary keys included, holds a credential and no entry under a sensitive key keeps its value, if and only if no key that the output keeps held one |
| Sanitizer.SanitizeTwice | backend/observability/sanitizer.py:40-68 | sanitising any nested value twice equals once |
| Sanitizer.ValueIsDroppedExactlyWhen | backend/observability/sanitizer.py:50-60 | an entry keeps its key, and loses its value exactly when the key, in lower case and stripped, is one of the names or holds one of the substrings at some position |
| Sanitizer.ValueIsUntouchedExactlyWhen | backend/observability/sanitizer.py:40-68 | a nested value comes out as it went in if and only if every text reached is clean and short enough and every sensitive entry is redacted already |
| Texts.StripCuts | backend/observability/sanitizer.py:51 | stripping cuts spaces off both ends, nothing else, and leaves none there |
| Sanitizer.CleanInDepthExactlyWhen | backend/observability/sanitizer.py:48-68 | the output is clean in depth, keys included, if and only if every key and every object handed through untouched was |
| Sanitizer.TupleKeepsItsSecret | backend/observability/sanitizer.py:62-68 | a credential inside a tuple in a list passes through |
| Sanitizer.KeyKeepsItsSecret | backend/observability/sanitizer.py:50-60 | a credential used as a dictionary key passes through |
| RunStore.AnyScheduleOnlyGrows | backend/observability/store.py:241-287 | whatever statements run in whatever order, counters and latches never go down, `created_at` stays and no coalesced column is unset, except who and why of a cancellation not yet recorded |
| RunStore.MarksAreForever | backend/observability/store.py:280-287 | `cancel_requested`, `stuck_at` and `cancelled_at` are never unset once set |
| RunStore.WritesJoin | backend/observability/store.py:241-287 | neither a counter, nor a latch, nor whether a column is set depends on the order of two upserts, both records' counters are reached, and repeating an upsert changes nothing |
| RunStore.EmptyColumnsAreKept | backend/observability/store.py:241-287 | an upsert keeps the stored value of every column its record leaves empty |
| RunStore.WritingBackIsNeutral | backend/observability/store.py:209-213 | on every table the statements can produce, reading a row and writing it back changes nothing; stored text is not redacted or cut further |
| RunStore.StoredWithoutSecretsExactlyWhen | backend/observability/store.py:209-303 | a new row is stored without a credential in any column if and only if the columns other than the two redacted ones had none |
| RunStore.SecondRequestFindsItDone | backend/observability/store.py:365-414 | which calls are told REQUESTED, that all others change nothing, and that a second call afterwards is told ALREADY_CANCELLED or, while the run winds down, ALREADY_TERMINAL |
| RunStore.RequestWrites | backend/observability/store.py:395-414 | an accepted request sets the latch, when, who and why, ends a waiting run on the spot, and leaves every other column and row |
| RunStore.MarkingCancelledWrites | backend/observability/store.py:416-437 | a visible open run is closed as CANCELLED with the time; an ended one stays as it ended |
| RunStore.FlagWrites | backend/observability/store.py:478-493 | the stuck mark goes on an unmarked row of exactly that organization, and nothing else changes |
| RunStore.BeatWrites | backend/observability/store.py:450-476 | a heartbeat writes its time and, if named, the phase of a visible row, and nothing else |
| RunStore.UpsertWrites | backend/observability/store.py:241-287 | an upsert, column by column: what it overwrites, keeps, joins and redacts |
| RunStore.ClaimedWrites | backend/observability/watchdog.py:96-131 | a claimed row is marked and, if asked for and not asked before, carries the watchdog's own request |
| RunStore.TelemetryStore.CreateOrUpdateRun | backend/observability/store.py:209-303 | the upsert is redaction followed by the merge rules |
| RunStore.TelemetryStore.GetRun | backend/observability/store.py:305-321 | a scoped read returns the row only under its own organization |
| RunStore.TelemetryStore.RequestCancellation | backend/observability/store.py:365-414 | select, then guarded update, with the four outcomes |
| RunStore.TelemetryStore.MarkCancelled | backend/observability/store.py:416-437 | wins exactly on a visible run that is not terminal, and changes nothing otherwise |
| RunStore.TelemetryStore.IsCancelRequested | backend/observability/store.py:439-443 | true exactly when the visible row has the latch or is CANCELLED |
| RunStore.TelemetryStore.UpdateActivity | backend/observability/store.py:450-476 | one heartbeat statement |
| RunStore.TelemetryStore.MarkStuck | backend/observability/store.py:478-493 | wins exactly when the row is under that organization and unmarked, and then marks it |
| RunStore.TelemetryStore.Claim | backend/observability/watchdog.py:96-131 | a row is claimed exactly when it is still there, open and unmarked; it is then marked and, with automatic cancellation, asked to stop unless it was already |
| RunStore.TelemetryStore.CheckOnce | backend/observability/watchdog.py:68-133 | an undisturbed pass claims each listed, tracked, unmarked and stale run once, with or without automatic cancellation, and leaves every other row as it was |
| StoreClients.RequestedAtMostOnce | backend/observability/store.py:395-414 | with any number of racing clients at most one request per run is told REQUESTED, and then the request is on record |
| StoreClients.OneStuckEvent | backend/observability/watchdog.py:100-117 | any number of racing watchdogs emit at most one stuck event per run, and only for a marked run |
| StoreClients.UndisturbedCancel | backend/observability/store.py:365-414 | read and guarded update of one client, with nobody in between, are the whole request with its outcome |
| StoreClients.UndisturbedFinalize | backend/observability/store.py:416-437 | the same for marking a run cancelled |
| StoreClients.UndisturbedRecord | backend/observability/collector.py:53-75 | an undisturbed collector stores its record under the organization it resolved |
| StoreClients.UndisturbedWatch | backend/observability/watchdog.py:96-131 | an undisturbed watchdog marks and announces a run that is under way and unmarked, and leaves any other alone |
| RunStore.RequestSeenExactlyWhen | backend/observability/store.py:439-443 | after a recorded request and any statements, the check sees the request if and only if its caller gives no organization or the one of the last whole-record write of the run |
| StoreClients.LatchedCheckFiresExactlyWhen | backend/observability/store.py:439-443 | once a request is recorded, the check fires after any interleaving of collectors, cancellers and watchdogs if and only if its caller gives no organization or the one that the last collector to store the run had resolved |
| StoreClients.CheckKeepsFiring | backend/observability/collector.py:53-75 | while callers name the run's own organization or none, a recorded request keeps the check firing through every interleaving of stale read-modify-writes |
| StoreClients.WrongOrganizationHidesTheRequest | backend/observability/collector.py:111-138 | three steps of a caller that reports under another organization move the row and hide a recorded request from the run's own check |
| StoreClients.StaleWriteRevivesRun | backend/observability/collector.py:380-405 | a collector that read before a cancellation and writes after it gives the finalized run its old status back; the latch stays |
| StoreClients.OnlyWritesLeaveTerminal | backend/observability/store.py:250 | a statement takes a run out of a terminal status if and only if it is an upsert of that run with another status |
| Patcher.PatchMeaning | backend/developer/patcher.py:29-75 | when a patch is refused, and that otherwise exactly the first occurrence is replaced, or the whole file for an empty snippet |
| Patcher.RefusedExactlyWhenInvalid | backend/developer/patcher.py:29-75 | a patch is refused if and only if its snippet is nowhere or it makes Python that does not parse, and otherwise has the one text it makes |
| Patcher.WholeFileIgnoresSource | backend/developer/patcher.py:34-47 | a whole-file patch does not depend on the text it replaces |
| Snapshots.PatchLoop | backend/graph/nodes.py:706-802 | the developer node's loop with its crash and recoverable exits is the specified fold; writes before an exit stay |
| Snapshots.MaterializeLoop | backend/graph/nodes.py:480-538 | the fallback loop with its crash and wrapper exits is the specified fold |
| Snapshots.NoChangeVanishes | backend/graph/nodes.py:448-451 | when the fallback succeeds its batch holds a whole-file patch for every change with content, and nothing else |
| Snapshots.ForgetLoop | backend/graph/nodes.py:1177-1178 | dropping the snapshots of patches revised in context, one by one |
| AstCheck.CheckAst | backend/qa/pipeline.py:63-131 | the pre-flight loop fails exactly when a patch does not fit, and blames the patch alone exactly when no Python file is at fault |
| AstCheck.CheckFailsExactlyWhen | backend/qa/pipeline.py:63-131 | the check fails if and only if some patch has no safe path or is invalid for the file as it is, and blames the patch alone exactly when no Python file with a safe path has a bad one |
| AstCheck.BatchLeavesText | backend/graph/nodes.py:706-802 | what a written batch leaves on the disk in each file is its text edited by the patches of that file in order |
| AstCheck.WrittenBatchPassesExactlyWhen | backend/qa/pipeline.py:63-97 | a batch the developer node has just written passes the pre-flight check if and only if each of its snippets still occurs in the text the whole batch leaves in its file and, in Python, replacing it once more still parses |
| AstCheck.WrittenPatchFitsExactlyWhen | backend/qa/pipeline.py:67-97 | a lone snippet patch, with its snippet first at position i: it passes if and only if the snippet occurs in the text with that place replaced |
| AstCheck.FallbackPassesExactlyWhen | backend/graph/nodes.py:480-538 | the fallback's batch of whole files passes if and only if every Python file in it parses |
| AstCheck.ReplacementFailsItsOwnCheck | backend/graph/nodes.py:796-801 | replacing a file's text by one that no longer holds it is written and then fails the check as a patch that does not apply |
| Snapshots.RunIsSound | backend/graph/nodes.py:1131-1178 | the invariant of every run of developer and revision visits, kept or lost: files no recorded path leads to are as the run can still know them, and immediate snapshots exist only beside original ones |
| Snapshots.OriginalsAreFromBeforeTheRun | backend/graph/nodes.py:494-523 | at every point of every run, for a file reached by one recorded path: a recorded original is what the file held after the last visit that was lost before the file was recorded, at the start of the run if there was none; so it is from before the run as long as no visit that wrote to the file was lost |
| Snapshots.LostVisitRecordsChangedText | backend/graph/nodes.py:641-646 | a developer visit that writes, dies before its result is kept and is entered again records the changed text as the original |
| Snapshots.AliasRecordsChangedText | backend/graph/nodes.py:739-740 | two spellings of one path defeat this: the second records the changed text as the original |
| Snapshots.CheckPatchScope | backend/qa/pipeline.py:203-247 | the check's loop collects exactly the patches judged a violation, and none without a request |
| Snapshots.WholeFileVerdictIsFromBeforeTheRun | backend/qa/pipeline.py:207-245 | the verdict on a whole-file candidate depends only on the content before the run, or after the last visit lost before the file was recorded, never on kept attempts; it goes unjudged exactly when it is Python or has neither snapshot nor file |
| Snapshots.SnippetVerdictExactlyWhen | backend/qa/pipeline.py:203-247 | a snippet candidate is a violation if and only if the baseline with the first occurrence spliced is a wrapper or unsafe against the original; unjudged exactly for Python, a missing baseline or a missing snippet |
| Snapshots.ViolationsAreTheViolating | backend/qa/pipeline.py:200-247 | each patch of a list is judged on its own and reported in its place |
| BatchWrites.BatchEndsExactlyWhen | backend/graph/nodes.py:706-802 | a batch is written to its end if and only if every patch has a safe path, is valid and makes no wrapper where its turn comes; otherwise nothing from that patch on is written, no batch is handed on, and it is fatal exactly for an unsafe path or an invalid Python patch |
| BatchWrites.FallbackEndsExactlyWhen | backend/graph/nodes.py:480-538 | the fallback ends well if and only if no change is blocked, and otherwise stops at the first that is |
| BatchWrites.LastChangeStands | backend/graph/nodes.py:480-538 | a file holds the last change with content that resolves to it |
| BatchWrites.SnapshotIsWhatTheLastPatchFound | backend/graph/nodes.py:735-760 | the immediate snapshot of a path is the text that the last patch under it found |
| BatchWrites.SnapshotIsWhatTheLastChangeFound | backend/graph/nodes.py:496-506 | the same for the fallback |
| BatchWrites.DeveloperPrefersExactPatches | backend/graph/nodes.py:640-840 | the developer writes exact patches when it has context and any, and whole files only otherwise |
| BatchWrites.DeveloperSnapshotsItsOwnFiles | backend/graph/nodes.py:640-840 | after a developer visit only files of that visit have an immediate snapshot |
| BatchWrites.RevisionHandsOnABatch | backend/graph/nodes.py:1101-1178 | a revision hands on the patches revised in context unwritten, the batch it wrote, or the last one when there was nothing to write or a wrapper stopped it |
| GitWorkspace.PreparePatch | backend/vcs/git_manager.py:336-387 | one round of preparation, with its trust in a dirty file, is the specified step; a trusted file is not written |
| GitWorkspace.ApplyPatches | backend/vcs/git_manager.py:303-389 | the loop of preparation is the specified fold, refusals included |
| GitWorkspace.AfterMeaning | backend/vcs/git_manager.py:350-387 | a patch is refused exactly when the file is not trusted as it is and the patch is invalid for its baseline; otherwise the file holds what was on disk or the text the patch makes |
| GitWorkspace.RefusedExactlyWhen | backend/vcs/git_manager.py:350-387 | a preparation is refused if and only if some patch, where its turn comes, has no safe path, or its snippet is nowhere in the baseline, or it makes Python that does not parse; what was written before stays |
| GitWorkspace.MissingSnippetIsRefused | backend/vcs/git_manager.py:373-379 | a snippet that does not occur in a committed file refuses the preparation and leaves the disk alone |
| GitWorkspace.PairsAreHeadAndDisk | backend/vcs/git_manager.py:350-387 | after preparation every pair starts with the committed content if and only if the last patch on its path is not a snippet patch on a path without committed content, and ends in the disk content of the file its path resolves to unless another spelling leads there too |
| GitWorkspace.FilesAreIndependent | backend/vcs/git_manager.py:303-389 | preparing a list of patches is preparing each file with the patches that resolve to it, in any spelling |
| GitWorkspace.RerunOfTrackedFile | backend/vcs/git_manager.py:350-387 | preparing a tracked file again gives the same text if and only if the first run did not empty it, or its leading whole-file patches, applied to an empty file, leave nothing or the committed text |
| GitWorkspace.EmptiedFileIsRefilled | backend/vcs/git_manager.py:350-387 | that exception happens: a skipped whole-file patch is written by the second run |
| GitWorkspace.PreparingTwiceIsStable | backend/vcs/git_manager.py:303-389 | for tracked files, each in one spelling, preparing again returns the same pairs and leaves the disk unchanged if and only if no file was left empty whose leading whole-file patches would fill it with something else than the committed text |
| DriftCheck.ComputeDiff | backend/vcs/git_manager.py:392-424 | the diff is the files' diffs in path order, and the counters count its added and deleted lines |
| DriftCheck.DiffJoinsLines | backend/vcs/git_manager.py:423 | the text is the lines with exactly one break between any two |
| DriftCheck.LinesAreFileByFile | backend/vcs/git_manager.py:403-416 | the lines are those of one file after another, in the order given |
| DriftCheck.CountsExactlyWhen | backend/vcs/git_manager.py:417-421 | a line counts exactly when it starts with the mark and not with three of them; the breaks it ends in do not matter |
| DriftCheck.CountedLines | backend/vcs/git_manager.py:415-421 | a counter is the number of lines that count |
| DriftCheck.SortedKeysAscend | backend/vcs/git_manager.py:403 | the assembly order is strictly ascending by path |
| DriftCheck.VerifyWorkspaceDrift | backend/vcs/git_manager.py:631-683 | the check with its early exits and its baseline flag computes the specified answer |
| DriftCheck.PassesExactlyWhen | backend/vcs/git_manager.py:642-683 | a check with a hash passes if and only if the hash is that of the approved text and, when a listed file was ever committed, the listed files show that text now |
| DriftCheck.UntouchedPassesExactlyWhen | backend/vcs/git_manager.py:686-728 | when the check looks for every listed path where preparation resolved it to, and no two lead to one file, a workspace untouched since preparation passes if and only if nothing listed was ever committed or no listed file got its last patch as a snippet without committed content to apply it to |
| DriftCheck.UntouchedWorkspacePasses | backend/vcs/git_manager.py:686-728 | one half of that needs nothing of the diff text: with such paths and without such a file an untouched workspace always passes |
| DriftCheck.ExceptionalFileReportsDrift | backend/vcs/git_manager.py:367-373 | one snippet patch on an uncommitted file beside one on a committed file: an untouched workspace is refused |
| DriftCheck.UnexceptionalPassesExactlyWhen | backend/vcs/git_manager.py:656-681 | for paths in any spelling without such a file, an untouched workspace passes if and only if nothing listed was ever committed or the check finds each prepared text where it looks for the path as written |
| DriftCheck.PaddedPathReportsDrift | backend/vcs/git_manager.py:656-669 | one whole-file patch on a path with a leading blank beside one on a committed file: preparation trims the path, the check does not, and an untouched workspace is refused |
| RevisionLog.BreakerTripsAtTheLimit | backend/revision/models.py:76-82 | the log keeps every attempt in order and the breaker is open exactly from the last allowed attempt on |
| RevisionLog.RevisionHistory.AddAttempt | backend/revision/models.py:76-82 | appends the attempt and sets the flag as specified |
| RunGraph.ApprovalStandsExactlyWhen | backend/graph/nodes.py:1438-1545 | an approval stands if and only if there is a real diff with a hash, the decision carries that hash, and no known role forbids it; a rejection is left as it is |
| RunGraph.RunIsSound | backend/graph/runner.py:128-177 | the invariant of every run at every node |
| RunGraph.CommitGate | backend/graph/nodes.py:1577-1632 | a run is COMMITTED only with a QA pass, a real diff, a policy decision other than BLOCK, an approval of the hash of that very diff, and a workspace without drift from it |
| RunGraph.EveryStepCountsDown | backend/graph/runner.py:128-177 | every completed step lowers the number of steps that can still follow |
| RunGraph.BoundedRuns | backend/graph/nodes.py:983-1025 | at most three revisions, four QA steps and fifteen steps in all; revision count, attempt log and revision steps agree |
| RunGraph.FailedExactlyWhen | backend/graph/runner.py:308-316 | a finished run derives FAILED if and only if its revisions were exhausted or the commit itself failed; rejected, blocked and drifted runs derive COMPLETED |
| RunGraph.CleanupSaysWhy | backend/graph/nodes.py:1639-1681 | a run that ends in cleanup is NO_CHANGES_NEEDED exactly for an unblocked no-op diff, which nobody was asked about; otherwise the policy blocked it or a person rejected it, with that reason |
| RunGraph.ApprovedRunCommits | backend/graph/runner.py:128-177 | the gate can be passed: a plain run whose diff is approved commits, in seven steps |
| RunGraph.UnfixableRunIsExhausted | backend/graph/nodes.py:983-1025 | the revisions can be exhausted: a run whose QA never passes ends after nine steps with three revisions and derives FAILED |
| RunGraph.PreparedDiffIsCommitted | backend/graph/nodes.py:1278-1301 | a diff prepared from patches with plain paths, with the workspace untouched and no exceptional file, is never refused by the commit node |
| RunGraph.PreparedDiffIsRefusedExactlyWhen | backend/graph/nodes.py:1591-1606 | with plain paths and the workspace untouched, the commit node refuses a prepared diff with changes as drifted if and only if a listed file is exceptional while some listed file has a committed version |
| RunGraph.ReadOnlyRunsDevelopNothing | backend/graph/nodes.py:952-980 | a general task, and a knowledge search without planning, never reaches the developer, a diff or a commit |
| RunGraph.FinishedRunVisitedWhatItAskedFor | backend/graph/nodes.py:952-980 | a finished run has visited router, planner, knowledge and developer each exactly as often, none or once, as its first answer's routing and its project ask |
| RunAnswers.NoOpExactlyWhen | backend/vcs/models.py:42-44 | a diff counts as no change exactly when it lists no file or its text is all spaces |
| RunAnswers.RefusalSaysWhy | backend/graph/nodes.py:1438-1545 | an approval that cannot stand is turned down for the first thing wrong with it, each with its own status and reason |
| RunAnswers.EveryStepFollows | backend/graph/nodes.py:952-1025 | at every position of every run the next node is the one its answers up to there say: routing, recoverable patch failure, QA and the revisions so far, no-op and policy, the approval of the very diff prepared two steps before |
| RunAnswers.CommittedExactlyWhen | backend/graph/nodes.py:1564-1632 | a run is COMMITTED if and only if its last five answers are a QA pass, a diff with changes, a policy that does not block, an approval of the hash of that diff, and a workspace that shows it with a commit that works |
| RunAnswers.OpenRunHasItsStatus | backend/graph/nodes.py:1345-1545 | while a run is under way its status is none, or the one of the gate it came to last |
| Cancellation.EveryCommitIsGated | backend/graph/nodes.py:1591-1623 | in a run with any interruptions and crashes beside any store clients, whatever is committed has passed the whole gate |
| Cancellation.UndisturbedNode | backend/graph/nodes.py:871-1025 | a node that is let in and finished is one step of the graph; cleanup needs no letting in |
| Cancellation.UndisturbedCommitNode | backend/graph/nodes.py:1564-1632 | the commit node commits exactly when its workspace is verified, and is one step of the graph either way |
| Cancellation.StoppedNode | backend/graph/cancellation.py:26-39 | a node whose check fires is not entered, and a node that raises leaves nothing but what it committed |
| Cancellation.FiresAfterExactlyWhen | backend/graph/cancellation.py:26-39 | once a request is on record, a check after any moves fires if and only if the run checks under no organization or the one that the last collector to store it had resolved |
| Cancellation.RequestStopsCommits | backend/graph/nodes.py:1610-1621 | once a request is on record and the commit node is not past its final check, nothing is committed in any continuation in which the run checks where it is stored |
| Cancellation.RequestStopsNodes | backend/graph/cancellation.py:26-39 | once a request is on record between nodes, no further node is entered but cleanup, in the same continuations |
| Cancellation.CheckElsewhereCommits | backend/graph/nodes.py:1610-1621 | a final check under another organization than the stored one lets the commit through |
| Cancellation.HomeIsWhereItIsStored | backend/observability/collector.py:53-75 | those continuations include all in which callers name the run's own organization or none |
| Cancellation.CheckCancelled | backend/graph/cancellation.py:26-39 | raises exactly when the run has an id and the store shows a request or CANCELLED under its organization |
| Cancellation.MarkActivity | backend/graph/cancellation.py:42-55 | the heartbeat is one statement under the run's organization, none for a run without an id, and moves no status, counter or latch of any run |
| Collector.TelemetryCollector.ResolveOrg | backend/observability/collector.py:53-75 | an explicit organization wins, otherwise the recorded one, otherwise the default |
| Collector.TelemetryCollector.OnRunCreated | backend/observability/collector.py:77-109 | one upsert of a queued record under the resolved organization |
| Collector.TelemetryCollector.OnRunStarted | backend/observability/collector.py:111-138 | read, edit and write back as RUNNING, with a record created first when none is found |
| Collector.TelemetryCollector.OnRunCompleted | backend/observability/collector.py:416-509 | read, edit and write back as COMPLETED with the final report |
| Collector.TelemetryCollector.OnRunFailed | backend/observability/collector.py:511-551 | read, edit and write back as FAILED with category and message |
| Collector.TelemetryCollector.OnApprovalRequested | backend/observability/collector.py:343-368 | writes only to a record it finds, as WAITING_APPROVAL with hash and risk |
| Collector.TelemetryCollector.OnApprovalDecision | backend/observability/collector.py:380-414 | writes only to a record it finds, with decision, reviewer and latency |
| Collector.ReportOnlyAdds | backend/observability/collector.py:416-509 | after a final report every column it knows has its value, every other one the value stored before, and no counter has gone down |
| Collector.FailureIsRecorded | backend/observability/collector.py:511-551 | a failure is recorded with its category and the redacted first 500 characters of its message, in which redaction finds nothing more |
| AgentRunner.Runner.StartRun | backend/graph/runner.py:642-771 | the answer, the durable record after the collector's calls, and the tables of active runs and errors after any ending, with any statements of other clients while the graph runs |
| AgentRunner.Runner.ResumeRun | backend/graph/runner.py:917-1073 | the guards refuse without changing anything; otherwise the answer, the durable record after the collector's calls, and the tables after any ending |
| AgentRunner.Runner.MarkCommitFailed | backend/graph/runner.py:1036-1040 | a failed commit is written to its own column of a record visible to the call |
| AgentRunner.Runner.Conclude | backend/graph/runner.py:1010-1073 | answer and record after each kind of ending of a resumed run |
| Collector.StartingKeepsWhatWasQueued | backend/observability/collector.py:77-138 | a started run is RUNNING under its organization with the facts it was created with, and keeps every latch and column recorded while it was queued |
| Collector.CreationSays | backend/observability/collector.py:77-109 | a created run is QUEUED under its organization with the facts given, column by column |
| Collector.StartSays | backend/observability/collector.py:111-138 | a started run is RUNNING with its start time and every other column as it was |
| Collector.ReportSays | backend/observability/collector.py:416-509 | a final report leaves its currency and the larger of each counter, tokens only when there were any |
| Collector.ReportIsStamped | backend/observability/collector.py:416-509 | a final report leaves its time and duration, whatever columns it brings |
| Collector.FailureSays | backend/observability/collector.py:511-551 | a failure leaves time, duration and category and touches no other column |
| Collector.PauseSays | backend/observability/collector.py:343-368 | a found run waits for approval with the latch, PENDING and the hash and risk given; one not found is left out |
| Collector.DecisionSays | backend/observability/collector.py:380-414 | a decision is stored as APPROVED or REJECTED with reviewer and latency, and no other column changes |
| Collector.DecisionIsRecorded | backend/observability/collector.py:380-405 | a decision is recorded as made with its reviewer and latency, and no status of any run changes |
| AgentRunner.StartAnswerIsRecordedExactlyWhen | backend/graph/runner.py:704-771 | when the durable record says what `start_run` answers: always after a success or an exception, after a pause or a cancellation if the row is found and open, and after a plain FAILED only if someone else recorded it |
| AgentRunner.ExhaustedRunIsRecordedAsRunning | backend/graph/runner.py:711-731 | a run that exhausts its revisions is answered FAILED by `start_run` and left RUNNING in the durable record |
| AgentRunner.ResumeRecordsEveryEnding | backend/graph/runner.py:1010-1073 | `resume_run` records every success, failure and exception, and a failed commit in its own column when the record is under the organization of the call |
| AgentRunner.CancelledWhileWaitingIsRefused | backend/graph/runner.py:946-974 | a run cancelled while it waits for approval is refused at resumption, whatever statements come between other than whole-record writes of it |
| AgentRunner.ResumedExactlyWhen | backend/graph/runner.py:943-974 | a call is accepted if and only if the run is known, something is pending, and the visible record is missing or not over; and which refusal it gets otherwise |
| AgentRunner.EndedRunIsRefused | backend/graph/runner.py:957-968 | a run that is over in any of the four ways is refused from then on, whatever the graph shows as pending, until a whole-record write |
| AgentRunner.BrokenRunIsRefused | backend/graph/runner.py:957-968 | a run whose graph raised is recorded and never resumed, although it still looks as if it were waiting |
| AgentRunner.ResumeAnswerIsRecordedExactlyWhen | backend/graph/runner.py:1010-1073 | when the durable record says what `resume_run` answers, for each kind of ending |
| AgentRunner.FailedEndingSaysWhy | backend/graph/runner.py:1026-1040 | a run that ends FAILED at resumption is stored with category and words of a failed commit, which alone gets its own column, or with the inferred category |
| AgentRunner.AnswerOfAFinishedRun | backend/graph/runner.py:308-316 | a finished run is answered FAILED if and only if its revisions were exhausted or the commit itself failed, and COMPLETED otherwise |
| Ranking.SortIsOrdered | backend/indexer/retriever.py:137 | the sort is descending and a permutation |
| Ranking.SortIsStable | backend/indexer/retriever.py:137 | equal scores keep their order |
| Ranking.BestAreKept | backend/indexer/retriever.py:137-138 | the cut keeps as many as asked, and nothing it drops scores higher than anything it keeps |
| Bm25.FrequencyCounts | backend/indexer/retriever.py:96-97 | the document frequency is the number of chunks containing the term |
| Bm25.IdfIsPositive | backend/indexer/retriever.py:101-103 | every inverse document frequency is positive, also for a term in every chunk |
| Bm25.AverageIsPositive | backend/indexer/retriever.py:99 | the average length is positive whenever it is divided by |
| Bm25.ContributionIsBounded | backend/indexer/retriever.py:129-132 | each term contributes a positive amount below its inverse document frequency times k1 + 1 |
| Bm25.ScoresExactlyWhenShared | backend/indexer/retriever.py:118-135 | a chunk scores above zero if and only if it shares a term with the query |
| Bm25.OccurrencesCount | backend/indexer/retriever.py:80-86 | a term's occurrences are its multiplicity |
| Bm25.IdfFalls | backend/indexer/retriever.py:101-103 | the inverse document frequency is positive and falls strictly as the document frequency rises |
| Bm25.RarerTermContributesMore | backend/indexer/retriever.py:118-135 | of two terms with the same weight in a chunk, the rarer contributes strictly more |
| Bm25.MoreWeightContributesMore | backend/indexer/retriever.py:129-132 | of two chunks of one length, the one in which a term weighs more gets strictly more for it |
| Bm25.ShorterChunkContributesMore | backend/indexer/retriever.py:129-132 | of two chunks in which a term weighs the same, the shorter one gets strictly more for it, whenever b is above zero |
| Bm25.ScoresAddUp | backend/indexer/retriever.py:118-135 | a score is the sum of the shares of the query's terms, repetitions included |
| Bm25.SearchAgreesWithScan | backend/indexer/retriever.py:105-138 | a search returns exactly the sharing chunks, in descending score, cut to the best |
| Bm25.TermWeights | backend/indexer/retriever.py:80-86 | the two loops weigh each term by its occurrences in content and symbol name |
| Bm25.CountTerms | backend/indexer/retriever.py:95-97 | one document adds one to the frequency of each of its terms |
| Bm25.SimpleBM25Index.constructor | backend/indexer/retriever.py:51-71 | the constructed index is fitted: every table says what a scan would |
| Bm25.SimpleBM25Index.Fit | backend/indexer/retriever.py:73-103 | fitting fills every table with what a scan of the chunks would say |
| Bm25.SimpleBM25Index.SearchFor | backend/indexer/retriever.py:105-138 | the search over the tables is the search over a plain scan |
| RankFusion.ReciprocalRankFusion | backend/indexer/retriever.py:148-198 | both ranking loops, the forming of results and the sort compute the specified fusion |
| RankFusion.FusionIsTheUnion | backend/indexer/retriever.py:156-198 | one result per key of either list, keys distinct, scores and origins those of both lists, descending |
| RankFusion.ResultInWords | backend/indexer/retriever.py:156-198 | in duplicate-free lists a key in both gets the dense chunk, 1/(k + rank) of both and the origin hybrid; a key in one gets its chunk, its rank and its origin |
| RankFusion.ScoresAddUp | backend/indexer/retriever.py:160-175 | the scores add up to the sum of 1/(k + rank) over both lists, repetitions included |
| RankFusion.AheadInBothScoresHigher | backend/indexer/retriever.py:160-175 | in duplicate-free lists, a chunk ahead of another in both scores strictly higher |
| RankFusion.RetrievedAreTheBest | backend/indexer/retriever.py:206-216 | retrieval is the front of the fused list, as much as was asked for |
| Fingerprint.NormalizeTwice | backend/security/idempotency.py:45-57 | normalisation is idempotent |
| Fingerprint.NormalizeKeepsMeaning | backend/security/idempotency.py:45-57 | normalisation keeps what a request stands for |
| Fingerprint.SameFormExactlyWhenSameMeaning | backend/security/idempotency.py:45-61 | two requests have one canonical form if and only if they mean the same: blind to key order, None-valued keys and excluded keys at every depth, and to nothing else |
| Fingerprint.EntryCountsExactlyWhen | backend/security/idempotency.py:33-52 | one more entry leaves the canonical form as it was if and only if its key, in lower case, is excluded or its value is None |
| Fingerprint.NoneInListReadsAsText | backend/security/idempotency.py:53-57 | a None inside a list is not dropped but reads as the text "None" |
| Idempotency.NewsMatchRecords | backend/security/idempotency.py:133-187 | in every interleaving, deletions included, a slot hands out NEW exactly once per record it ever held |
| Idempotency.ExactlyOnce | backend/security/idempotency.py:133-205 | without deletions exactly one call is told NEW, every other one replays that run or conflicts exactly on a different fingerprint, and none fails |
| Idempotency.ReplaysExactlyWhenSameRequest | backend/security/idempotency.py:189-205 | a repeated call replays if and only if its parameters mean the same as those on record |
| Idempotency.UninterruptedCall | backend/security/idempotency.py:133-205 | in any run, a call that nobody interrupts reserves the slot or judges the record in it, and changes nothing else |
| Idempotency.DeletedMeanwhile | backend/security/idempotency.py:164-187 | a record deleted between the two inserts lets the second one reserve the slot, unless a rival was faster |
| Idempotency.RecordHoldsTheCompletion | backend/security/idempotency.py:207-231 | in every interleaving, deletions included, a record holds the status and the response of its last completion |
| Idempotency.ReplayTellsTheCompletion | backend/security/idempotency.py:189-205 | whoever is told a replay, in any interleaving, gets the response of the last completion |
| Idempotency.IdempotencyStore.CheckOrReserve | backend/security/idempotency.py:110-205 | an uninterrupted call reserves a free slot or judges the record in it |
| Idempotency.IdempotencyStore.CompleteReservation | backend/security/idempotency.py:207-231 | changes status and response of one slot and nothing else |
| Idempotency.IdempotencyStore.GetRecord | backend/security/idempotency.py:233-253 | returns the record of the slot |
| Idempotency.IdempotencyStore.DeleteRecord | backend/security/idempotency.py:255-271 | removes the record of the slot and says whether there was one |
| AuditChain.SameLastHashSameChain | backend/security/audit.py:74-87 | two verifying chains with the same last hash are the same chain, whatever their lengths |
| AuditChain.TruncationShowsInLastHashOnly | backend/security/audit.py:137-154 | a chain cut short still verifies, and always has another last hash |
| AuditChain.VerifiesByItsEnd | backend/security/audit.py:137-154 | a chain verifies if and only if it does without its last event and that event is linked |
| AuditChain.ChainsVerify | backend/security/audit.py:99-126 | after any interleaving over tenants and threads a tenant's chain verifies, as long as its own calls do not overlap |
| AuditChain.VerifiesExactlyWhenAppendsAreCurrent | backend/security/audit.py:109-126 | however calls overlap, a tenant's chain verifies if and only if no event of it was appended between another call's read of the last hash and its append |
| AuditChain.OverlappingCallsBreakTheChain | backend/security/audit.py:109-126 | two overlapping calls for one tenant leave a chain that does not verify |
| AuditChain.AuditLogger.constructor | backend/security/audit.py:95-97 | an empty log is valid |
| AuditChain.AuditLogger.Log | backend/security/audit.py:99-126 | appends one event linked to the tenant's last one and keeps every tenant's chain verifying |
| AuditChain.AuditLogger.VerifyIntegrity | backend/security/audit.py:133-154 | accepts exactly the verifying chains and otherwise names the first broken event |
| Chunker.FallbackChunk | backend/indexer/ast_chunker.py:89-119 | the window loop ends and computes the specified windows whenever the width exceeds the overlap or one window holds the file |
| Chunker.NeverEnds | backend/indexer/ast_chunker.py:113-117 | for every other setting the loop never ends |
| Chunker.WindowsCoverTheFile | backend/indexer/ast_chunker.py:89-119 | windows hold the lines they name, are no wider than asked, share exactly the overlap with their neighbours, and together give back the file |
| Chunker.BuildPatchContextChunks | backend/indexer/ast_chunker.py:344-384 | the loop with its cache and its set computes the specified consolidation |
| Chunker.ConsolidateOnceEach | backend/indexer/ast_chunker.py:344-384 | each replaceable file appears once and whole, every other chunk passes through in order |
| Chunker.ConsolidatePrefix | backend/indexer/ast_chunker.py:378-382 | a whole file stands where its first fragment stood |
| Chunker.ConsolidateTwice | backend/indexer/ast_chunker.py:344-384 | consolidating twice equals consolidating once |
| QualityGate.Evaluate | backend/qa/judge.py:22-278 | the judge, with its lists, confidence and risk updated on the way, decides as specified |
| QualityGate.PassesExactlyWhen | backend/qa/judge.py:51-264 | PASS if and only if none of the six objective checks failed and the advisory review neither says FAIL nor has a HIGH issue |
| QualityGate.ConfidenceIsCalibrated | backend/qa/judge.py:201-278 | every PASS has a confidence from 0.85 to 0.99, every FAIL at most 0.5, and a FAIL for the review alone exactly 0.4 |
| QualityGate.CategorySaysWhy | backend/qa/judge.py:51-264 | the category names the gravest cause: a lower check, or the review, exactly when none above it failed |
| QualityGate.SeverityFollowsTheCause | backend/qa/judge.py:51-264 | confidence, risk and high issues of a FAIL follow from its category and, for the review, from its issues and the size of the change |
| QualityGate.SkippedChecksCostConfidence | backend/qa/judge.py:201-278 | a PASS starts at 0.95, or at 0.92 and a hundredth for each of up to seven passing tests, loses 0.03 for every skipped check down to 0.85, and its risk is that of the size of the change |
| QualityGate.RunAll | backend/qa/pipeline.py:611-648 | the stages in their order, with nothing executed after a failed security scan |
| QualityGate.SecurityFailureStopsExecution | backend/qa/pipeline.py:625-636 | a failed security scan means no executing stage ran, all three are reported skipped, and the verdict is the security one |
| QualityGate.GateOverThePipeline | backend/qa/pipeline.py:611-648 | pipeline and judge together: PASS if and only if all executing stages ran, none of the six failed and the review does not object |
| QualityGate.RevisedExactlyWhen | backend/graph/nodes.py:986-1007 | after the developer exactly a FAIL of the patch-application category goes to a revision, every other verdict to QA |
| QualityGate.UnusablePatchIsRevised | backend/graph/nodes.py:986-1007 | the verdict on the one check the developer node reports for an unusable patch routes the run to revision |

## Left out

- StoreClients.CheckKeepsFiring: a sufficient condition that callers can keep; `LatchedCheckFiresExactlyWhen` is the exact one, over the same interleavings.
- AuditChain.ChainsVerify: a sufficient condition that callers can keep; `VerifiesExactlyWhenAppendsAreCurrent` is the exact one, over the moments of reading and appending.
- Snapshots.OriginalsAreFromBeforeTheRun: for a file that two recorded paths lead to it says nothing; the first of them still records the original.
- GitWorkspace.PreparingTwiceIsStable: for tracked files, each in one spelling; snippet patches are applied again to files without committed content, whose second preparation is not covered.
- GitWorkspace.PairsAreHeadAndDisk: a file reached in two spellings has two pairs, of which the earlier may end in a text that is no longer on disk.
- DriftCheck.UntouchedPassesExactlyWhen: asks for plain paths; `UnexceptionalPassesExactlyWhen` covers the others without an exceptional file, and both at once are not covered.
- LockThreads.LastReleaseFreesThreadLock: says nothing once the key was recovered; `RecoveryForgetsTheLostLock` shows why.
- RunStore.TelemetryStore.CheckOnce: nobody else writes during the pass; racing watchdogs are the subject of `StoreClients.OneStuckEvent`.
- Collector.TelemetryCollector.OnRunCompleted: which columns a final state fills, and with which costs, is an input; store failures, which the collector swallows, do not happen, and events other than the stuck one are not kept.
- AgentRunner.Runner.StartRun: the collector's read and write of one call are one step here; what others do in between is the subject of `StoreClients`.
- Windows file locks, and platforms without any, where the source treats every attempt as successful.
- Failure to create the lock directory, and the lock file's metadata and the liveness test behind stale recovery: whether an owner is found stale is an input.
- Wall-clock time: a deadline and a staleness threshold are inputs.
- `reset` and the other tables of the telemetry store.
- Reuse of a run id: a run starts from empty values. Resumption of a crashed run re-enters the node it stopped at.
- Tenant access checks, workspace provisioning, status queries and draining of the runner, and two calls for one run at a time in `AgentRunner`.
- Writes to the workspace by test runs between nodes, and files left half written by a process that dies inside a write.
- The hashing of idempotency keys: a slot is an input.
- The content of diff preparation in `RunGraph` beyond files, text and hash: branch names, risk scores and commit messages; creating the feature branch after the drift check.
- Text decoding, line-ending translation, symbolic links and the containment check of paths: paths are resolved by a given function.
- Regular expressions of the additive-request and patch-wrapper detectors, and the deletion fraction: given predicates.
- The tokenizers, vector search, query rewriting and evaluation of retrieval: term lists and result lists are given.
- `ast.parse` chunking of Python files; `fallback_chunk`'s metadata fields.
- JSON encoding and the decoding of cached responses: the response is kept as it was stored, and an unreadable one is not turned into none.
- Redaction of audit details, which differs from telemetry redaction.
- Role tables, policy rules, pricing, analytics, provider fallback, HTTP routes and the user interface.
