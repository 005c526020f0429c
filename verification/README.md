# Stoarama protocols in Dafny

A model of the parts of the repository that must stay right when messages are lost, commands fail or a process
dies half way, and proofs of what they promise. `dafny verify dfyconfig.toml` checks everything.

## Finite staging

`finite-staging.py` drives up to eight workers through submit, run, export, archive and release.
`StagingTypes` holds the values that cross between them. `WorkerProtocol` and `ControllerProtocol` are the atomic
steps of `capability-worker.py` and of the controller on one row, and `StagingSystem` puts them together: queue rows,
every worker's durable job directories, its ACTIVE set and threads, live runners, a multiset of POSTs in flight that
may be handled late or never, the create-only store, and crashes of either side at any point. `StagingInvariant` is one
inductive invariant over all of it; `ControllerSteps`, `WorkerSteps` and `StagingSafety` show every step keeps it.
`StagingTheorems`, `StagingHistory`, `StagingProgress`, `StagingFaults`, `Ledger` and `Readback` draw the consequences.
`StagingLiveness` is the other direction: which steps get a job on, from any state the invariant holds for, up to a whole
undisturbed run that verifies it.

`ControllerHost` and `WorkerHost` are the same code as it runs, classes that update tables and directories in place.
`ControllerCalls` says what their calls come to, by the protocol's functions and, for a dispatch and a pass, by queue
position and worker's turn without them. `ControllerRuns` ties a whole controller call to the invariant: from a state of
the system whose workers would give the replies it got, `reconcile` and the scan of `dispatch` are step lists that end
in the rows the methods leave. `ArtifactExport` is the copy loop of one export.

Two promises hold only in part, and their exact conditions are proved. A crash of the controller between archive and
final update is made good by the next reconciliation, except in the third archive upload: its receipt is lost with the
count spent, and the job is held (`CrashReplays`, with a run that gets there in `StagingExample`). A result that fails a
check of the controller stops its job for good: the row stays submitted and every pass raises the same error
(`StagingFaults`).

Assumed, as the code does: local durable writes are atomic and succeed, admission creates a job directory and its first
`state.json` in one step, and a digest identifies content. Money is exact real arithmetic.

## Verified purge

`PurgeState` says what purging a clip means, `PurgeRun` is the transaction, the halving and the sampled source checks,
`PurgePass` the keyset-paged pass, and `JoinedPurge` the single-clip variant. Store calls, commits and the process may
fail anywhere; the facts of a row may have changed between scan and lock. A key the store does not report as failed is
gone. Any key may be reported as failed, its object then being there or not, and the keys in `stuck` always are. What goes
wrong is an argument of the run, `faults`: with none of them every contract says what an undisturbed run comes to.

One promise fails and its exact condition is proved: each clip of a committed batch gets exactly one disposition unless
failed deletes reach `--max-errors` with a failed or purged clip still unlogged. `Report` gives the condition and
`AbortLosesPurged` a batch of two that is purged in part and leaves no entry for the purged clip.

That a rerun reaches the same state needs sources whose bytes match their rows (`SoundClips`), because which sources are
hashed depends on a running count.

## Structure screen

`BoxWalk` is the header-only walk against a parser that has the whole file, and the parser against files written box by box
in each of the three size forms; `ScreeningSweep` is the checkpointed sweep that walks each source and commits what it found.
Neither the walk nor the parser looks at the extended type of a `uuid` box. A parser that does, as ISO/IEC 14496-12
section 4.2 asks, agrees with them exactly if no box up to the deciding one is a `uuid` box too short for its type.

## Relay replacement

`LaunchdModel` is launchd as `service.go` meets it: every command, probe, lock and file step may fail, a job told to
leave goes some time later, and a load whose command was given up on after five seconds may still happen.
`LaunchdService` is the code, proved against that model; `LaunchdSafety` says what it keeps. All of it starts from at most
one relay, loaded or about to be, of the plist on disk.

Two promises fail and their exact conditions are proved. An installation or a handoff leaves such a state for good unless
its rollback puts a different definition back over a candidate that loads late (`InstallIsSafe`, `HandoffRestoreIsSafe`;
`LateLoadBreaksInstall` is a run that ends with a relay and no plist). A handoff also needs that no relay is loaded in
the other domain as it begins (`HandoffIsSafe`; `HandoffAfterMove` is an uninstallation and a user-domain installation
between scheduling and running, which ends with two relays).

`YtdlpDist` is the versioned yt-dlp directory with its two links, each step ending as its argument says; after a crash between the two link renames `previous`
names the same release as `current` until the next update.

## Model

| member | source | states |
|---|---|---|
| StagingTheorems.OneWorkerAdmits | infra/collation-v2/finite-staging.py:354-393 | over any run, with lost or late POSTs and crashes on either side, a job gets a directory on at most one worker, the row's |
| StagingTheorems.QueuedIsUntouched | infra/collation-v2/finite-staging.py:381-389 | a queued job, refused before or not, has no POST in flight, no directory on any worker and no submission counted |
| StagingTheorems.RequeuedByRefusal | infra/collation-v2/finite-staging.py:381-390 | a submitted row returns to the queue only on a 409, 503 or 507 to its sole uncertain POST, with nothing in flight and nothing admitted |
| StagingTheorems.IntentsBound | infra/collation-v2/finite-staging.py:354-379 | POSTs in flight never exceed unrefunded submissions; submissions, exports and archive uploads are at most 3 each, and export runs never exceed counted intents |
| StagingTheorems.AttemptLockstep | infra/collation-v2/finite-staging.py:264-281 | the owning worker is absent at attempt 1, at the row's attempt, or one behind in failed/worker_restarted |
| StagingTheorems.NoFault | infra/collation-v2/finite-staging.py:264-351 | `remote_media_attempt_differs` and `remote_readback_accounting_differs` are unreachable; once an export was asked for no reconciliation check can fail |
| StagingTheorems.OneSubmittedPerWorker | infra/collation-v2/finite-staging.py:532-540 | `multiple_jobs_per_worker` is unreachable |
| StagingTheorems.ExecutedAtMostOnce | infra/collation-v2/capability-worker.py:14-28 | each (job, attempt) is executed at most once, only attempts 1 to 3 are, so at most three per job |
| StagingTheorems.RepeatIsHarmless | infra/collation-v2/capability-worker.py:134-141 | once an attempt was admitted the same `/job` POST, whenever it comes again, admits nothing, changes neither directory nor ACTIVE, and on a ready worker is answered 200 |
| StagingTheorems.ActiveIsOneJob | infra/collation-v2/capability-worker.py:65-74 | ACTIVE never holds two jobs, and on a running worker a live runner's job is the one in it |
| StagingTheorems.NoMediaLost | infra/collation-v2/capability-worker.py:154-168 | each file a runner left for an output of a staged result is on the worker's disk as it was, or the output is in the store; one left with its declared size and digest is in one of the two with exactly these |
| StagingTheorems.ReleasedIsKept | infra/collation-v2/finite-staging.py:323-351 | a released job stays released, its archive receipt for that attempt and its receipt document are durable, and the store holds every output from then on |
| StagingTheorems.ReceiptIsFinal | infra/collation-v2/finite-staging.py:330-343 | an archive receipt once committed is never replaced by a different one |
| StagingTheorems.VerifiedIsComplete | infra/collation-v2/finite-staging.py:344-351 | a staged_verified row was released and its result is the receipt of all outputs, with their count, their bytes within the export cap, all in the store |
| StagingTheorems.TerminalIsFinal | infra/collation-v2/finite-staging.py:248-393 | `held*` and `staged_verified` rows never change again |
| StagingTheorems.ReceiptsAccounted | infra/collation-v2/finite-staging.py:323-327 | the receipts an export run writes always pass the controller's readback accounting, given unique keys |
| StagingSafety.StepHolds | infra/collation-v2/finite-staging.py:248-393 | every step of controller, worker, network, crash or restart keeps the invariant tying row, calls, POSTs, directories and store |
| StagingSafety.RunHolds | infra/collation-v2/finite-staging.py:248-419 | the invariant holds at every point of every run |
| StagingSafety.DeliverHolds | infra/collation-v2/capability-worker.py:112-168 | a POST handled at any time, awaited or long given up on, keeps the invariant |
| StagingSafety.RestartHolds | infra/collation-v2/capability-worker.py:65-74 | the start-up scan of a restarted worker keeps the invariant |
| StagingSafety.CutHolds | infra/collation-v2/capability-worker.py:154-168 | a worker crash in the middle of unlinking a released job's files keeps the invariant |
| StagingHistory.RunLater | infra/collation-v2/finite-staging.py:248-393 | along a run stored objects, receipts and documents only grow, results never change, terminal rows stay, execution counts never fall |
| WorkerSteps.WorkKeeps | infra/collation-v2/capability-worker.py:14-86 | each step of the execute, recover and export threads, and a runner ending, keeps the job's invariant |
| WorkerSteps.AdmitKeeps | infra/collation-v2/capability-worker.py:136-143 | an admission keeps it: only the row's attempt is admitted, and only where the previous one was interrupted |
| WorkerSteps.ReleaseKeeps | infra/collation-v2/capability-worker.py:154-168 | an accepted release removes files only of a job whose receipt is durable |
| ControllerSteps.ReconcileKeeps | infra/collation-v2/finite-staging.py:248-351 | whatever the worker's reply, possibly stale by then, the reconciliation's commit keeps the job's invariant |
| ControllerSteps.RefundKeeps | infra/collation-v2/finite-staging.py:381-390 | refunding a refused submission keeps it |
| StagingProgress.StepCounts | infra/collation-v2/finite-staging.py:248-393 | a step leaves a row as it is exactly if it is not one of this row's commits or its reconciliation waits, replays or raises; every other step uses up potential, refunds one refused submission, or writes the kept receipt to the results file |
| StagingProgress.ReconcileStalls | infra/collation-v2/finite-staging.py:248-351 | a reconciliation leaves the row as it is exactly if the worker is at work, not idle or short of a source, the kept archive receipt matches, or a check raises |
| StagingFaults.FaultExactly | infra/collation-v2/finite-staging.py:286-307 | in a run a reconciliation raises exactly if no export was asked for yet and the result read for the row's own attempt fails a check, and then with the first check it fails |
| StagingFaults.FaultRepeats | infra/collation-v2/finite-staging.py:286-307 | once a reconciliation has raised, the row stays submitted and unchanged for ever and every later reconciliation of it raises the same error |
| StagingProgress.WorkIsBounded | infra/collation-v2/finite-staging.py:248-393 | in any run a job's potential goes down at most eleven times more often than it is refunded; steps that write nothing are those StepCounts lists |
| StagingProgress.CrashReplays | infra/collation-v2/finite-staging.py:323-351 | wherever the controller crashed, one undisturbed reconciliation of a delivered job verifies it with the receipt of its outputs, the kept one if there is one, if and only if a receipt is kept or fewer than three uploads were counted; otherwise the job is held for its receipt |
| StagingProgress.ReplayCompletes | infra/collation-v2/finite-staging.py:323-351 | from an idle controller and a receipt kept or an upload left, one reconciliation completes a delivered job |
| StagingProgress.ReplayExhausted | infra/collation-v2/finite-staging.py:334-341 | with no receipt kept and the third upload spent, the next reconciliation of a delivered job holds it for its receipt, whatever the worker answers |
| StagingExample.ThirdUploadLost | infra/collation-v2/finite-staging.py:334-346 | a run from the empty queue that loses its third upload: delivered, no receipt kept, no upload left |
| StagingLiveness.UndisturbedJobVerifies | infra/collation-v2/finite-staging.py:248-419 | from any state with the invariant, a queued job given to a free worker is verified with the receipt of its outputs if its runner exits cleanly with an acceptable result whose files are on disk and the store holds nothing else under their keys |
| StagingLiveness.InterruptedRunsAgain | infra/collation-v2/finite-staging.py:278-281 | a submitted row whose worker is idle and failed/worker_restarted at the row's attempt, with attempts and submissions left, is reconciled and posted so that the worker admits the next attempt and the row is submitted at it |
| StagingLiveness.LostIsSentAgain | infra/collation-v2/finite-staging.py:257-277 | a submitted row whose worker has no directory, or one an attempt behind, is posted again as the same attempt and admitted |
| StagingLiveness.ExecutionEnds | infra/collation-v2/capability-worker.py:14-28 | an admitted attempt runs to its end and frees the worker: staged only after exit code zero with a result, media_failed after any other code, execution_failed without a result; exit record and files are kept |
| StagingLiveness.RecoveryEnds | infra/collation-v2/capability-worker.py:41-63 | after a crash with a live runner its result decides once it has ended: staged if it passes the checks, held in ACTIVE if it fails them, worker_restarted without one |
| StagingLiveness.ResultsAreRunners | infra/collation-v2/capability-worker.py:14-63 | in any step a directory gets a result only by a clean exit or a recovery that checked it, and it is the one the runner of that attempt wrote |
| StagingLiveness.ExportBegins | infra/collation-v2/finite-staging.py:286-321 | a staged result, or one whose export failed, that passes every check is exported from the first output, with one more intent counted |
| StagingLiveness.CopiesAll | infra/collation-v2/capability-worker.py:76-86 | the export thread, undisturbed over a store that holds nothing else under the keys, ends exported with every receipt verified, every output stored and the worker free |
| StagingLiveness.HoldsExactly | infra/collation-v2/finite-staging.py:248-351 | for each terminal state, a reconciliation puts the row there if and only if the reason holds that the source gives, written out; otherwise the row stays submitted |
| Ledger.Budget | infra/collation-v2/finite-staging.py:153-211 | the row loop computes the transfer charge, the sum of every dispatched row's reservation or verified bytes times exports |
| Ledger.LedgerCoversExports | infra/collation-v2/finite-staging.py:184-197 | in every reachable state the transfer term pays for every byte all export runs have PUT |
| Ledger.RowCovered | infra/collation-v2/finite-staging.py:188-194 | each row's charge covers what its exports PUT; a held row exported nothing |
| Ledger.FinishReserve | infra/collation-v2/finite-staging.py:188-194 | switching from the reservation to verified bytes times exports never raises the charge |
| Ledger.OnlyDispatchReserves | infra/collation-v2/finite-staging.py:412-416 | only a dispatch raises a row's charge, from zero to exactly its reservation |
| Readback.AccountedIsPermutation | infra/collation-v2/finite-staging.py:323-327 | with unique keys the check passes exactly for receipts that are all verified and a permutation of the manifest |
| Readback.AccountedBytes | infra/collation-v2/finite-staging.py:214-245 | accepted receipts carry exactly the manifest's count and bytes |
| ControllerHost.StagingQueue.Submit | infra/collation-v2/finite-staging.py:354-393 | a whole submit: bounded count, probes, intent before the POST, refund on 409, 503 and 507 only, how it ends, and that the row is deferred exactly after missing sources or such a refusal |
| ControllerHost.StagingQueue.Reconcile | infra/collation-v2/finite-staging.py:248-351 | a whole reconcile changes the one row to what its replies make of it, defers it exactly if it asked for a submission that was put off, and does nothing to a deferred row |
| ControllerHost.StagingQueue.Export | infra/collation-v2/finite-staging.py:293-321 | the export branch: no outputs holds the row, cap, names and proofs checked, three intents at most |
| ControllerHost.StagingQueue.Archive | infra/collation-v2/finite-staging.py:323-343 | a matching receipt is reused, else at most three uploads are counted and a confirmed one is committed |
| ControllerHost.StagingQueue.Deliver | infra/collation-v2/finite-staging.py:323-351 | archive, results file, release and final update in that order, as far as the replies let it get |
| ControllerHost.StagingQueue.Select | infra/collation-v2/finite-staging.py:400-400 | exactly the eligible rows in queue order, each once |
| ControllerHost.StagingQueue.Dispatch | infra/collation-v2/finite-staging.py:396-419 | told by queue position: the scan goes on past every row that is incomplete, failing, out of submissions, short of a source or refused, and ends at the first other one; each row it gets to becomes exactly what screening, ledger, probe and reply make of it, the one that passes, fits under 90 and is not refused becomes submitted to this worker, and no other row is touched |
| ControllerHost.StagingQueue.Visit | infra/collation-v2/finite-staging.py:532-540 | a worker's turn: its one submitted row becomes what its replies make of it, a worker without one gets a whole dispatch while the bound is below 90, and two submitted rows stop the turn |
| ControllerHost.StagingQueue.Pass | infra/collation-v2/finite-staging.py:523-540 | every worker gets its turn in order, each from where the last one left the tables; a pass over at most 8 workers admits at most one job per worker, leaves bound plus all new reservations below 93.38625, and raises the transfer charge of any set of rows by no more than these reservations if what it reconciles is within the export cap |
| ControllerHost.PassBound | infra/collation-v2/finite-staging.py:412-416 | up to eight admissions against one start-of-pass bound stay under the hard stop of 94 |
| ControllerHost.ReconcileStays | infra/collation-v2/finite-staging.py:248-351 | reconciliation never requeues a row that was at attempt one or more, nor changes its source size |
| ControllerRuns.ReconcileIsRun | infra/collation-v2/finite-staging.py:248-351 | a whole reconcile call whose replies are the worker's is a list of protocol steps that ends idle with this row as the call leaves it and every other as it was |
| ControllerRuns.ScanIsRun | infra/collation-v2/finite-staging.py:396-419 | the whole scan of a dispatch call is a list of protocol steps that ends idle with the table the call leaves |
| ControllerRuns.ReconcileKeepsInvariant | infra/collation-v2/finite-staging.py:248-351 | the table a reconcile call leaves is that of a state the invariant holds for |
| ControllerRuns.DispatchKeepsInvariant | infra/collation-v2/finite-staging.py:396-419 | the same for the table a dispatch call leaves |
| ControllerRuns.ReachableFits | infra/collation-v2/finite-staging.py:184-197 | where the invariant holds, what a reconciliation reads or has kept is within the export cap and the three exports, as the charge of a pass needs |
| WorkerHost.WorkerProcess.HandleJob | infra/collation-v2/capability-worker.py:124-143 | 202 exactly for a first attempt or the one after a failure on a ready, idle worker; anything else changes no directory and no ACTIVE; an admission keeps runners, exits and files and leaves ACTIVE with one job |
| WorkerHost.WorkerProcess.HandleExport | infra/collation-v2/capability-worker.py:144-153 | 202 exactly for a staged or failed export with distinct keys on an idle worker, of the same attempt and result; 200 exactly while it is under way or done; anything but 202 changes nothing |
| WorkerHost.WorkerProcess.HandleRelease | infra/collation-v2/capability-worker.py:154-168 | 200 exactly for a released job, or an exported one on an idle worker with a verified receipt for every output and only removable paths; then no output is left on disk, and whatever the answer nothing but outputs of the job's own attempt is removed and only the state becomes released |
| WorkerHost.WorkerProcess.RecoverOrphans | infra/collation-v2/capability-worker.py:65-74 | after a restart exactly the accepted, running and recovery-held jobs are in ACTIVE, each with one recover thread, interrupted exports are marked for a retry, and nothing else changes |
| ArtifactExport.Identify | infra/collation-v2/capability_export.py:32-42 | size and digest exactly when the stream is within the limit, whatever the read sizes; never more than limit plus one bytes read |
| ArtifactExport.ObjectStore.Copy | infra/collation-v2/capability_export.py:60-103 | one output succeeds exactly if the key and the local file check out, the PUT was answered 200, 201, 412 or not at all, and the full readback gives its size and digest; the store gains at most the checked file |
| ArtifactExport.ObjectStore.Export | infra/collation-v2/capability_export.py:45-104 | the run succeeds exactly when all outputs are copied; receipts are then the manifest's, every output is stored with its identity, and success or not the store only gains checked artifacts |
| ArtifactExport.RetrySucceeds | infra/collation-v2/capability_export.py:85-92 | over a store that agrees with the disk, however earlier runs were interrupted, a run whose PUTs are answered 412 for a key already stored and 200 or 201 for a new one, or not at all, succeeds exactly for correct local artifacts |
| PurgeState.ScanAgreesWithLock | backend/cmd/stoaramactl/nas_verified_purge.go:361-370 | the scan skips exactly the clips the locked re-check of all fourteen facts refuses |
| PurgeState.BatchIsEach | backend/cmd/stoaramactl/nas_verified_purge.go:811-894 | a transaction over distinct clips has the rows, objects and fates of one transaction per clip |
| PurgeState.OthersKeepObjects | backend/cmd/stoaramactl/nas_verified_purge.go:811-894 | with one row per object key, a row outside the scan, purged, vetoed by the trigger or with any one of the fourteen facts false keeps its row and its object |
| PurgeState.TargetStays | backend/cmd/stoaramactl/nas_verified_purge.go:801-809 | an interruption between any durable writes does not change where an undisturbed run ends |
| PurgeRun.NasPurger.DeleteEach | backend/cmd/stoaramactl/nas_verified_purge.go:865-868 | any superset of the stuck keys may be reported as failed; every other key is gone, no other object is touched, and it may break off having deleted some |
| PurgeRun.NasPurger.PurgeBatch | backend/cmd/stoaramactl/nas_verified_purge.go:811-894 | the write path, for any set of keys reported as failed: exactly the still valid clips not reported are purged, refusal comes before any delete; broken off anywhere it has done part of purging each clip by itself and marked none whose object remains |
| PurgeRun.NasPurger.PurgeSplitting | backend/cmd/stoaramactl/nas_verified_purge.go:741-787 | halving on refusal terminates and, unless a transaction breaks off, a delete fails that need not or the run stops, equals purging each clip by itself, each clip getting exactly its own disposition |
| PurgeRun.NasPurger.Report | backend/cmd/stoaramactl/nas_verified_purge.go:766-786 | each clip of a committed batch gets exactly one disposition if and only if failed deletes stay under the error limit, or reach it with the last failure and nothing purged; no purged clip is logged once the run stops |
| PurgeRun.AbortLosesPurged | backend/cmd/stoaramactl/nas_verified_purge.go:766-786 | a batch of two, one undeletable, with an error limit of one: the other is purged and gets no entry |
| PurgeRun.NasPurger.HeadBatch | backend/cmd/stoaramactl/nas_verified_purge.go:635-687 | which sources are read depends only on the running count and mode; what a reachable one tells is the truth about the stored object; undisturbed every one is reached |
| PurgeRun.HashedEvery | backend/cmd/stoaramactl/nas_verified_purge.go:635-687 | the first source and every `shaEvery`th after it are hashed in full, for a rate of one too, and none for zero |
| PurgeRun.NasPurger.Screen | backend/cmd/stoaramactl/nas_verified_purge.go:689-724 | a clip whose source is unreachable, of the wrong size or of the wrong digest is never passed on and gets exactly that entry; every other is passed on; the batch stops exactly at the error limit |
| PurgeRun.NasPurger.ProcessBatch | backend/cmd/stoaramactl/nas_verified_purge.go:689-737 | every clip of a batch gets exactly one disposition unless the run is interrupted or stops; a read source that differs from its row in size or digest keeps its object, and its row stays unmarked; a dry run changes nothing; undisturbed with nothing stuck it goes on without an error |
| PurgePass.LoadPage | backend/cmd/stoaramactl/nas_verified_purge.go:453-485 | the next candidates by id, all of them up to the last one on the page, empty exactly when none is left |
| PurgePass.ScanPage | backend/cmd/stoaramactl/nas_verified_purge.go:576-612 | one page: every candidate disposed of once before the resume point may move, Eligible and EligibleBytes count exactly the candidates that pass, limits never exceeded and a stop only when the next clip does not fit; undisturbed with nothing stuck it is all settled |
| PurgePass.ScanOne | backend/cmd/stoaramactl/nas_verified_purge.go:573-602 | one candidate: skipped with the first of the sixteen reasons in the source's order, or over the limits, or counted and logged or queued, exactly |
| PurgePass.RunPass | backend/cmd/stoaramactl/nas_verified_purge.go:517-623 | however the pass ends every candidate up to LastClipID has exactly one disposition, Eligible and EligibleBytes stay within the limits, only selected clips are touched, and a committed `purged_at` still means the object is gone; if it finishes, the dispositions are those of one full scan; undisturbed with nothing stuck and no limits it finishes clean |
| PurgePass.PurgeAfterInterruption | backend/cmd/stoaramactl/nas_verified_purge.go:801-809 | after a run that ended anywhere, with any deletes failed, no committed row has its object left, and another run from the start or the resume point, undisturbed, ends in the rows and objects of a run never interrupted; with no faults, no limits and nothing stuck the second run is such a one |
| PurgePass.TargetExactly | backend/cmd/stoaramactl/nas_verified_purge.go:517-623 | an undisturbed run marks a row exactly if its id is in range, it is in scope, all fourteen facts hold, neither recording nor clip is excluded, the trigger does not veto it and its delete does not fail; its object is then gone |
| PurgePass.ProtectedStays | backend/cmd/stoaramactl/nas_verified_purge.go:517-623 | a row that any of these protects keeps its mark and its object through any run |
| PurgePass.LaterScan | backend/cmd/stoaramactl/nas_verified_purge.go:552-623 | a resumed scan selects nothing new and misses only what is settled below the resume point or purged |
| PurgePass.TwoRuns | backend/cmd/stoaramactl/nas_verified_purge.go:552-623 | two runs, the second from a point below which nothing was left, together reach the target of the first |
| PurgeRun.FatesApart | backend/cmd/stoaramactl/nas_verified_purge.go:766-786 | changed, failed and purged partition a batch the trigger accepts |
| JoinedPurge.JoinedPurger.PurgeClip | backend/cmd/stoaramactl/joined_source_purge.go:571-632 | the single-clip write path purges exactly a present, unmarked, unchanged, eligible row with its NAS copy where required, if nothing breaks off; else the first failing check is named and nothing changed, or row and object are as far as it got |
| JoinedPurge.RerunCompletes | backend/cmd/stoaramactl/joined_source_purge.go:564-570 | wherever a single purge breaks off no committed row has an object left, and a second attempt reaches the same state |
| JoinedPurge.JoinedPurger.VerifyMedia | backend/cmd/stoaramactl/joined_source_purge.go:519-545 | each media object is asked about once per run and its verdict kept; the verdict is good exactly if HEAD and size agree and, for every `shaEvery`th, the full read and digest do; a digest mismatch stops the run once |
| JoinedPurge.JoinedPurger.Process | backend/cmd/stoaramactl/joined_source_purge.go:385-504 | a clip is purged exactly if every rule holds, its media was found good in this run, a source still there has the recorded size and nothing breaks off; errors stop the run at `maxErrors` |
| BoxWalk.Screen | infra/collation-v2/source-screen.py:25-44 | at most 32 reads at strictly increasing positions inside the object; a definite verdict is the full parser's, and undisturbed it is definite exactly when fewer than 32 boxes come before the deciding one |
| BoxWalk.ParseMeans | infra/collation-v2/source-screen.py:25-44 | the full parser's verdict is right exactly when some end-to-end list of well-formed boxes decides it (ISO/IEC 14496-12, section 4.2) |
| BoxWalk.WrittenIsRead | infra/collation-v2/source-screen.py:34-41 | a box written with a 32-bit size, a 64-bit size or up to the end of the file is read back with its kind, header and length, whatever surrounds it |
| BoxWalk.FileVerdict | infra/collation-v2/source-screen.py:25-44 | a file written as such boxes has a structure exactly if one of them is `moov` |
| BoxWalk.HeaderIsEnough | infra/collation-v2/source-screen.py:34-41 | sixteen bytes tell the same box, or the same defect, as the whole file |
| BoxWalk.StrictAgrees | infra/collation-v2/source-screen.py:25-44 | a parser that also reads the type of `uuid` boxes gives the same verdict if and only if no box up to the deciding one is too short for it |
| BoxWalk.ShortUuidPasses | infra/collation-v2/source-screen.py:34-42 | an empty `uuid` box before `moov` passes the walk and is malformed by ISO/IEC 14496-12 section 4.2 |
| ScreeningSweep.Sweep.Collect | infra/collation-v2/source-screen.py:63-70 | the next up to 1000 unsettled public sources with their lines; every other public source passed is settled |
| ScreeningSweep.Sweep.Run | infra/collation-v2/source-screen.py:53-80 | wherever the sweep dies every public source before the committed position has its row, no result is lost, and all results but those since the last sixteenth are committed: the last row of each clip says present, absent or hold as the walk of its object found, which is the full parser's verdict where definite; at the end of the file all public sources have rows |
| ScreeningSweep.CoveredThrough | infra/collation-v2/source-screen.py:46-50 | at a checkpoint all public sources up to the line of the last result have rows |
| LaunchdSafety.InstallIsSafe | backend/cmd/stoarama-relay/service.go:109-181 | with no load pending as it begins, an installation ends for good with at most one relay, of the plist on disk, however its rollback goes, if and only if it does not roll back to a different definition over a candidate that loads late |
| LaunchdSafety.InstallSafe | backend/cmd/stoarama-relay/service.go:109-181 | an installation that wrote the plist only with nothing loaded or pending ends so, and if it succeeded runs the candidate; one that refuses has changed nothing |
| LaunchdSafety.LateLoadBreaksInstall | backend/cmd/stoarama-relay/service.go:162-168 | a first installation whose load comes through after the rollback: a relay runs without a plist |
| LaunchdSafety.RollbackIsSafe | backend/cmd/stoarama-relay/service.go:163-176 | rolling back to another definition is safe whatever happens if and only if nothing is loaded and nothing may still be |
| LaunchdSafety.RestoreIsSafe | backend/cmd/stoarama-relay/service.go:183-191 | restoring a prior definition is safe whatever happens if and only if no relay is loaded in any domain and only this very definition may still load |
| LaunchdSafety.WriteIsSafe | backend/cmd/stoarama-relay/service.go:152-158 | a new definition on disk is consistent for good if and only if no relay is loaded or may still be |
| LaunchdSafety.HandoffIsSafe | backend/cmd/stoarama-relay/service.go:731-784 | late loads apart, a handoff is safe whatever fails if and only if no relay is loaded in the other domain as it begins |
| LaunchdSafety.HandoffRestoreIsSafe | backend/cmd/stoarama-relay/service.go:757-775 | with no relay in the other domain, a handoff is safe however it restores if and only if it does not restore a different definition over a candidate that loads late |
| LaunchdSafety.HandoffAfterMove | backend/cmd/stoarama-relay/service.go:752-762 | a relay moved to the user domain before the handoff runs holds the run lock; the handoff's restore ends with two relays loaded |
| LaunchdService.Launchd.RemoveJob | backend/cmd/stoarama-relay/service.go:827-865 | success means the job is gone; nothing is loaded and no definition changed whatever happens |
| LaunchdService.Launchd.BootstrapRelay | backend/cmd/stoarama-relay/service.go:193-221 | with nothing loaded or pending before, afterwards at most this job is or may be, from the plist on disk, for good, and surely if it succeeded |
| LaunchdService.Launchd.RestorePrior | backend/cmd/stoarama-relay/service.go:183-191 | with nothing loaded and at most this load pending, the prior plist is put back and is the only definition that may run |
| LaunchdService.Launchd.RecoverPrior | backend/cmd/stoarama-relay/service.go:252-280 | after a failed removal the prior job is restarted or reloaded; with no load pending and no relay in the other domain at most this one stays, of the plist on disk |
| LaunchdService.Launchd.Install | backend/cmd/stoarama-relay/service.go:109-181 | the code does the steps of the model in order; it ends consistent for good if it wrote the plist only in an idle world, which without late loads it always does; the plist is the prior one or the candidate |
| LaunchdService.Launchd.Handoff | backend/cmd/stoarama-relay/service.go:731-784 | the same for the handoff if no relay was loaded in the other domain when it began |
| LaunchdService.Launchd.Uninstall | backend/cmd/stoarama-relay/service.go:550-577 | the plist is removed only after every relay has gone, and a failure leaves it in place |
| YtdlpDist.DistRoot.Unpack | backend/cmd/stoarama-relay/ytdlp_dist.go:167-207 | it succeeds exactly if the build unpacks, starts and no step fails; a release directory appears only complete, marked and of a build that starts; other releases and both links are untouched, wherever it stops |
| YtdlpDist.DistRoot.Activate | backend/cmd/stoarama-relay/ytdlp_dist.go:271-282 | succeeds exactly if its link steps do; previous is set to the different old release before current is switched, and no crash between leaves an unready link |
| YtdlpDist.DistRoot.Prune | backend/cmd/stoarama-relay/ytdlp_dist.go:302-331 | neither link's target is removed, everything else removable is, staging only when stale; nothing if the directory cannot be read |
| YtdlpDist.DistRoot.Install | backend/cmd/stoarama-relay/ytdlp_dist.go:130-156 | up to date exactly if the ready current is the requested release, updated exactly if no needed step fails, and then current is it and previous the different one it replaced; a build that does not start is never installed; no step or crash turns a ready current unready |

## Left out

- `/source`, GET routes, request signing, JSON and gzip, provider calls, pausing machines: no part in the protocol.
- Machine, storage and request charges of the ledger: one arbitrary amount, fixed within a pass.
- `must_pause`, the drain timer and the disk-floor handling that stops the whole controller.
- Deferral times: a deferred row is skipped by reconciliation and dispatch until something outside clears it.
- The crash window between creating a job directory and its first state file, and failing local writes.
- `/export`'s check that the capabilities are for exactly the manifest's outputs: the controller never sends others.
- `/ready` probes, source HEADs and structure screening results are arbitrary answers.
- StagingSystem's store steps: objects and documents may appear at any time, which also covers other jobs' writes and late PUTs.
- The `execute`, `recover_execution` and `export_job` threads are modelled as steps on values, because they interleave with handlers; aliasing of `state.json` between threads is not captured.
- NAS purge: rate limit, elapsed time, the summary's purged and per-reason counters, `source_already_absent` notes and the JSONL format; a digest mismatch is one disposition here although it also writes an error line.
- NAS purge: several HEADs in parallel are done one after another.
- PurgePass.RunPass: rows change only by the purge itself during a pass; changes by others are covered per batch, by PurgeRun.NasPurger.PurgeBatch.
- Joined purge: the paging loop, the eligible limit, counters and logging, which repeat the NAS pass without a resume point; an error after an interruption counts like any other.
- Screening: the `complete` flag, the 5 GiB floor and the status file.
- LaunchdService.Launchd.Handoff: promises consistency only if every write met an idle launchd, because LaunchdSafety.HandoffIsSafe and LaunchdSafety.HandoffRestoreIsSafe show exactly where it fails otherwise; cleaning up the helper job is not modelled.
- LaunchdService.Launchd.Install: the same, by LaunchdSafety.InstallIsSafe.
- systemd units, scheduling of the handoff, and rendering of plists.
- yt-dlp: download, zip extraction limits and the version check are one outcome; a partly failed directory removal counts as none or whole.
- `heartbeat.go` outage log, `cloud-control.py`, `prepare-cloud-state.py`, `selfupdate.go`, flag parsing, reports and dashboards: they would add only easy members.
