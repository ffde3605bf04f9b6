# vram-governor: verified protocols

A Dafny model of the stateful protocols of vram-governor, a Go controller that schedules GPU work, and of three
smaller decision procedures it relies on. Check it with `dafny verify dfyconfig.toml`.

| files | part of the system |
|---|---|
| `HarnessModel`, `HarnessInvariant`, `HarnessTheorems`, `HarnessProgress`, `HarnessContracts`, `HarnessLifecycle`, `HarnessExamples`, `HarnessPayloads`, `HarnessLoader`, `HarnessServer` | the managed Comfy harness: chunked submission, yield, checkpoint, resume, cancel, the state journal, restart recovery, shutdown |
| `JobQueueModel`, `JobQueueInvariant`, `JobQueueTheorems`, `JobQueueDispatch`, `JobQueueOutcomes`, `JobManager` | the work queue: leases, dispatch, retry across workers, the reaper, pause and cancel |
| `ProofJournal`, `ProofJournalTheorems`, `ProofJournalVerdicts`, `ProofServer` | the replay journal of checkpoint proofs |
| `Evidence`, `NodeCommands`, `NodeCommandTheorems`, `NodeCommandContracts`, `NodeCommandStore` | durable node commands: compare-and-swap rows, uncertainty, settlement from evidence |
| `Observer`, `ObserverPaths` | the GPU observer's caller policy, and what its tests of paths mean |
| `Capabilities`, `AdapterPlans` | capacity inheritance and capability merging |
| `SlotTotals` | the slot totals of a model listing |

## How the model is built

Each protocol has a value-level state, one step function per critical section of the program, and runs that are
arbitrary lists of events. An event that is not enabled changes nothing, so a theorem about every event list is
a theorem about every interleaving. Beside it stands a class with the program's own fields, whose methods change
them in place, statement by statement, persist, and roll back when a write fails; each is proved equal to the step
the theorems are about. A row of the harness is an entry of a map field, replaced field by field. What each operation
promises its caller (which reply means what, which outcome leaves which row, and what is then on disk) is stated
separately, without the step functions, and the methods ensure that as well (`HarnessContracts`,
`JobQueueDispatch`, `JobQueueOutcomes`, `ProofJournalVerdicts`, `NodeCommandContracts`).

What lies outside the program is an argument of the step: HTTP replies, worker outcomes, clock readings, random
identities and choices, the result of a file write. A write has three outcomes: durable, failed before the
rename, failed after it. The set of file contents a crash may leave is part of the state, and a crash is an
event like any other.

Assumptions about the environment, each stated in the step or event it concerns:

- Comfy never repeats a prompt id; random execution ids, job ids and checkpoint references are new.
- A polled Comfy record is valid JSON and belongs to the polled prompt.
- The payload digest, the JSON validators, signatures, fingerprints, case folding and trimming are arbitrary
  functions; encoding and decoding a file are inverse to each other, with an arbitrary size function.
- The clock never reads the zero time.

## What is true, and what is not

- Each (idempotency key, chunk) reaches Comfy at most once, over all crashes and failed writes
  (`EachChunkPostedOnce`). The converse is `UntroubledRunCompletes`: when no write is lost and Comfy answers, each
  chunk is sent once, in order, and the execution completes, if and only if every file it writes fits the byte limit
  and, while a chunk remains, its output map is not nil.
- The output map of a row can be nil. A rollback copies the row through JSON, which omits an empty map and decodes it
  as nil (`internal/comfyharness/server.go:87`, `internal/comfyharness/server.go:1378-1391`). The next output is then
  stored into a nil map with the lock held (`internal/comfyharness/server.go:724`); the panic runs the deferred exit
  of the goroutine, which waits for that lock (`internal/comfyharness/server.go:636`), and the process hangs until it
  is killed. `NilOutputsHang` is such a run, `StuckForGood` what follows, and `BareBeforeFirstOutput` the reach of it:
  only an execution without outputs is affected.
- Every file the harness can leave reloads. For an arbitrary file the loader accepts this is false: the rewritten
  file is accepted again exactly when no yielded or checkpointed row still carries a submission or a prompt
  (`AcceptedFileReloads`; `EntangledFileIsLost` is a file of the other kind). A reused Comfy prompt id makes the
  harness write a row it cannot load (`CommitLoadsIffFreshPrompt`, with `ReusedPromptIsLost`).
- The calls pending on a worker are one for each item in flight on it and those whose lease has ended. On runs without
  lease expiry or re-registration there are none of the latter, and slots bound calls (`SlotsNeverLeak`). Either can
  break the bound: `ExpiryOvercommits` and `RejoiningOvercommits` are runs in which it does.
- A proof is freshly admitted at most once from any starting journal. The reload guarantee needs an empty or a
  v2 start: after a legacy start one admission makes the next restart fail closed (`LegacyStartFailsClosed`),
  and a written file reloads exactly when every nonce carries an admission time (`WrittenFileReloadsIffStamped`).
- A repeated proof is a refresh only for a session this process has entered that nonce for since it started
  (`RefreshMeansEntered`), never after a restart (`RestartForgetsSessions`). Two things that would be expected are false.
  The entry of a session survives a lost write (`internal/api/ws.go:147-168` does not remove it), so the session may be
  refreshed though its own proof was never admitted, if another session's was: `EnteredIsNotAdmitted`. And a refresh is
  not tied to the exact proof, as the comment at `internal/api/ws.go:96-98` has it, but to target, nonce and session:
  `RefreshedIff` is the exact condition, `RefreshNamesOnlyTheNonce` what follows.
- A session entry is for one session and one nonce, and goes with its nonce, when no name contains a bar
  (`SessionKeysApart`, `SessionGoesWithItsNonce`); with a bar two sessions share one (`BarsCollide`).
- The test for canonical executable paths also accepts others: `ExecutableCanonicalIff` says which, `DotIsExecutable` is
  one.
- An accepted capacity override can leave an invalid merged budget; `MergedBudgetValidIff` gives the exact
  condition and `NarrowedCapBreaksReserve` an instance.
- The harness keeps an execution within the settled states but not in `cancelled`: it becomes `uncertain` exactly
  when a cancellation that went off to ask whether Comfy is idle comes back late (`CancelledLostIffLateProbe`). Over
  any stretch without a crash its row stays the same exactly when none does (`CancelledUntilLateProbe`); once undone,
  a further cancellation may cancel it again. `LateProbeUndoesCancellation` shows two concurrent cancellations.

## Model

| member | source | states |
|---|---|---|
| HarnessTheorems.EachChunkPostedOnce | internal/comfyharness/server.go:641-830 | over every run, no two requests sent to Comfy are for the same idempotency key and chunk |
| HarnessTheorems.PostedMeansDurable | internal/comfyharness/server.go:672-682 | whatever file a crash leaves, every request ever sent is accounted for in it: its chunk is behind the cursor, under custody, or the row cannot run |
| HarnessTheorems.OutputsMatchProgress | internal/comfyharness/server.go:723-765 | the outputs of a row are one record per chunk behind the cursor, each keyed by the prompt that answered that chunk's one request, across any yields, checkpoints, resumes and restarts; a completed row has all of them |
| HarnessTheorems.RefLaunchesOnce | internal/comfyharness/server.go:347-382 | no checkpoint reference launches two resumed runs |
| HarnessTheorems.FilesReload | internal/comfyharness/server.go:1268-1301 | every file the harness can leave loads; each row is loaded as uncertain, custody, progress and outputs kept, if it was running, cancelling or in custody, and as it stands otherwise; what is loaded is its own recovery and fits the byte limit |
| HarnessTheorems.RestartSucceeds | internal/comfyharness/server.go:1519-1522 | a restart on such a file fails only if writing the recovered file fails; it serves exactly those rows, each under its key, with no goroutine and nothing pending, and rewrites every file exactly when something was under way |
| HarnessTheorems.AcceptedFileReloads | internal/comfyharness/server.go:1434-1518 | for any accepted file, its recovered form is accepted again if and only if no resumable row carries a submission or prompt |
| HarnessExamples.EntangledFileIsLost | internal/comfyharness/server.go:1434-1518 | a file with a yielded row that carries a submission is accepted, and its recovered form is not |
| HarnessInvariant.CommitLoadsIffFreshPrompt | internal/comfyharness/server.go:724-726 | committing a chunk gives a loadable row if and only if the prompt id is not one of an earlier output |
| HarnessExamples.ReusedPromptIsLost | internal/comfyharness/server.go:724-726 | a row that loads, whose second chunk committed under the prompt id of its first does not |
| HarnessTheorems.FencedRunIsHarmless | internal/comfyharness/server.go:684-694 | a run whose epoch is no longer current changes only prompt, submission mark (to unknown) and error of its own row, never state, progress, outputs or epoch, and claims nothing |
| HarnessTheorems.SettledForGood | internal/comfyharness/server.go:445-571 | within one process no epoch goes back, no execution leaves the cancelling, uncertain, cancelled, failed and completed states, and no chunk of one is claimed again |
| HarnessTheorems.CancelledLostIffLateProbe | internal/comfyharness/server.go:473-521 | within one process a cancelled execution leaves that state if and only if a probing cancellation comes back late, and then becomes uncertain; every other step leaves its row unchanged |
| HarnessTheorems.CancelledUntilLateProbe | internal/comfyharness/server.go:473-521 | over any crash-free stretch a cancelled execution keeps its row if and only if no probing cancellation comes back in it; otherwise its epoch has risen |
| HarnessExamples.LateProbeUndoesCancellation | internal/comfyharness/server.go:472-521 | a run with two concurrent probing cancellations: the first cancels the execution, the second makes it uncertain |
| HarnessProgress.RoundCommitsOneChunk | internal/comfyharness/server.go:672-765 | with no write lost and an answer from Comfy, a round sends one request for the chunk at the cursor, records its output and advances by one, if and only if its three files fit and the output map is not nil; otherwise the run has halted |
| HarnessProgress.UntroubledRunCompletes | internal/comfyharness/server.go:641-767 | under the same conditions a run sends each remaining chunk once, in order, and ends completed, if and only if every file it writes fits and, when a chunk remains, the output map is not nil |
| HarnessExamples.NilOutputsHang | internal/comfyharness/server.go:585-593 | a run in which a yield request fails to be written before the first output, and the next successful chunk ends with the lock held and its output not recorded |
| HarnessLifecycle.StuckForGood | internal/comfyharness/server.go:634-638 | after that, until the process is killed, no row and no file changes, no goroutine comes or goes, and nothing is claimed |
| HarnessLifecycle.BareBeforeFirstOutput | internal/comfyharness/server.go:1378-1391 | over every run an output map is nil only in a row without outputs and without progress |
| HarnessLifecycle.ClosedRefusesStarts | internal/comfyharness/server.go:341-346 | once closed, and over anything but a crash, every start and resume is refused without effect and no goroutine is launched |
| HarnessContracts.BoundaryMeans | internal/comfyharness/server.go:573-593 | a request is accepted exactly for a running row when the file holding it is durable and fits; it then changes nothing but the request, in every file; `Ok` means the execution already stopped at that boundary; any other reply leaves every row alone |
| HarnessContracts.UnprovenMeans | internal/comfyharness/server.go:506-521 | the row is uncertain under the next epoch with all else kept, no goroutine of it is current, and a conflict is reported exactly when every file says so |
| HarnessContracts.StopMeans | internal/comfyharness/server.go:539-571 | only a row still cancelling under the given epoch is touched; a failed stop makes it uncertain, a confirmed one cancels it with custody released; success is exactly a cancellation held by every file |
| HarnessContracts.TopMeans | internal/comfyharness/server.go:641-682 | a goroutine goes on to send only a chunk nobody holds, once every file holds the intent; otherwise it returns and leaves no row running; completion is recorded or not claimed |
| HarnessContracts.AmbiguousMeans | internal/comfyharness/server.go:849-860 | an unusable reply never releases custody, moves no output, and leaves the submission it was for not running |
| HarnessContracts.AcceptedMeans | internal/comfyharness/server.go:808-829 | a goroutine polls a prompt only once every file names it as accepted; a fenced row keeps its state |
| HarnessContracts.ResultMeans | internal/comfyharness/server.go:684-766 | the cursor moves only with the output of the chunk, by one, and never in memory alone; the goroutine goes round again only then, and otherwise leaves no row running |
| HarnessContracts.WriteMeans | internal/comfyharness/server.go:1268-1348 | a file is written exactly when it fits, as it is and as a restart would rewrite it, and the write is durable; a crash then finds exactly that file, otherwise the files before, with the new one beside them only if the write was lost behind the rename |
| HarnessContracts.StartMeans | internal/comfyharness/server.go:321-404 | a start is refused exactly when unreadable, closed or in conflict, which is spelled out; acceptance is exactly one new row for the work requested, its key and one goroutine, in every file; `Ok` is the row under the key, doing the same work, unchanged unless it had stopped and was resumed with its own reference under the next epoch; an internal error changes nothing and means a file was lost or too large |
| HarnessContracts.CancelMeans | internal/comfyharness/server.go:445-538 | the reply to a cancellation by what the row holds: finished rows alone; without custody cancelled under the next epoch in every file, or uncertain; unknown prompt, a probe if no goroutine is live, else uncertain; known prompt, cancelling under the next epoch in every file with a stop pending |
| HarnessContracts.CancelOkMeansFinished | internal/comfyharness/server.go:445-471 | `Ok` means the execution is finished, in every file if that is new, and no goroutine may act for it |
| HarnessContracts.ProbeMeans | internal/comfyharness/server.go:481-521 | an idle answer cancels exactly the epoch it was asked under, with no goroutine live, on a row not ended; anything else proves nothing and leaves the row uncertain |
| HarnessContracts.TopLands | internal/comfyharness/server.go:641-682 | which row the loop head leaves in memory and on disk, which goroutine state, and which claim: completed past the last chunk, doubted over custody, else the intent of the chunk at the cursor |
| HarnessContracts.AmbiguousLands | internal/comfyharness/server.go:849-860 | an unusable reply makes exactly an open submission of the current epoch unknown and its row uncertain |
| HarnessContracts.AcceptedLands | internal/comfyharness/server.go:808-829 | the prompt is recorded as accepted exactly under the current intent, as unknown on a row that moved on without one, and otherwise not |
| HarnessContracts.ResultLands | internal/comfyharness/server.go:684-766 | a reported failure fails the row with custody released, another error leaves it uncertain, a success moves it one chunk on; at a boundary a yield request yields and a checkpoint request checkpoints, with the reference naming cursor and epoch |
| HarnessLifecycle.NoClaimUntilLaunch | internal/comfyharness/server.go:641-682 | from any point where an execution does not run, over crashes and restarts, no chunk of it is claimed for submission until a start launches a goroutine for it |
| HarnessLifecycle.CancelledThenSilent | internal/comfyharness/server.go:445-471 | after a cancellation answered `Ok` no chunk is claimed until such a start |
| HarnessPayloads.PayloadMeans | internal/comfyharness/server.go:1209-1239 | a chunk list is read in order, prompts and names as given, blank names as the position in four or more digits, and refused exactly when a prompt is no object or a name repeats; a lone prompt is one chunk; without either, nothing |
| HarnessPayloads.UnnamedListReads | internal/comfyharness/server.go:1222-1239 | a list that names nothing is refused only for its prompts: position names never collide |
| HarnessPayloads.RowLoadsIffConsistent | internal/comfyharness/server.go:1444-1505 | the loader accepts a row if and only if outputs match the cursor, the digest is of its own chunks, custody is of the chunk at the cursor, completion is at the end, and a reference of the right shape stands exactly on a stopped row and names its cursor and epoch |
| HarnessPayloads.LoadedRowIs | internal/comfyharness/server.go:1434-1518 | an accepted row is loaded as uncertain if anything was under way, with the digest of its chunks, and otherwise as it stands |
| HarnessLoader.ParsePayload | internal/comfyharness/server.go:1209-1239 | the parsed list is the payload's chunks, unnamed ones named by position; refused exactly when empty, when a name repeats or when a prompt is no object |
| HarnessLoader.CheckRow | internal/comfyharness/server.go:1444-1505 | accepts exactly the rows meeting all conditions on progress, outputs, payload hash, state, custody and checkpoint |
| HarnessLoader.Load | internal/comfyharness/server.go:1433-1518 | the loop computes the fold of its entry step, stopping at the first bad entry |
| HarnessLoader.LoaderAccepts | internal/comfyharness/server.go:1433-1518 | the loader accepts a list exactly when every entry is a valid row and no id or key repeats, and then holds each recovered row under its id and key |
| HarnessLoader.ListedFileIsTheMap | internal/comfyharness/server.go:1414-1523 | in whatever order rows are written, reading them back gives the same verdict, rows, key index and rewrite decision |
| HarnessServer.Server.Boot | internal/comfyharness/server.go:1414-1523 | a starting process is the restart step of the model, including the rewrite before serving |
| HarnessServer.Server.RecoveryRows | internal/comfyharness/server.go:1268-1301 | the loop recovers every row |
| HarnessServer.Server.PersistLocked | internal/comfyharness/server.go:1268-1348 | succeeds exactly when the state fits, now and as a restart would rewrite it, and the write is durable; the file contents a crash may leave follow the outcome |
| HarnessServer.Server.HandleStart | internal/comfyharness/server.go:321-404 | start, idempotent replay, resume and every refusal equal the start step, and the reply means what StartMeans says |
| HarnessServer.Server.Resume | internal/comfyharness/server.go:359-382 | a resume clears the reference, raises the epoch and launches one run, or restores the row |
| HarnessServer.Server.Create | internal/comfyharness/server.go:389-404 | a new row, key and run appear together, or nothing does |
| HarnessServer.Server.HandleBoundary | internal/comfyharness/server.go:573-593 | changing one field, persisting and putting the copy back is the boundary step; an accepted request is in every file, any other reply changes no row |
| HarnessServer.Server.HandleCancel | internal/comfyharness/server.go:445-538 | the first half of a cancellation equals the cancel step, and its reply means what CancelMeans says in each custody case |
| HarnessServer.Server.MarkUnproven | internal/comfyharness/server.go:506-521 | a cancellation without proof leaves the row uncertain under a new epoch, custody kept, every goroutine of it fenced |
| HarnessServer.Server.FinishProbe | internal/comfyharness/server.go:481-521 | an idle answer cancels only the epoch it was asked for, with no live run, and is answered `Ok` exactly when every file says so; any other answer proves nothing |
| HarnessServer.Server.FinishStop | internal/comfyharness/server.go:539-571 | a confirmed stop cancels only the epoch that asked for it, and reports success exactly when every file says so |
| HarnessServer.Server.LaunchLocked | internal/comfyharness/server.go:623-639 | one more live run, counted |
| HarnessServer.Server.RunTop | internal/comfyharness/server.go:641-682 | loop head: the goroutine sends only with its intent in every file; completion, refusal of unresolved custody and lost writes leave the rows TopLands names |
| HarnessServer.Server.MarkSubmissionUnknown | internal/comfyharness/server.go:849-860 | an unusable reply leaves the current submission in custody, unknown if that could be written, and its row uncertain |
| HarnessServer.Server.RecordAcceptance | internal/comfyharness/server.go:808-829 | the prompt id is recorded in time, late, or not, according to the fence, in the rows AcceptedLands names; polling follows only a record in every file |
| HarnessServer.Server.RunResult | internal/comfyharness/server.go:684-722 | failure, ambiguity and success of a chunk reach the step and leave the rows ResultLands names; progress is in every file or not made |
| HarnessServer.Server.CommitChunk | internal/comfyharness/server.go:723-765 | storing the output and moving the cursor field by field is the commit step: advanced and in every file, stopped at the requested boundary, uncertain with the old progress, or stuck on a nil map with nothing changed |
| HarnessServer.Server.Leave | internal/comfyharness/server.go:636 | the active count is lowered by the run that ended |
| HarnessServer.Server.Close | internal/comfyharness/server.go:198-220 | every start after it is refused without effect, whatever the request |
| JobQueueTheorems.InFlightIsOneCall | internal/jobs/manager.go:364-437 | an item is leased or running if and only if some pending call carries its current token; that call is unique and belongs to the owner |
| JobQueueTheorems.OneOutcomePerLease | internal/jobs/manager.go:412-481 | a report under the current token ends the lease and leaves no call carrying it; any other report changes no item and no job |
| JobQueueTheorems.TerminalForGood | internal/jobs/manager.go:412-629 | succeeded, failed and cancelled items never change again |
| JobQueueTheorems.JobsBalance | internal/jobs/manager.go:437-521 | counters are the counts of items and sum to the total; completed means every item terminal, still active means some item is not, with errors exactly when some item failed |
| JobQueueTheorems.ExecuteClosesGaps | internal/jobs/manager.go:292-311 | whenever the lock is free no queued item of a dispatchable job coexists with a free worker it has not tried |
| JobQueueTheorems.SlotsNeverLeak | internal/jobs/manager.go:423-426 | on every run active stays within the slots and below the items in flight on the worker, and its pending calls are those items and the calls whose lease has ended; without expiry or re-registration active is exact and there are none of the latter |
| JobQueueTheorems.ExpiryOvercommits | internal/jobs/manager.go:545-549 | a concrete run in which a worker of one slot has two pending calls |
| JobQueueTheorems.RejoiningOvercommits | internal/jobs/manager.go:166-185 | a concrete run in which a worker of one slot that registers again has two pending calls |
| JobQueueTheorems.LeasesAreBounded | internal/jobs/manager.go:487-505 | each item is leased at most once per worker and at most the attempt cap; attempts exceed the tried list by one exactly when the last lease, to the owner, did not end in failure or expiry, in every state; leases and expiries together are bounded; a queued item has an untried worker if any exists |
| JobQueueInvariant.AdmitGrows | internal/jobs/manager.go:231-262 | submission succeeds exactly on a non-empty list of distinct identities, and then adds exactly those items |
| JobQueueDispatch.DispatchMeans | internal/jobs/manager.go:292-389 | a pass grants leases in submission order, at most one an item, each for a waiting item of a running job to a registered worker with a free slot not tried for it; items, tokens, calls, slots and job counters change by exactly those leases |
| JobQueueOutcomes.SuccessIffReported | internal/jobs/manager.go:412-481 | over every run an item is successful with result r if and only if some report of r for it came under its current token before its job was cancelled |
| JobQueueOutcomes.ReportMeans | internal/jobs/manager.go:412-481 | a report frees the slot; under a stale token it changes no item or job; under the current one a result succeeds with it and an error punishes, unless the job is cancelled; the counters and the job status follow |
| JobQueueOutcomes.PunishMeans | internal/jobs/manager.go:487-505 | a failed lease adds the worker to the tried list, and the item is queued again if and only if some registered worker is untried and an attempt remains, else failed |
| JobQueueOutcomes.FinishMeans | internal/jobs/manager.go:412-481 | the same with dispatch: success exactly on a result for a job not cancelled, with that result; on an error the worker is tried |
| JobQueueOutcomes.ExpiryMeans | internal/jobs/manager.go:543-570 | an expired lease is punished like a reported error, for its owner |
| JobQueueOutcomes.HaltedForGood | internal/jobs/manager.go:292-311 | once a job is paused, cancelled or completed, no item of it is ever leased again |
| JobQueueOutcomes.PauseMeans | internal/jobs/manager.go:585-598 | pausing stops a pending or active job and touches nothing else |
| JobQueueOutcomes.CancelMeans | internal/jobs/manager.go:605-629 | cancelling a job that is not over aborts it and cancels exactly its waiting items; no other job, worker, call or lease is touched |
| JobQueueOutcomes.EnrolMeans | internal/jobs/manager.go:166-185 | a worker gets the slots its profile measured, or one, all free; no other worker changes |
| JobQueueOutcomes.SubmitMeans | internal/jobs/manager.go:212-281 | an accepted job is active with all its items queued and untried under the requested attempt cap or the default |
| JobQueueOutcomes.BeginMeans | internal/jobs/manager.go:394-400 | a call marks a leased item as running and changes nothing else |
| JobQueueOutcomes.UnnamedAccepted | internal/jobs/manager.go:231-262 | a non-empty list of unnamed items is always accepted: position names never collide |
| JobManager.WeightedIndex | internal/jobs/manager.go:337-349 | the chosen candidate is the one whose stretch of the total holds the random number, stretches being as long as the weights; the scan never falls through |
| JobManager.Manager.constructor | internal/jobs/manager.go:104-128 | an empty queue with the default attempt cap |
| JobManager.Manager.Candidates | internal/jobs/manager.go:324-333 | exactly the workers with headroom the item has not tried, each once, weighted by headroom |
| JobManager.Manager.PickWorker | internal/jobs/manager.go:318-350 | an eligible worker, or none exactly when none is eligible |
| JobManager.Manager.LeaseLocked | internal/jobs/manager.go:364-389 | the lease step: item, counters, slot, token and call together |
| JobManager.Manager.DispatchJob | internal/jobs/manager.go:299-309 | offers the items of one job in order |
| JobManager.Manager.TryDispatchLocked | internal/jobs/manager.go:292-311 | equals the dispatch step under the choices it made, and grants the leases DispatchMeans describes |
| JobManager.Manager.BeginItem | internal/jobs/manager.go:394-400 | a call marks the lease its item is under as running |
| JobManager.Manager.SettleLocked | internal/jobs/manager.go:423-476 | the slot is freed; under the current token a result makes the item successful with it, an error has it tried elsewhere or failed, and once cancelled either is dropped, with the counters and status that follow |
| JobManager.Manager.FailItemLocked | internal/jobs/manager.go:487-521 | retry elsewhere, or fail for good when every worker or attempt is used, and the job status that follows |
| JobManager.Manager.CompleteItem | internal/jobs/manager.go:412-481 | equals the finish step, dispatch included; under the current token the item is successful exactly on a result for a job not cancelled, with that result |
| JobManager.Manager.ExpireLocked | internal/jobs/manager.go:543-570 | the expiry step of one lease |
| JobManager.Manager.ReapJob | internal/jobs/manager.go:535-574 | ends exactly the expired leases of one job |
| JobManager.Manager.ReapExpiredLeases | internal/jobs/manager.go:527-579 | equals the reap step; the leases ended are exactly the expired ones in flight |
| JobManager.Manager.EnterItems | internal/jobs/manager.go:234-261 | the loop enters the items in order and stops at a repeated identity |
| JobManager.Manager.SubmitJob | internal/jobs/manager.go:212-281 | equals the submit step, the repeated-identity case included |
| JobManager.Manager.RegisterWorker | internal/jobs/manager.go:166-185 | equals the register step; one slot without a measurement |
| JobManager.Manager.PauseJob | internal/jobs/manager.go:585-598 | equals the pause step; reports an unknown job |
| JobManager.Manager.CancelJob | internal/jobs/manager.go:605-629 | equals the cancel step; reports an unknown job |
| ProofJournalTheorems.AdmissionsAdvance | internal/api/ws.go:106-135 | freshly admitted epochs of a (node, target) strictly increase; fences and generations never go back |
| ProofJournalTheorems.AdmittedOnce | internal/api/ws.go:85-171 | no (node, target, nonce) is freshly admitted twice, from any starting file, over compaction, failed writes, crashes and reloads |
| ProofJournalTheorems.HighWaterRemembers | internal/api/server.go:476-573 | every admitted epoch stays at or below the high-water mark in memory and in every file a crash may leave |
| ProofJournalTheorems.ReplayRefused | internal/api/ws.go:95-124 | a proof that was admitted is not admitted again |
| ProofJournalTheorems.RefreshIsIdempotent | internal/api/ws.go:98-105 | in the session that was admitted, the same proof again is a refresh that admits and writes nothing |
| ProofJournalTheorems.LoadIsMonotone | internal/api/server.go:323-378 | a load that succeeds lowers no counter, changes no digest, invents no nonce, and forgets one only if compaction does |
| ProofJournalTheorems.FirstLoad | internal/api/server.go:195-322 | into an empty server a body loads exactly when it is acceptable, to its own compaction |
| ProofJournalTheorems.JournalReloads | internal/api/server.go:195-378 | from an empty or v2 start every file left loads back to itself up to compaction, and no restart fails closed |
| ProofJournalTheorems.WrittenFileReloadsIffStamped | internal/api/server.go:275-289 | from any start a written file loads back if and only if every nonce carries an admission time |
| ProofJournalTheorems.LegacyStartFailsClosed | internal/api/server.go:254-268 | a legacy file, one admission under any nonce with an epoch, and the next restart fails closed |
| ProofJournalVerdicts.VerdictsMean | internal/api/ws.go:85-171 | each of the eleven verdicts, and exactly when it is given |
| ProofJournalVerdicts.AdmittedIff | internal/api/ws.go:85-171 | fresh admission if and only if the proof is presentable, the journal serves, the nonce is not on record, nothing is ahead of it, and the journal holding it fits and is written durably |
| ProofJournalVerdicts.RefreshedIff | internal/api/ws.go:95-105 | refresh if and only if the nonce is on record and the non-empty session's own entry is for that record |
| ProofJournalVerdicts.RefreshNamesOnlyTheNonce | internal/api/ws.go:95-105 | two presentable proofs with the same target, nonce and session are refreshed together or not at all, whatever else they say |
| ProofJournalVerdicts.AdmittedLeaves | internal/api/ws.go:125-146 | an admission leaves exactly the proof's counters for its identity, its nonce and time, and exactly that journal on disk |
| ProofJournalVerdicts.RefusedLeaves | internal/api/ws.go:147-168 | any other verdict moves no counter and adds no nonce; before the write no file changes, and a failed write leaves the nonce unrecorded in memory |
| ProofJournalVerdicts.RefreshMeansEntered | internal/api/ws.go:95-105 | over every run a refresh is for a session under which this process, since its last start, entered that nonce |
| ProofJournalVerdicts.ReplayAcceptedOnlyAsRefresh | internal/api/ws.go:95-124 | a proof that was admitted is accepted again only as such a refresh |
| ProofJournalVerdicts.RestartForgetsSessions | internal/api/ws.go:95-105 | right after a restart nothing is refreshed, whatever the file |
| ProofJournalVerdicts.EnteredIsNotAdmitted | internal/api/ws.go:144-168 | a run in which a session whose write was lost is refreshed after another session's admission |
| ProofJournalVerdicts.SessionKeysApart | internal/api/ws.go:94-105 | without bars in session names two requests share a session entry exactly when session, target and nonce agree |
| ProofJournalVerdicts.BarsCollide | internal/api/ws.go:94-105 | with a bar in a session name two different sessions share an entry |
| ProofJournalVerdicts.SessionGoesWithItsNonce | internal/api/server.go:484-498 | without bars in names compaction removes a session entry exactly when it removes the nonce it is for |
| ProofJournalVerdicts.EnteredKeysHaveBars | internal/api/ws.go:94 | every nonce a request enters is under a key with a bar in it, as that statement needs |
| ProofJournalVerdicts.RetainedExactly | internal/api/server.go:476-499 | a dated nonce is forgotten exactly when more than the configured seconds, or two days, have passed; no counter changes |
| ProofJournalVerdicts.UndatedStays | internal/api/server.go:484-499 | a nonce without a time of its own is never forgotten |
| ProofServer.Check | internal/api/server.go:269-322 | the validation loops accept exactly the acceptable journals |
| ProofServer.Server.CompactLocked | internal/api/server.go:476-499 | the nested loops delete exactly the aged nonces, their times and their session entries |
| ProofServer.Server.LoadBody | internal/api/server.go:195-378 | succeeds as the specification does; a refused body changes nothing |
| ProofServer.Server.PersistLocked | internal/api/server.go:501-573 | compacts, checks the bounds, and follows the outcome of the write |
| ProofServer.Server.RollBack | internal/api/ws.go:147-168 | the journal maps are what they were before the entry |
| ProofServer.Server.Admit | internal/api/ws.go:85-171 | equals the admission step; each verdict is given exactly when VerdictsMean says |
| Evidence.AcceptedHasOneForm | internal/api/node_commands.go:735-851 | accepted evidence is for a residency command, has exactly one of three proof forms, and reports the desired or the inverse tier |
| Evidence.SwitchAgreesWithSchema | internal/api/node_commands.go:1041-1092 | once the schema accepts, the per-action switch objects only to a protection other than the signed one |
| Evidence.SettlementReadsTheTier | internal/api/node_commands.go:1396-1455 | settlement succeeds exactly on the desired tier and fails exactly on the inverse one |
| Evidence.HonestEvidenceSettles | internal/api/node_commands.go:943-1093 | honest evidence for either tier is accepted and settles accordingly |
| NodeCommandTheorems.SwapMeansCurrent | internal/store/memory.go:1662-1686 | a swap made from a version that was read succeeds only while that version is stored |
| NodeCommandTheorems.UncertainNeverSent | internal/api/node_commands.go:1543-1591 | no send is committed on a mutation that is, or ever was, uncertain |
| NodeCommandTheorems.MarkClearedOnlyByEvidence | internal/api/node_commands.go:1443-1459 | the mark of a mutation is cleared by no step but a settlement whose evidence was accepted |
| NodeCommandTheorems.EvidenceSettles | internal/api/node_commands.go:1443-1459 | settlement of the stored version of an uncertain mutation from accepted evidence commits |
| NodeCommandTheorems.WithdrawnForGood | internal/api/node_commands.go:1510-1541 | once uncertain, a mutation is never sent again |
| NodeCommandTheorems.SettledForGood | internal/store/memory.go:1728-1747 | a settled row never changes again |
| NodeCommandTheorems.SettledTruthfully | internal/api/node_commands.go:1443-1459 | a settled row is a residency command whose stored evidence shows the tier its status claims |
| NodeCommandTheorems.AttemptsCountSends | internal/api/node_commands.go:1576-1584 | the attempt count is the number of committed sends |
| NodeCommandContracts.EventMeans | internal/api/node_commands.go:1375-1747 | every event acts on the stored version as a table of rows says, raises the revision by one and touches nothing else, or changes nothing |
| NodeCommandContracts.ReceiveMeans | internal/api/node_commands.go:1625-1747 | a certain report ends an open row with its own verdict, in the window or late but made in it, and expires it otherwise; an uncertain one marks it; an answered row and an uncertain mutation ignore it |
| NodeCommandContracts.SettleMeans | internal/api/node_commands.go:1375-1495 | a settlement from accepted evidence ends a sent row with the verdict of the evidence, clears the mark and is authoritative; any other changes nothing |
| NodeCommandContracts.VerdictIsReported | internal/api/node_commands.go:1625-1747 | over every run the verdict of a row not settled by evidence is that of a report received on its stored version: success only on an ok report, whose result is stored, failure only on one not ok or with a refused observation |
| NodeCommandContracts.IdentityForGood | internal/store/memory.go:1662-1686 | what is stored under an id stays the same signed command |
| NodeCommandContracts.CreateMeans | internal/store/memory.go:1615-1639 | a new command is stored as made and found under its key; a repeated key or id stores nothing |
| NodeCommandStore.PlanIsAll | internal/api/node_commands.go:1515-1540 | a reconnect plans nothing but sends and expiries, and asks only about listed open uncertain rows |
| NodeCommandStore.PlanIsQueryFirst | internal/api/node_commands.go:1515-1540 | a reconnect sends exactly the certain undone rows that are not late, expires exactly those that are, and asks about the uncertain ones |
| NodeCommandStore.Store.CreateNodeCommand | internal/store/memory.go:1615-1639 | a new command is stored and returned; one that meets a row under its key, or else under its id, gets that row back exactly when node, key, command and arguments are the same, and nothing is stored |
| NodeCommandStore.Store.CompareAndSwap | internal/store/memory.go:1662-1686 | succeeds exactly when revision, attempts, mark, status and signed identity match, and then stores the row under the next revision; otherwise nothing changes |
| NodeCommandStore.Store.PromoteUncertain | internal/store/memory.go:1728-1747 | marks any row but a settled one |
| NodeCommandStore.Store.AdvanceRecovery | internal/store/memory.go:1688-1709 | only an uncertain, unsettled row moves on |
| NodeCommandStore.Store.SendNodeCommand | internal/api/node_commands.go:1543-1591 | any row not done is marked sent, with one more attempt, before delivery, by a swap from the version read, which succeeds while that version is stored; otherwise nothing changes; the mark of uncertainty is not consulted |
| NodeCommandStore.Store.SubmitNodeCommand | internal/api/node_commands.go:144-176 | what is stored is sent at once, as the callers' send step, unless it is uncertain, in which case nothing is sent |
| NodeCommandStore.Store.RequeueAfterFailedWrite | internal/api/node_commands.go:1606-1620 | reopens only a row still sent and certain |
| NodeCommandStore.Store.ExpireUndeliveredRow | internal/api/node_commands.go:1527-1536 | closes only a certain row |
| NodeCommandStore.Store.DispatchNodeCommands | internal/api/node_commands.go:1510-1541 | the loop applies the reconnect plan in listing order |
| NodeCommandStore.Store.HandleResult | internal/api/node_commands.go:1625-1747 | equals the receive step: promotion, drop, refused observation and the timing cases; the row left is the one the table gives, verdict included |
| NodeCommandStore.Store.SettleUncertain | internal/api/node_commands.go:1375-1495 | equals the settle step; the verdict is that of the evidence, and a refusal changes nothing |
| Observer.RootsOfOnePath | internal/checkpointgpuobserver/observer_linux.go:1337-1350 | two roots that cover one path cover one another, one way or the other |
| Observer.OverlapIsDoubleMatch | internal/checkpointgpuobserver/observer_linux.go:76-88 | two authorities overlap if and only if some process matches both |
| Observer.AtMostOneRole | internal/checkpointgpuobserver/observer_linux.go:804-806 | under a valid policy every process matches at most one role |
| Observer.Validate | internal/checkpointgpuobserver/observer_linux.go:1225-1256 | the loops accept exactly the valid policies |
| Observer.AuthoritiesOverlap | internal/checkpointgpuobserver/observer_linux.go:76-88 | the nested loops decide the overlap |
| Observer.SelectContainer | internal/checkpointgpuobserver/observer_linux.go:772-802 | the one eligible container, or none when there is not exactly one |
| Observer.Authorize | internal/checkpointgpuobserver/observer_linux.go:731-770 | access is granted exactly when one authority, and no other, admits the process; refusals say why; under a valid policy the several-roles rejection is unreachable |
| ObserverPaths.CoversIsComponentPrefix | internal/checkpointgpuobserver/observer_linux.go:1340-1342 | a valid root covers exactly the paths whose components begin with its own |
| ObserverPaths.CanonicalIsNamed | internal/checkpointgpuobserver/observer_linux.go:1337-1339 | cleaning leaves an absolute path alone exactly when it is the root or every component is non-empty and neither `.` nor `..` |
| ObserverPaths.RootIsNamed | internal/checkpointgpuobserver/observer_linux.go:1337-1339 | the valid roots, by their components, length and characters |
| ObserverPaths.ExecutableIsNamed | internal/checkpointgpuobserver/protocol.go:263-265 | the accepted executable paths, by their components |
| ObserverPaths.ExecutableCanonicalIff | internal/checkpointgpuobserver/protocol.go:263-265 | an accepted executable path is canonical if and only if it has no `.` component and no trailing slash |
| ObserverPaths.DotIsExecutable | internal/checkpointgpuobserver/protocol.go:263-265 | an accepted path that is not canonical |
| ObserverPaths.AdmissionMeans | internal/checkpointgpuobserver/observer_linux.go:731-806 | under a valid policy a role admits a process acting for a container if and only if user, executable and digest are the role's, the process runs within one of its roots and within exactly that container among those the role may act for |
| ObserverPaths.PolicyMeans | internal/checkpointgpuobserver/observer_linux.go:1225-1256 | a valid policy names one unprivileged node agent, one root supervisor, at most one root local observer and nothing else, with full digests and proper roots, and no process passes for two of them |
| Capabilities.MergeBudget | internal/domain/domain.go:102-132 | the field-by-field merge is the specification's |
| Capabilities.HardCapsNeverRise | internal/domain/domain.go:86-132 | along any chain of accepted overrides a non-zero hard cap stays non-zero and never rises |
| Capabilities.MergedBudgetValidIff | internal/domain/domain.go:47-132 | the merged budget is valid if and only if the reserve in force fits under the cap in force |
| Capabilities.NarrowedCapBreaksReserve | internal/domain/domain.go:99-132 | an accepted override whose merge is not valid |
| Capabilities.MergeCeilings | internal/domain/domain.go:244-260 | the scan succeeds exactly on non-negative ceilings whose positive values agree, and yields that value |
| Capabilities.MergeCaps | internal/domain/domain.go:224-277 | succeeds exactly on evidence-valid blocks with compatible versions and agreeing ceilings |
| Capabilities.MergeMintsNothing | internal/domain/domain.go:224-277 | the merge is evidence-valid, carries no verified claim neither input carried, and keeps the overlay's |
| Capabilities.MergedCeiling | internal/domain/domain.go:244-260 | the merged ceiling is each positive ceiling given, and zero when none is |
| Capabilities.EvidenceMeans | internal/domain/domain.go:168-197 | evidence is in order if and only if checkpointing and yielding are each supported, verified and proven together, and a verified warm state is supported and names an accepted oracle |
| Capabilities.PartMeans | internal/domain/domain.go:47-81 | a budget is valid exactly when nothing is negative, the cap stays within the total and the reserve fits the cap in force |
| Capabilities.AcceptanceMeans | internal/domain/domain.go:86-97 | a child may restate its parent, anything valid where no cap is inherited, and nothing above an inherited cap |
| Capabilities.MergeSettles | internal/domain/domain.go:102-132 | merging the same override again, or an empty one, changes nothing more |
| AdapterPlans.FinalCheckIsRedundant | internal/api/ws.go:1183-1191 | normalisation succeeds exactly on a block that could be drafted with a non-negative accelerator ceiling |
| AdapterPlans.NormalizesIffAcceptable | internal/api/ws.go:1092-1192 | normalisation succeeds if and only if capacity, versions, runtime identity, evidence, resident and accelerator ceilings meet conditions stated one by one; every version in play is then empty or the contract's |
| AdapterPlans.NormalizedIs | internal/api/ws.go:1092-1192 | a normalised block field by field: supports and facts of the advertisement, the inherited ones only if it is not complete, the first accelerator ceiling given or one, the agreed resident ceiling, and the contract version |
| AdapterPlans.FilledMeans | internal/api/ws.go:721-733 | filling in the node's defaults leaves what is given alone and leaves no version and no ceiling open |
| AdapterPlans.PlanMeans | internal/api/ws.go:721-762 | a plan field by field, defaults counting only for a target that does not speak for itself |
| AdapterPlans.NormalizedNeverWidens | internal/api/ws.go:1092-1192 | a normalised block stays below the inherited ceiling and carries no other verified claims; a complete advertisement is never widened by defaults |
| AdapterPlans.PlanNarrowsCapacity | internal/api/ws.go:735-760 | a plan's budget is valid and never above a node cap |
| AdapterPlans.BuildPlans | internal/api/ws.go:721-762 | one plan per advertisement, in order, or none at all |
| AdapterPlans.CeilingReconciles | internal/domain/domain.go:282-297 | succeeds exactly on non-negative ceilings that agree where both are given, and yields the positive one, or one |
| SlotTotals.SharesEntryIff | internal/api/workloads_http.go:690-693 | two targets share an entry exactly when they name the same accelerator, or neither names one and they are the same target; a target without one meets an accelerator only if that is named after it |
| SlotTotals.RecordMaxima | internal/api/workloads_http.go:711-720 | per accelerator the largest positive slot count |
| SlotTotals.NoChoiceBeatsTop | internal/api/workloads_http.go:828-839 | no choice of accelerators beats as many from the top of the ranking |
| SlotTotals.BestIsUnique | internal/api/workloads_http.go:823-840 | the total does not depend on the order a map is iterated in |
| SlotTotals.SumLargest | internal/api/workloads_http.go:823-840 | the total is the maximum over every choice of at most max(limit, 1) accelerators |
| SlotTotals.ReportedSlots | internal/api/workloads_http.go:756-758 | the reported figure is that maximum over the per-accelerator maxima |

## Left out

- Cancelled run contexts of the harness: a call may end in an error at any time instead.
- Wake-up of yield and checkpoint waiters: the harness does not provide it on all paths.
- Error texts of harness rows: a few named notes stand for them, so a text extended after a failed write is not told apart.
- 64-bit wrap-around of epochs, revisions, tokens and fences: they are unbounded here.
- Timestamps, retry counters and payloads of queue items, and the best-effort write-through to the store.
- Liveness of the queue: that workers report and that leases expire.
- Cryptography: digests, signatures and fingerprints are arbitrary functions or given verdicts.
- White space beyond Latin-1 in evidence texts: such a character counts as text here.
- JSON syntax: duplicate keys, unknown fields and malformed files are the `Malformed` case.
- HTTP routing, authentication, the Comfy proxy, discovery and history parsing, websocket transport.
- File-system hardening: link counts, permissions, locks, pinned directories.
- Checkpoint-query observations and runtime-profile tickets: their verdicts are inputs.
- The observer's own reading of `/proc` and of the GPU inventory: the held process is an input.
- Recovery timers and backoff durations: a recovery attempt may happen at any time.
- ProofServer.Server.Admit: the identity, freshness and signature checks that do not touch the journal are one input.
- AdapterPlans.BuildPlans: the verdicts on runtime profiles and on model capacity observations are inputs.
- NodeCommandStore.Store.HandleResult: the projection of a profile or capability result after the commit is not modelled.
- SlotTotals.SumLargest: the in-place library sort is a sorting function on a list.
