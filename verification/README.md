# Verification of the job server

This project models the server's job engine and proves what its parts promise, together and under
interference. `dafny verify dfyconfig.toml` checks everything.

## What is modelled

* **The job lifecycle** (`JobTable`, `Lifecycle*`). The `jobs` table, the worker, any number of HTTP calls
  (submit, the three-statement cancel, delete, restore), rendering tasks, the daily purge, the one-slot wake
  channel, the shutdown signal, the clock and crashes form one state machine. One SQL statement or file
  operation is one step; between two steps of one actor any other actor may step. A run is a sequence of
  enabled steps from the empty database, and the theorems hold of every run.
  `LifecycleSubmit`, `LifecyclePurge` and `LifecycleRender` tie the rows to what was submitted, what purge
  removed and what was rendered.
* **Order** (`KeyOrder`, `Paging`, `PagingInService`). The worker's pick, `queue_position` and the list cursor
  share the order on `(created_at, id)`.
* **The worker's drain loop** (`JobStore`, `Drain`, `Comfy`), as imperative code over the table, with the
  backend's answers, the websocket frames and the state of the input as parameters. `DrainInService` shows
  that an undisturbed drain is a run of the state machine, so the two models cannot drift apart.
* **The input cache** (`InputTable`, `InputCache*`, `InputResolve`). Concurrent `resolve_input` calls, purge's
  second loop, the worker's read, outside deletion and crashes over the `inputs` table and a file map; and
  `resolve_input` as one imperative call, which `ResolveInService` shows to be a run of that machine.
* **Files and purge** (`Paths`, `AtomicWrite`, `Purge`, `PurgeInService`). Path naming, the staged write, and
  `purge::run`, whose first loop is likewise a run of the state machine.
* **Three self-contained algorithms**: placeholder substitution (`Workflow`), frame folding and the progress
  throttle (`Comfy`), redaction (`Redact`, `RedactText`); and the long-poll in a timed model (`LongPoll`).

## Assumptions

* SQL statements succeed and are atomic; the database starts empty; `rename` is atomic and staging names are fresh.
* Job ids are fresh UUIDs in text form (RFC 9562, section 5.4), and no request names an id before its row is inserted.
* The clock does not run back where a property speaks of times.
* SHA-256 is a parameter, an arbitrary function. Only the statements that need it assume that no two uploaded
  images have the same hash (`InputCacheStore.CollisionFree`).
* Progress fractions are reals, not `f32`. The images of a history entry come as a sequence in any order, because
  the program keeps them in a hash map.

## Where the code falls short of what one would expect

* **A done job can lose its output file.** If a crash stops a purge between unlinking an output and deleting the
  row, and the row is then restored, a visible done job has no file (`LifecycleWitness.CrashedPurgeLosesAnOutput`).
  `LifecycleFiles.DoneRowHasItsOutput` and `OutputsSurvivePurge` give the exact exception.
* **A cancel can answer 404 for a job that stays queued.** The comment in `cancel_job` counts on queued-to-running
  being the only way out of `queued`, but the worker also requeues: claim after the first UPDATE, requeue after the
  second (`LifecycleWitness.CancelCanMissARequeuedJob`). `LifecycleCancel.NotFoundExactlyWhen` says exactly when:
  the job ran at the second UPDATE, was requeued before the third, and has been queued since.
* **A resolved input can be demoted right away.** The UPDATE that clears a missing file's path is unguarded, so
  a slow call clears the path of a file that another call has uploaded in between, after that call was told
  that its input is in place (`InputCacheAnswers.DemotionCanLoseAFreshUpload`).
  `InputCacheSafety.KeepsItsPathExactlyWhen` says exactly which rows this can happen to.
* **Prompt text or an image name equal to `SEED_PLACEHOLDER` becomes a number**
  (`Workflow.SeedTextBecomesANumber`). The second substitution pass sees the text placed by the first.
  `Workflow.BuildIsSimultaneous` says exactly when the two passes are the simultaneous substitution; the theorems
  beside it say exactly when no token survives and when building twice changes nothing.
* **Redaction of non-ASCII text can panic** (`Redact.AccentAtTheLimitPanics`): `truncate(400)` needs a character
  boundary. `Redact.PanicsExactlyWhen` says when; everything else is proved of all text that does not panic.
* The status diagram of `docs/API_CONTRACT.md` has no arrow back to `queued`; the code goes back on a restart and
  when the backend is unreachable, and `LifecycleInvariant.StatusMoves` follows the code.

## Model

| member | source | states |
|---|---|---|
| LifecycleInvariant.StatusMoves | src/worker.rs:249-351 | in any reachable state one step takes a row from one status to another only by the startup reset, the claim, the final statement of the processed job, or the matching arm of a cancel |
| LifecycleInvariant.StepKeepsControl | src/worker.rs:43-124 | the invariant tying the worker's program counter, every call's program counter and row statuses together is kept by every step of every actor |
| LifecycleHistory.OneJobRuns | src/worker.rs:43-124 | in every run at most one row is running; after the startup reset it is the job being processed; a claimed job is running, cancelled or gone, never queued, done or failed |
| LifecycleHistory.WinMakesTerminal | src/worker.rs:297-351 | `mark_done` true, `mark_failed` hitting its row and a cancel's 204 are exactly the steps from a live status to a terminal one |
| LifecycleHistory.TerminalWriteOnce | src/handlers.rs:683-737 | over a whole run each job has at most one winning terminal write, and exactly one if and only if its row is terminal |
| LifecycleHistory.TerminalIsFinal | src/handlers.rs:683-737 | a terminal row keeps its status for as long as it exists, and once deleted its id never comes back |
| LifecycleRows.WorkerKeepsRows | src/worker.rs:249-351 | every worker step keeps rows coherent; for the unguarded prompt-id update because, by the control invariant, it never lands on a queued row |
| LifecycleRows.AlwaysCoherent | src/worker.rs:249-351 | queued rows are pristine, completed_at is set iff terminal, an error iff failed, only done rows have an output, and done rows have one and progress 1 |
| LifecycleWake.NoLostWake | src/worker.rs:54-122 | parked after an empty fetch with no wake waiting, every live queued row was restored since or belongs to a submit that has not sent its wake |
| LifecycleWake.RequeueWaits | src/worker.rs:62-122 | after giving a job back the worker sleeps and parks, and fetches again only after a wake, the idle tick or a restart |
| LifecycleCancel.NotFoundExactlyWhen | src/handlers.rs:697-726 | the third UPDATE answers 404 if and only if the row is absent or terminal, or ran at the second UPDATE and was requeued in between and is queued ever since; the 404 leaves the job alive in exactly the last case |
| LifecycleCancel.NotFoundIsThird | src/handlers.rs:693-726 | only a third UPDATE answers 404 |
| LifecycleCancel.InterruptHasCause | src/handlers.rs:730-733 | an interrupt follows a winning UPDATE of a running row, at whose instant the worker, once reset, was processing that job |
| LifecycleClock.JobIdentity | src/handlers.rs:90-104 | an id stands for the same input, prompt, workflow, seed and creation time at any two moments of a run |
| LifecycleSubmit.SubmitLands | src/handlers.rs:90-107 | in any run the row of a submitted job carries, for as long as it exists, the very spec that was submitted and the time of the submit |
| LifecycleSubmit.InsertedRow | src/handlers.rs:90-104 | right after the insert the row is visible, queued and pristine, column by column, and no other row has changed |
| LifecycleSubmit.SubmitAnswers | src/handlers.rs:106-125 | the wake fills the channel, and the client is told the id of the inserted job |
| LifecycleSubmit.CancelAnswers | src/handlers.rs:693-737 | each of the three UPDATEs hits exactly a row in its own status; a hit on a running row leads to the interrupt, on a queued one to 204, a third miss to 404 |
| LifecycleSubmit.DeleteAnswers | src/handlers.rs:662-681 | 204 exactly for a visible row, which is then hidden; else 404 and no change |
| LifecycleSubmit.RestoreAnswers | src/handlers.rs:739-756 | 204 exactly for a hidden row, which is then visible; else 404 and no change |
| LifecycleClock.AlwaysOnTime | src/handlers.rs:510-529 | timestamps are ordered, so the reported duration is never negative and no finished job ended before it started |
| LifecycleFiles.UnlinkIsOwn | src/purge.rs:122-150 | an unlink of the jobs loop hits a file of the job being purged, of no other job, and never a cached input |
| LifecycleFiles.DoneRowHasItsOutput | src/purge.rs:107-158 | a done row's output file exists if and only if no purge has unlinked it |
| LifecycleFiles.UnlinkedRowIsBeingPurged | src/purge.rs:107-158 | a row without its output is the one the running purge deletes next, or one whose purge a crash stopped after the unlink |
| LifecycleFiles.OutputsSurvivePurge | src/purge.rs:107-158 | a done row that is not being purged has its output file if and only if no crash stopped a purge that had already removed it |
| LifecyclePurge.DeleteFollowsUnlinks | src/purge.rs:107-158 | in any run, when purge deletes a row, it had selected it as deleted before the cutoff, and has since tried to unlink its output, thumb, preview and the AVIF files beside the last two |
| LifecyclePurge.OnlyDeleteRowDeletes | src/purge.rs:152-157 | no other step of any actor makes a row disappear |
| LifecycleRender.RecordedWasWritten | src/derived_images.rs:147-176 | in any run a row names a thumb or preview only if a task has written that JPEG before |
| LifecycleRender.RenditionRecorded | src/derived_images.rs:160-175 | a finished size goes to its own column, under its own name |
| LifecycleRender.RenditionWritten | src/derived_images.rs:178-190 | the JPEG and the AVIF of a size are written side by side under the job id |
| LifecycleWitness.CrashedPurgeLosesAnOutput | src/purge.rs:143-158 | a run in which a visible done job has lost its output outside any purge |
| LifecycleWitness.CancelCanMissARequeuedJob | src/handlers.rs:697-726 | a run in which a cancel answers 404 and the job is still queued |
| KeyOrder.SortedIsUnique | src/worker.rs:239-243 | any two ways of sorting rows by (created_at, id) give the same sequence |
| Common.StrLessIs | src/worker.rs:239-243 | ids compare by the first character in which they differ, and a proper prefix comes first |
| KeyOrder.OldestIsFirst | src/worker.rs:235-247 | the row the worker picks is the head of the sorted queue, and only that row |
| KeyOrder.OldestMeans | src/worker.rs:239-243 | the worker picks a visible queued row exactly if every other one has a larger created_at, or the same one and a larger id |
| KeyOrder.QueueIsOldestFirst | src/worker.rs:239-243 | along the queue created_at never falls, and ids rise where it is equal |
| KeyOrder.PositionIsIndex | src/handlers.rs:625-639 | `queue_position` of the i-th row of the sorted queue is i |
| KeyOrder.PositionCounts | src/handlers.rs:625-639 | `queue_position` is the number of visible queued rows with a smaller created_at, or the same one and a smaller id |
| KeyOrder.PositionsAreBijective | src/handlers.rs:625-639 | `queue_position` maps the live queued rows one to one onto 0..n-1 |
| Paging.RestAfterPage | src/handlers.rs:487-508 | after a full page the rows beyond its cursor are exactly the rest of the sorted list |
| Paging.TraversalIsExact | src/handlers.rs:458-508 | on a fixed table the pages from any cursor put end to end are the filtered list in descending order, in floor(n/limit)+1 pages |
| Paging.ListJobsIsExact | src/handlers.rs:458-508 | the same from the first page, for any requested limit and its clamping to 1..200 |
| Paging.ListedRows | src/handlers.rs:458-492 | a row may be listed exactly if it is visible, has the asked status and input, and is older than the cursor |
| Paging.PageIsNewestFirst | src/handlers.rs:487-500 | a page holds the newest of those rows in falling order of created_at and id, as many as asked for or all there are |
| Paging.ListIsNewestFirst | src/handlers.rs:458-508 | the pages together hold every such row once, newest first |
| Paging.ClampLimitIs | src/handlers.rs:458-470 | the limit is 50 unless given, and kept between 1 and 200 |
| Paging.PagingSurvivesChanges | src/handlers.rs:487-508 | with arbitrary changes between queries no job is listed twice, and a finished traversal lists every job that matched at all of them |
| PagingInService.PagingDuringService | src/handlers.rs:458-508 | the same for the tables of any run of the service, with no assumption on them left |
| JobStore.Store.FetchOldestQueued | src/worker.rs:235-247 | answers the visible queued row before which no other was submitted, by created_at and then id, or none only if there is none |
| JobStore.Store.ResetRunningJobs | src/worker.rs:249-264 | leaves no row running, and makes the queue the sorted union of the old queue and the visible orphans |
| JobStore.Store.TryMarkRunning | src/worker.rs:269-282 | claims exactly a live queued row and changes no other row |
| JobStore.Store.TryMarkDone | src/worker.rs:300-323 | wins exactly on a running row and writes that row's result columns |
| JobStore.Store.TryMarkFailed | src/worker.rs:336-351 | fails exactly a running row and leaves any other table as it is |
| JobStore.Store.TryRequeue | src/worker.rs:325-334 | puts back exactly a running row |
| JobStore.Store.UpdateComfyPromptId | src/worker.rs:284-295 | writes the prompt id of an existing row whatever its status, and no other row |
| JobStore.Store.UpdateProgress | src/worker.rs:438-442 | writes the progress of exactly a running row |
| JobStore.Store.CancelUpdate | src/handlers.rs:693-720 | one UPDATE cancels exactly a row in the status it asks for |
| JobStore.Store.CancelJob | src/handlers.rs:683-737 | undisturbed, the three UPDATEs cancel exactly a queued or running job, ask for an interrupt exactly for a running one, and take exactly that job out of the queue |
| JobStore.Store.DeleteJob | src/handlers.rs:662-681 | marks exactly a visible row deleted; it leaves the queue and nobody else changes place |
| JobStore.Store.RestoreJob | src/handlers.rs:739-756 | makes exactly a deleted row visible again; a queued one is back at its own place and nobody else changes place |
| Comfy.WithRetry | src/comfy.rs:112-138 | the first answer that is not to be retried, or the third, is returned, after that many calls; retried are refused connections, and for safe calls time-outs, 408, 429 and 5xx |
| Comfy.NeverResubmits | src/comfy.rs:84-110 | a connect-only call is repeated only while no connection was made |
| Comfy.NoConnectionIsUnreachable | src/comfy.rs:71-138 | if no try can connect, the result is classified unreachable in either mode |
| Comfy.AwaitCompletion | src/comfy.rs:379-416 | the frame loop computes the fold of the frames up to the first terminating one |
| Comfy.OnlyRelevantFramesMatter | src/comfy.rs:379-416 | result and forwarded fractions depend only on the prompt's own frames and the first close or stream error |
| Comfy.OtherPromptsAreIgnored | src/comfy.rs:374-398 | two streams that agree on those frames give the same result and fractions |
| Comfy.FirstTerminatorDecides | src/comfy.rs:379-416 | the result is that of the first terminating frame, or that of an ended stream |
| Comfy.ResultExactly | src/comfy.rs:379-416 | completed if and only if the first frame to end the wait is the prompt's own end, and likewise failed for its error, closed, broken, and ended when there is none |
| Comfy.FrameByFrame | src/comfy.rs:379-416 | what one frame at the front of a stream does, kind by kind: ends the wait, forwards its clamped ratio, or nothing |
| Comfy.FractionIsTheRatio | src/comfy.rs:401-408 | a frame with a positive maximum forwards value/max, clamped to 0 and 1 |
| Comfy.WriteProgress | src/worker.rs:432-446 | the progress writer's loop stores the throttled sequence |
| Comfy.ThrottleBound | src/worker.rs:432-446 | stored values are fractions, and writes cost either an upward step of 0.02 or a drop |
| Comfy.ThrottleTracks | src/worker.rs:432-446 | the stored value is less than 0.02 below the latest fraction, and never above it |
| Comfy.ProgressEndToEnd | src/worker.rs:425-457 | from frames to the row: fractions, at most one step behind, at most 50 + 51k writes with k drops |
| Comfy.PrimaryOutputIsOwn | src/comfy.rs:464-474 | a job collects one of its own images if there is one, and the name cannot be another job's |
| Drain.RequeueUndoesTheClaim | src/worker.rs:325-334 | requeueing a worked row gives back the queued row it was claimed as |
| Drain.OutcomeMeans | src/worker.rs:353-520 | in terms of the answers alone: produced if and only if every stage succeeded, the image is the job's first, legally named, and saved; unreachable if and only if the first failing stage failed for want of a connection |
| Drain.CollectionMeans | src/worker.rs:473-520 | the same for the second half, with the path collected |
| Drain.ResultMeans | src/worker.rs:61-107 | the row left by each: every result column of a done row, the error and its columns of a failed one, the untouched row of one given back |
| Drain.DeadBackendIsUnreachable | src/worker.rs:379-413 | if no connection can be made and input and template are there, the attempt is classified unreachable |
| Drain.CrashUndoesTheClaim | src/worker.rs:249-264 | a crash anywhere between claim and final statement, followed by the startup reset, gives back the very table the job was claimed from |
| Drain.Worker.RunProgressWriter | src/worker.rs:428-457 | leaves the last throttled fraction on the running row, and touches no other row |
| Drain.Worker.CollectOutput | src/worker.rs:473-520 | marks the row done with the collected image if and only if history, image, download, name and save are all in order, else leaves the table as it is and says why; unreachable exactly if a connection was refused |
| Drain.Worker.ProcessJob | src/worker.rs:353-520 | no error if and only if every answer was in order, unreachable if and only if a connection was refused first; leaves the claimed row done, or worked and running, and touches no other row |
| Drain.Worker.ProcessAndSettle | src/worker.rs:61-107 | one turn leaves the row done, given back or failed exactly as the answers say, and stops exactly when it is given back |
| Drain.Worker.Turn | src/worker.rs:61-110 | one turn takes the head of the sorted queue and leaves its tail as the queue |
| Drain.Worker.Drain | src/worker.rs:54-111 | terminates, claims a prefix of the sorted queue in order, and ends with the queue empty or at the first unreachable job |
| Drain.DeadBackendChangesNothing | src/worker.rs:62-82 | if the first job's input and template are there and no connection can be made, a drain claims at most that job, fails none, and leaves the table exactly as it was |
| Drain.DrainFollowsPositions | src/handlers.rs:625-639 | with a reachable backend the job at position k is the (k+1)-th claimed and ends terminal, and no queued job remains |
| Drain.DrainClaimsOldestFirst | src/worker.rs:54-62 | a drain claims visible queued rows in the order of created_at, and of id where times are equal |
| Drain.NoOlderJobIsPassedOver | src/worker.rs:54-62 | a waiting job older than a claimed one was claimed too |
| Drain.Worker.Start | src/worker.rs:43-111 | the startup reset followed by the first drain drains the merged queue |
| Drain.RestartKeepsTheOrder | src/worker.rs:43-111 | after a restart the visible queued and orphaned jobs are claimed in submission order, none passed over, and all of them with a reachable backend |
| DrainInService.TurnIsARun | src/worker.rs:61-107 | for every answer of the backend, the imperative turn's effect on the table is a run of the state machine in which only the worker and the clock step |
| DrainInService.DrainIsARun | src/worker.rs:54-111 | so is every outcome the drain's contract allows, ending parked on an empty queue or backing off from a dead backend |
| InputTable.CachePathOwner | src/handlers.rs:349-352 | a cache path belongs to one hash |
| InputTable.CachePathIsLegal | src/paths.rs:28-38 | `data_path` never refuses a cache file name |
| InputCacheInvariant.RenamedMatches | src/handlers.rs:349-355 | what the rename puts at a cache path has the hash of that path, although the write went through a staging file |
| InputCacheInvariant.CallKeepsSound | src/handlers.rs:282-414 | every statement and file operation of a concurrent `resolve_input` keeps the cache sound |
| InputCacheInvariant.OthersKeepSound | src/purge.rs:161-192 | so do purge's loop, the worker's read, outside deletion and a crash |
| InputCacheInvariant.AlwaysSound | migrations/0003_single_user_schema.sql:14-26 | in every run hashes are unique among rows, a row points at its own hash's place or nowhere, and whatever is at a cache path hashes to its name |
| InputCacheInvariant.ReadIsTheInput | src/worker.rs:379-398 | the worker only ever reads bytes with the hash of its job's input, and bytes that were uploaded under it |
| InputCacheStore.StepRefines | src/handlers.rs:282-414 | every step is a no-op, a put of bytes under their own hash, or a loss of one entry of a plain hash-to-bytes map |
| InputCacheStore.LossIs | src/purge.rs:178-184 | removing a file loses the entry of its hash, unless the same image is still there under the other extension |
| InputCacheStore.CacheIsAPlainStore | src/handlers.rs:282-414 | over any run the cache directory equals the plain map replayed from those changes |
| InputCacheStore.ReadIsALookup | src/worker.rs:395-398 | the worker's read is a lookup of its input's hash in that map |
| InputCacheStore.HitIsAnEntry | src/handlers.rs:313-325 | a cache hit means the map has the requested hash |
| InputCacheAnswers.AnswerHasCause | src/handlers.rs:300-346 | behind every resolved input there is a moment of the same call at which its file was on disk, and behind every need_upload one at which no row had a path or the selected path was missing, with no bytes sent |
| InputCacheAnswers.PathIsLostOnlyTo | src/handlers.rs:313-338 | in any run a row's path is cleared only by purge, or by a call that earlier in the run looked for the file and missed it |
| InputCacheSafety.KeepsItsPathExactlyWhen | src/handlers.rs:313-338 | in any reachable state a row keeps its path through everything but eviction and outside deletion if and only if its file is on disk, no call is demoting it, none is about to look for a missing file for it, and none is about to record a lost one |
| InputCacheSafety.RunKeepsSafe | src/handlers.rs:282-414 | that condition is kept by every undisturbed run |
| InputCacheSafety.UnsafeCanBeLost | src/handlers.rs:326-338 | if it fails, a run of calls alone clears the path |
| InputCacheSafety.UploadAloneIsSafe | src/handlers.rs:374-411 | an upload recorded while no other call works on the same hash leaves a row that keeps its path |
| InputCacheSafety.NothingIsLost | src/handlers.rs:282-414 | in any run without eviction and outside deletion no path is ever cleared and every recorded path has its file |
| InputCacheAnswers.DemotionCanLoseAFreshUpload | src/handlers.rs:326-338 | a run in which a call is told its input is in place and another call's demotion then clears the path |
| InputResolve.Cache.ResolveInput | src/handlers.rs:282-414 | undisturbed: mismatch iff the bytes hash differently, need_upload iff no bytes and no cached file, internal iff the write failed; a hit is stamped, an upload stored and recorded in the known row or a new one, a missing file demoted, each column by column; other rows and files are untouched |
| ResolveInService.ResolveIsARun | src/handlers.rs:282-414 | for any table, disk, request and fault, the call that is left alone runs through the concurrent state machine to an answer and effects that this contract allows |
| Paths.AvifSiblingOfRendition | src/derived_images.rs:52-54 | the sibling purge computes from the recorded JPEG is the AVIF file the renderer wrote |
| Paths.JobFilesAreOwned | src/purge.rs:122-141 | everything purge unlinks for a row carries that job's name |
| Paths.JobFilesAre | src/purge.rs:117-141 | purge unlinks exactly the recorded output, thumb and preview and the AVIF files beside the last two |
| Paths.DataPathIs | src/paths.rs:28-38 | exactly the non-empty names without separators and without two dots in a row are accepted, under their directory |
| Paths.NamesAre | src/derived_images.rs:183-185 | the names of outputs and renditions, spelled out |
| Paths.OwnerIsUnique | src/derived_images.rs:183-185 | no path carries the names of two jobs, because ids have one length |
| Paths.CacheIsNobodys | src/paths.rs:9-14 | no cached input carries a job's name |
| AtomicWrite.AtomicWriteFile | src/paths.rs:88-96 | success replaces the target; a failed write or rename changes nothing once the staging file is unlinked; at every step in between the target is fully old or fully new |
| AtomicWrite.StagingNamesDiffer | src/paths.rs:121-132 | writers with different random suffixes use different staging files |
| AtomicWrite.CrashLeavesOldOrNew | src/paths.rs:88-96 | a crash at any step leaves the target old or new in full and no other file changed but the staging one |
| AtomicWrite.Staged.Drop | src/paths.rs:77-86 | an uncommitted staging file is removed, a committed one left alone |
| Purge.Housekeeper.RemoveFiles | src/purge.rs:134-150 | removes exactly the named files that exist and can be unlinked, and counts exactly those; a dry run counts names |
| Purge.Housekeeper.SelectStaleJobs | src/purge.rs:106-115 | lists every row deleted before the cutoff once, with its recorded paths |
| Purge.Housekeeper.SelectStaleInputs | src/purge.rs:160-171 | lists every idle input no live job references once, with its path |
| Purge.Housekeeper.PurgeJobs | src/purge.rs:106-158 | deletes exactly the rows deleted before the cutoff, and with each its output, thumb, preview and their AVIF siblings unless stuck, and no other file; counts rows and files |
| Purge.Housekeeper.PurgeInputs | src/purge.rs:160-192 | clears exactly the idle inputs, unlinks exactly their files, and counts both |
| Purge.Housekeeper.Run | src/purge.rs:100-192 | a real run deletes exactly the stale rows with all their files and clears exactly the idle inputs, and its file counts add up to the files that are gone; a dry run changes nothing |
| Purge.PurgedIs | src/purge.rs:100-192 | the same column by column: rows deleted before the grace period go with their five files, inputs idle since before the cache window and needed by no visible job lose path and file, stuck files stay, nothing else changes |
| Purge.ReportIs | src/purge.rs:143-192 | the report counts those rows and inputs; a dry run counts one file per output and two per thumb and preview, a real one the files that are gone |
| Purge.JobFilesGo | src/purge.rs:106-150 | the jobs loop takes every file of a stale row that can be unlinked, and no other |
| Purge.DryRunForecasts | src/purge.rs:134-180 | a dry run reports the same rows and inputs as a real one, and at least as many files |
| Purge.DeletedJobsPinNothing | src/purge.rs:161-171 | deleting the stale jobs first frees no further input |
| Purge.PurgeIsIdempotent | src/purge.rs:100-192 | purging twice with the same options is purging once |
| Purge.SecondPurgeReportsNothing | src/purge.rs:100-192 | the second run reports zero everywhere |
| Purge.LiveInputsSurvive | src/purge.rs:160-171 | an input referenced by a live job keeps its row and its file |
| Purge.KeptJobsKeepTheirFiles | src/purge.rs:107-150 | a job that is not stale keeps its row and every file carrying its name |
| PurgeInService.PurgeIsARun | src/purge.rs:107-158 | the imperative jobs loop's effect is a run of the state machine in which only purge steps, whichever files cannot be unlinked and in any row order |
| Workflow.PatchPlaceholders | src/workflow.rs:131-153 | replaces every string leaf by the first matching entry, at every depth, and nothing else |
| Workflow.PatchSeedPlaceholder | src/workflow.rs:334-354 | turns every seed token into the number, at every depth, and nothing else |
| Workflow.BuildEditWorkflow | src/workflow.rs:160-179 | runs the two passes in order |
| Workflow.BuildIsSimultaneous | src/workflow.rs:160-179 | the two passes are one simultaneous substitution if and only if no placed text is the seed token |
| Workflow.SeedTextBecomesANumber | src/workflow.rs:160-179 | a prompt equal to the seed token ends up as the seed's number |
| Workflow.PassesCommute | src/workflow.rs:160-179 | seed first is always the simultaneous substitution, so the passes commute in exactly the same cases |
| Workflow.NoPlaceholderSurvives | src/workflow.rs:155-179 | no token is left if and only if the job places no text that is itself a token |
| Workflow.BuildIsIdempotent | src/workflow.rs:160-179 | a second build changes nothing if and only if the job places no text that a build would replace |
| Workflow.BuildAtPath | src/workflow.rs:128-153 | paths, keys, lengths and non-string leaves are the template's, and each string leaf has its token's value |
| Workflow.StringAtPath | src/workflow.rs:155-179 | what stands wherever the template has a string: prompt, image, `zun_` and the id, the seed as a number, or the string itself; a prompt or image equal to the seed token becomes the seed |
| LongPoll.GetJob | src/handlers.rs:582-621 | an absent or finished job and a request without wait are answered at once; otherwise within the wait, at most 30 s: a lasting change within a second of it even if never signalled, a signalled one at once, an unchanged row exactly at the end; the answer is current |
| Redact.RedactInternal | src/error.rs:81-98 | the loop computes the token-wise rewriting with its cut, and its panic |
| Redact.RedactTokenIsClean | src/error.rs:100-134 | a redacted token is not redactable again |
| Redact.CleanCore | src/error.rs:117-132 | a token that redaction leaves alone has a core that is neither a path nor a URL |
| Redact.CutIsClean | src/error.rs:91-95 | cutting a clean token anywhere and appending the ellipsis never makes it redactable |
| Redact.RedactionIsFinal | src/error.rs:81-98 | for any text, unless it panics: at most 403 bytes, no token of the result is redactable, and a second redaction changes nothing |
| Redact.LoopCutsTheWhole | src/error.rs:81-98 | cutting in the loop as soon as the limit is reached equals cutting the whole redacted text |
| Redact.PanicsExactlyWhen | src/error.rs:91-92 | redaction panics if and only if byte 400 of the redacted text lies inside a character |
| Redact.AccentAtTheLimitPanics | src/error.rs:91-92 | 399 letters and an accented one panic |
| Redact.AsciiIsSafe | src/error.rs:81-98 | ASCII text never panics |
| RedactText.TokenIs | src/error.rs:100-152 | between opening and closing characters, a core under one of ten directories becomes `<path>`, one with one of four schemes `<url>`, any other stays |
| RedactText.EveryToken | src/error.rs:103-122 | every token is openers, a core that begins and ends with neither, and closers |
| RedactText.PunctuationStays | src/error.rs:103-122 | a token of openers and closers only stays |
| RedactText.SplitIs | src/error.rs:87 | words are what stands between white space |
| RedactText.SpaceIs | src/error.rs:87 | white space is the 25 code points of Unicode White_Space |
| RedactText.BytesAre | src/error.rs:91 | lengths are UTF-8 lengths |
| RedactText.UncutIs | src/error.rs:88-90 | redacted tokens are put together with single spaces |
| RedactText.RedactedIs | src/error.rs:91-95 | a redacted text below 400 bytes is kept whole; a longer one is its first 400 bytes and an ellipsis, if a character ends there |

## Left out

- HTTP, request parsing, authentication, logging, configuration, warm-up, database backup, and the transports to ComfyUI: library plumbing; backend answers are parameters.
- Image decoding, resizing and encoding: a rendition is a file name that a task writes.
- Cursor encoding (RFC 4648, section 5) and JSON bodies: a cursor is the pair it carries.
- Custom prompts, `resolve_prompt`, capabilities, health, ETags and image delivery: easy branches.
- The sweep of ComfyUI's own directories in `purge::run`: it shares no file with the data directory.
- `sha256_hex` itself; the dimensions, name, type and size columns of `inputs`, which no branch reads.
- Failing SQL statements: each statement is taken to succeed, so the worker's fetch back-off and its logged write errors do not occur.
- The worker's own interrupt after a job timed out, and where an interrupt takes effect inside ComfyUI.
- `atomic_copy` and `atomic_write_blocking`: they repeat the steps of `atomic_write`.
- Workflow.PatchPlaceholders: takes and returns the document instead of rewriting a `&mut Value` in place; documents are values without aliasing, so only the update in place is not captured.
- Workflow.PatchSeedPlaceholder: as above.
- LongPoll.GetJob: reads take no time and `queue_position`, proved in `KeyOrder`, is not repeated in the answer.
- Drain.Worker.Drain: error texts are given as stored, already redacted, and shutdown, which can end a drain between jobs, is in `Lifecycle` only.
- Purge.Housekeeper.Run: runs without interference; what a purge does beside others is in `LifecycleFiles` and `InputCache`.
- InputCache leaves open which idle rows purge picks, so it does not say that a submit racing purge keeps its file; it does not.
- `relative_for_db` on paths outside the data directory: every path here is relative to it.
