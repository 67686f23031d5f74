# Verified model of the training platform's core

A Dafny model of the transactional heart of the Python API and of the graph and tree algorithms in `tools/`, with
proofs of what every run keeps. Run `dafny verify dfyconfig.toml` to check it.

- `Jobs`, `JobProtocol`, `Worker`: the durable job queue, its leases under any interleaving of crashing workers, and periodic jobs.
- `Training`, `TrainingRuns`, `TrainingLiveness`, `Observations`, `Sop`, `SopRuns`: the training task aggregate, its observation events, and the
  publication of standard operating procedures that creates tasks.
- `Idempotency`, `Http`: the replay cache, If-Match versions, and how the two compose.
- `Notifications`, `NotificationProtocol`, `Files`, `FileProtocol`: numbered notifications under concurrent transactions,
  and file assets with two-phase scans.
- `ContentRuns`: plans, tasks and files as one system.
- `Identity`, `IdentityRuns`, `Challenges`, `Budget`: certification, roles, grants and sessions; emailed secrets; the attempt limiter.
- `Architecture`, `Generator`, `JsonPointer`, `Contract`, `Base64`, `Pagination`: dependency cycles, ordered emission,
  `$ref` expansion, and keyset pagination with its cursor text.

How to read it. A database transaction is one atomic step; where the program reads, works outside the database and
writes later (job leases, scans, notification counters), those are separate steps that interleave freely. Objects and
rows the program updates in place are classes whose methods are proved equal to a specification function on their
contents; the laws are then proved of those functions over all runs. Errors are values (`Result`, `Check`), and a raised
error leaves the state as the program's transaction does. `Access` is what the locked read of a case tells a service: the
actor's part in it, and whether it is closed. Fresh identifiers, tokens and secrets are assumptions of the
run predicates (`Fresh`, `Enabled`).

Where the code does not do what one would expect of it, the code is kept and the exact condition is proved:

- A periodic job can disappear: the sweep of a claim fails jobs that crashed at their last attempt and does not schedule the
  next slot (`Worker.LiveUnlessSwept`, `Worker.CadenceCanStop`).
- An open task can become impossible to complete: files of a finished step are linked only by the submission, so their uploader can
  delete them before, and a finished step cannot be saved again (`TrainingLiveness.CompletableIff`, `TrainingLiveness.EvidenceCanBeLost`).
- An altered cursor can escape the invalid-cursor answer: a JSON identifier that is neither text nor null raises an
  error the handler does not catch (`Pagination.RefusalIs400`, `Pagination.UnhandledCursor`).

## Model

| member | source | states |
|---|---|---|
| `Http.RequireVersionExact` | apps/api/app/core/http.py:9-16 | For every header and current version: success exactly for the current version's ETag, 428 exactly when the header is missing, 412 exactly for another version's ETag |
| `Http.MatchedIsETag` | apps/api/app/core/http.py:5-16 | A header the pattern and range accept is the ETag of one version: parsing and printing are inverse |
| `Http.ETagParses` | apps/api/app/core/http.py:5-16 | The ETag of any representable version is accepted and parses back to it |
| `Http.ParseDecimal` | apps/api/app/core/http.py:5-16 | Printing a number and reading it back returns it |
| `Http.DecimalParse` | apps/api/app/core/http.py:5-16 | Reading a numeral without leading zero and printing it returns it |
| `Http.ETagInjective` | apps/api/app/core/http.py:9-16 | Different versions have different ETags |
| `Jobs.JobStore.Enqueue` | apps/api/app/infrastructure/jobs.py:23-52 | The table after one enqueue transaction: a new pending row, or the untouched table on a dedupe hit; raises when the hit is finished |
| `Jobs.JobStore.Claim` | apps/api/app/infrastructure/jobs.py:55-90 | The swept table, and the lease on the next claimable unlocked row if there is one |
| `Jobs.JobStore.Renew` | apps/api/app/infrastructure/jobs.py:93-108 | True exactly when the lease holds; then only that row's lease end moves |
| `Jobs.JobStore.Finish` | apps/api/app/infrastructure/jobs.py:111-141 | True exactly when the lease holds; then that row is done, failed or pending after its back-off |
| `Jobs.NextExists` | apps/api/app/infrastructure/jobs.py:70-80 | A claim finds a row exactly when some unlocked row is claimable |
| `Jobs.NextUnique` | apps/api/app/infrastructure/jobs.py:70-80 | The row a claim selects is determined by run time and identifier |
| `Jobs.ClaimedRow` | apps/api/app/infrastructure/jobs.py:55-90 | What a claim does to every single row: the sweep, and a lease on at most one row that was claimable and unlocked |
| `JobProtocol.StepSafe` | apps/api/app/infrastructure/jobs.py:55-141 | Any transaction by any worker, at any reading of the clock, keeps the queue invariant |
| `JobProtocol.RunSafe` | apps/api/app/infrastructure/jobs.py:23-141 | The queue invariant holds along every interleaving, crashed workers included |
| `JobProtocol.RunningIffOneCurrentLease` | apps/api/app/infrastructure/jobs.py:55-141 | In every reachable state a job runs exactly when one granted lease is current for it, never two, and its attempts are its claims and within the limit |
| `JobProtocol.SupersededForEver` | apps/api/app/infrastructure/jobs.py:93-141 | A lease that is no longer current stays so: through it no renewal and no finish ever changes a row, at any time |
| `JobProtocol.Supersedes` | apps/api/app/infrastructure/jobs.py:55-141 | A later claim, a completed finish and the exhaustion sweep each end the lease |
| `JobProtocol.JobStep` | apps/api/app/infrastructure/jobs.py:23-141 | The complete list of changes one transaction can make to one row |
| `JobProtocol.TerminalForEver` | apps/api/app/infrastructure/jobs.py:111-141 | Done and failed rows never change again |
| `JobProtocol.RankDrops` | apps/api/app/infrastructure/jobs.py:55-141 | Every transaction but a renewal that touches a job lowers a fixed measure of claims left and state |
| `JobProtocol.TouchesAreBounded` | apps/api/app/infrastructure/jobs.py:55-141 | Over any run the transactions other than renewals that touch a job are bounded by that measure, twice the claim limit for a fresh job |
| `JobProtocol.RunTimed` | apps/api/app/infrastructure/jobs.py:55-108 | On a clock that never runs backwards the lease intervals of a job keep their order |
| `JobProtocol.LeasesAreDisjoint` | apps/api/app/infrastructure/jobs.py:55-108 | Two leases on one job never overlap and the earlier ends before the later starts |
| `JobProtocol.DeadForEver` | apps/api/app/infrastructure/jobs.py:93-141 | A lease once expired or superseded changes nothing at any later time |
| `JobProtocol.RenewalExtends` | apps/api/app/infrastructure/jobs.py:93-108 | A renewal never shortens the lease |
| `JobProtocol.FailureBacksOff` | apps/api/app/infrastructure/jobs.py:111-141 | A failed attempt ends the job exactly at the claim limit or for an unknown handler; otherwise it is claimable exactly from min(2^attempts, 60) seconds on |
| `Worker.SlotBounds` | apps/api/app/worker.py:58-65 | A moment lies in its slot, and the slot one period ahead starts strictly later than now |
| `Worker.SameSlot` | apps/api/app/worker.py:58-65 | Two moments share a slot exactly when no boundary separates them |
| `Worker.FutureSlotIsLive` | apps/api/app/worker.py:110-116 | Scheduling a slot still in the future never fails and yields a pending, never claimed job for it, new or already there |
| `Worker.CloseRearms` | apps/api/app/worker.py:110-116 | The transaction that closes a periodic run leaves exactly one row for the next slot, pending and never claimed |
| `Worker.LiveUnlessSwept` | apps/api/app/worker.py:110-131 | Exact condition: a step takes the last live job of a periodic kind away exactly when it is a claim whose sweep exhausts all of that kind's live jobs |
| `Worker.CadenceHolds` | apps/api/app/worker.py:79-131 | Every ordered run without such a claim keeps a pending or running job of each live periodic kind |
| `Worker.SeedMakesLive` | apps/api/app/worker.py:129-131 | After a seed a kind is live exactly when the current slot had no row or some row of the kind was alive already |
| `Worker.CadenceCanStop` | apps/api/app/infrastructure/jobs.py:61-69 | Unconditional liveness is false: seven events, five crashed runs and a sixth claim, leave the hourly purge without a live job |
| `Worker.CloseTransaction` | apps/api/app/worker.py:110-116 | Finishing and re-arming are one transaction: an error in the second undoes the first |
| `Worker.Schedule` | apps/api/app/worker.py:62-65 | Scheduling is an enqueue under the key of the slot |
| `Notifications.NotificationStore.AppendNotifications` | apps/api/app/infrastructure/notifications.py:20-60 | The rows and counters after one call, equal to appending one by one in ascending recipient order, and the rows returned |
| `Notifications.AppendContiguous` | apps/api/app/infrastructure/notifications.py:40-56 | One append keeps every recipient's numbers exactly 1..counter |
| `Notifications.AscendingSorted` | apps/api/app/infrastructure/notifications.py:28-45 | The lock order lists each recipient once, in strictly ascending order |
| `Notifications.SelectContiguous` | apps/api/app/infrastructure/notifications.py:63-83 | On a contiguous store the ordered query returns the numbers that follow the cursor without a gap |
| `Notifications.ReadContiguous` | apps/api/app/infrastructure/notifications.py:63-83 | A cursor up to the counter is never rejected, yields the next numbers without a gap, and reports more exactly when more are committed |
| `Notifications.PlanIsAppend` | apps/api/app/infrastructure/notifications.py:37-60 | Writing the rows planned under the locks is the same as appending them one by one at commit |
| `Notifications.PlanFrame` | apps/api/app/infrastructure/notifications.py:37-60 | A plan depends only on the counters of the recipients it names |
| `Notifications.AppendAllContiguous` | apps/api/app/infrastructure/notifications.py:20-60 | Any sequence of appends keeps numbers gap-free |
| `NotificationProtocol.LockInv` | apps/api/app/infrastructure/notifications.py:28-45 | Locking one more counter keeps the protocol invariant |
| `NotificationProtocol.CommitIsAtomicAppend` | apps/api/app/infrastructure/notifications.py:20-60 | Refinement: a commit publishes exactly what appending atomically at that moment would |
| `NotificationProtocol.RunInv` | apps/api/app/infrastructure/notifications.py:20-83 | Over any interleaving of locks, commits, rollbacks and polls: committed numbers are exactly 1..k for every recipient, and every client holds rows 1..cursor once, in order |
| `NotificationProtocol.PollProgress` | apps/api/app/infrastructure/notifications.py:63-83 | A poll of a reachable state is never refused; it delivers all there is or advances by the full limit |
| `NotificationProtocol.RowsAreForEver` | apps/api/app/infrastructure/notifications.py:20-60 | A committed row is never renumbered, replaced or withdrawn |
| `NotificationProtocol.CallIsSorted` | apps/api/app/infrastructure/notifications.py:28-45 | Every call's script is in ascending recipient order |
| `NotificationProtocol.NoDeadlock` | apps/api/app/infrastructure/notifications.py:28-45 | When each transaction makes one call, no reachable wait-for graph has a cycle, for any number of transactions and recipients |
| `NotificationProtocol.SomeoneMoves` | apps/api/app/infrastructure/notifications.py:28-45 | While a transaction is open, one of them can take its next lock or commit |
| `Files.LinkAllExact` | apps/api/app/infrastructure/assets.py:28-40 | Linking keeps every link, links every listed asset and no other |
| `Files.DeleteExact` | apps/api/app/infrastructure/file_service.py:117-138 | Deletion succeeds exactly for the uploader's own unlinked file at its current version, in a case that is theirs and open |
| `Files.FileStore.Upload` | apps/api/app/infrastructure/file_service.py:67-111 | The store with the new quarantined row, its blob and its queued scan |
| `Files.FileStore.LinkFiles` | apps/api/app/infrastructure/assets.py:28-40 | The links after the loop are the specified set |
| `Files.FileStore.Delete` | apps/api/app/infrastructure/file_service.py:117-145 | The row marked deleted and its removal queued, or the error with the store unchanged |
| `Files.FileStore.ScanCommit` | apps/api/app/infrastructure/file_jobs.py:62-81 | The second transaction of a scan writes verdict, version and notice only if the row is still the version the scan read |
| `FileProtocol.StepInv` | apps/api/app/infrastructure/file_jobs.py:51-90 | Uploads, overlapping scans, links, deletions and the delete job each keep the asset invariant |
| `FileProtocol.OneVerdict` | apps/api/app/infrastructure/file_jobs.py:51-81 | However often scans run and overlap, an asset gets at most one verdict and one notice, and has left quarantine undeleted exactly with that notice |
| `FileProtocol.VerdictIsFinal` | apps/api/app/infrastructure/file_jobs.py:62-81 | The first committed verdict is never overwritten |
| `FileProtocol.DeletedForEver` | apps/api/app/infrastructure/file_service.py:117-145 | A deleted asset is never revived |
| `FileProtocol.LinkedIsKept` | apps/api/app/infrastructure/assets.py:10-40 | A linked asset is ready and stored, and no interleaving unlinks it, deletes it or removes its blob |
| `FileProtocol.JobsAreQueued` | apps/api/app/infrastructure/file_service.py:111-145 | In every reachable state each asset has its scan queued, and its removal exactly from its deletion on |
| `ContentRuns.StepInv` | apps/api/app/modules/training/service.py:315-342 | Files, drafts, publications and task requests, in one system, each keep the joint invariant |
| `ContentRuns.SnapshotsAreSafe` | apps/api/app/modules/training/service.py:332-338 | In every run of tasks, plans and files together, every attachment of every submission snapshot is linked to that submission, ready and stored, and stays so at every later time |
| `ContentRuns.PublishedMediaAreSafe` | apps/api/app/modules/sop/service.py:220-248 | In every such run, every medium of every published revision is linked to it, ready and stored, and stays so |
| `ContentRuns.OwnersAreDistinct` | apps/api/app/modules/training/service.py:332-338 | No two attempts share a submission row, so a link names one attempt of one task |
| `ContentRuns.TasksAreSound` | apps/api/app/modules/training/service.py:24-53 | The tasks that publication creates keep the whole task aggregate and the steps of their revision, whatever happens to plans and files |
| `ContentRuns.OneOpenTask` | apps/api/app/modules/training/service.py:30-36 | A case has at most one task that is not completed or cancelled |
| `Idempotency.ReplayCache.Execute` | apps/api/app/infrastructure/idempotency.py:41-80 | One request against the cache: replay, conflict, or the command applied once and recorded; an error leaves the store unchanged |
| `Idempotency.ReplayCache.Purge` | apps/api/app/infrastructure/idempotency.py:83-90 | Exactly the expired records are removed, and their number returned |
| `Idempotency.RunComplete` | apps/api/app/infrastructure/idempotency.py:41-80 | Every stored record has a response in every reachable state |
| `Idempotency.AnswerExact` | apps/api/app/infrastructure/idempotency.py:41-80 | Exactly which requests are answered, from the record or by the command, and which conflict; authorization comes first, for replays too |
| `Idempotency.ReplaysAgree` | apps/api/app/infrastructure/idempotency.py:41-80 | Between purges of a scope its effect is applied at most once and every success carries the same fingerprint and response |
| `Idempotency.KeptUntilExpiry` | apps/api/app/infrastructure/idempotency.py:72-90 | A record survives every purge before its expiry |
| `Idempotency.OnlyApplicationsChange` | apps/api/app/infrastructure/idempotency.py:41-80 | Replays and failures leave the world as it was |
| `Idempotency.IfMatchGuards` | apps/api/app/web/commands.py:41-57 | A command built with If-Match applies at one version only and leaves a later one |
| `Idempotency.GuardedOnceForEver` | apps/api/app/infrastructure/idempotency.py:41-90 | Whatever is retried, failed or purged, at most one command guarded by a given version ever takes effect |
| `Training.TaskRow.Action` | apps/api/app/modules/training/service.py:153-164 | The task after an action, or the error with the task unchanged |
| `Training.TaskRow.UpdateProgress` | apps/api/app/modules/training/service.py:167-208 | The task after saving one step, or the error with the task unchanged |
| `Training.TaskRow.Submit` | apps/api/app/modules/training/service.py:315-342 | The task after submitting, with its snapshot, and the files linked to the submission |
| `Training.TaskRow.Review` | apps/api/app/modules/training/service.py:363-409 | The task after a review: the reset loop over the redo list included |
| `Training.TaskRow.constructor` | apps/api/app/modules/training/service.py:44-53 | A new task has one untouched row per revision step |
| `TrainingRuns.ExecuteInv` | apps/api/app/modules/training/service.py:153-409 | Every successful request keeps the task invariant |
| `TrainingRuns.ReachableAggregate` | apps/api/app/modules/training/service.py:153-409 | Every reachable task: attempts 1..n; all submissions but the latest returned; submitted means all steps completed and equal to the latest snapshot without feedback; changes requested means the open steps are exactly the redo set; completed means a passed latest feedback; at most one step is in progress and it is the first open one; completed steps that require evidence have it |
| `TrainingRuns.ReworkIsExact` | apps/api/app/modules/training/service.py:167-208 | Consecutive snapshots differ only at steps the feedback between them names, and every other step is still what was last submitted |
| `TrainingRuns.HistoryIsImmutable` | apps/api/app/modules/training/service.py:315-404 | Snapshots never change, nor does a feedback once given |
| `TrainingRuns.TerminalForEver` | apps/api/app/modules/training/public.py:15-28 | Completed and cancelled tasks never change again |
| `TrainingRuns.SavedStep` | apps/api/app/modules/training/service.py:178-203 | A save reaches only the first open step; after a return that step was named by the feedback |
| `TrainingRuns.Reviewed` | apps/api/app/modules/training/service.py:363-400 | A successful review concerns the latest submission of a task that awaits one, and names only steps of the task |
| `TrainingRuns.SubmittedRows` | apps/api/app/modules/training/service.py:315-342 | While a submission awaits review the progress rows are exactly its snapshot |
| `TrainingRuns.SuccessNeedsVersion` | apps/api/app/core/http.py:9-16 | A request succeeds only with the task's current ETag |
| `TrainingRuns.OneWinnerPerVersion` | apps/api/app/modules/training/service.py:153-164 | Of all requests with one If-Match header at most one ever succeeds |
| `TrainingRuns.SubmissionFilesReady` | apps/api/app/modules/training/service.py:326-338 | A submission succeeds only when every attachment of its snapshot is ready for this task |
| `TrainingLiveness.ActSucceedsIff` | apps/api/app/modules/training/service.py:153-164 | The action route succeeds exactly in an open case with the current ETag, from the listed states, by the learner, or for a cancellation by the counselor with a reason |
| `TrainingLiveness.SaveSucceedsIff` | apps/api/app/modules/training/service.py:167-208 | A save succeeds exactly in an open case on the first open step of a running task, with distinct ready files and evidence where it is due |
| `TrainingLiveness.SubmitSucceedsIff` | apps/api/app/modules/training/service.py:315-342 | A submission succeeds exactly when the case is open, the task runs, every step is finished and every attachment of every step is ready |
| `TrainingLiveness.ReviewSucceedsIff` | apps/api/app/modules/training/service.py:363-409 | On every reachable task a review succeeds exactly in an open case, on the latest submission of a task awaiting one, with consistent feedback |
| `TrainingLiveness.CanFinish` | apps/api/app/modules/training/service.py:153-409 | From every status that is not terminal, a task of an open case that meets the condition below can be brought to completion |
| `TrainingLiveness.LostForEver` | apps/api/app/modules/training/service.py:182-203 | While no submission finds a finished step's file, whatever else is uploaded, the step stays finished and the task is never submitted or completed |
| `TrainingLiveness.BlockedForEver` | apps/api/app/modules/training/service.py:315-342 | A task without steps, with a lost file, or with evidence due and no file to give is never submitted or completed by requests over those files |
| `TrainingLiveness.NeededRun` | apps/api/app/modules/training/service.py:153-409 | A successful request is at most one unit of the progress that completion takes, and none succeeds in a closed case or past the last version number |
| `TrainingLiveness.CompletableIff` | apps/api/app/modules/training/service.py:153-409 | Exact condition for every reachable task that is not terminal: it can be completed if and only if the case is open, the version numbers it takes exist, and it awaits review or has steps whose finished ones keep their files and whose other ones can have the evidence they require |
| `TrainingLiveness.EvidenceCanBeLost` | apps/api/app/infrastructure/file_service.py:117-138 | Unconditional completability is false: over file states that uploads, scans and a deletion really reach, a reachable task becomes incompletable when the uploader deletes a file of a finished step before the submission links it |
| `Observations.RecordedIffAcceptable` | apps/api/app/modules/training/service.py:211-251 | A batch of observations is refused exactly when an event is malformed or an identifier is reused with other values |
| `Observations.Recorded` | apps/api/app/modules/training/service.py:211-251 | An accepted batch is stored whole, nothing stored changes, and new plus duplicate events are the batch |
| `Observations.OnlyTheBatch` | apps/api/app/modules/training/service.py:226-242 | A batch stores nothing but its own events |
| `Observations.ResendIsHarmless` | apps/api/app/modules/training/service.py:236-250 | Sending a stored batch again, later, accepts nothing new and changes nothing |
| `Observations.ErrorStays` | apps/api/app/modules/training/service.py:218-248 | The first refused event decides the batch's error |
| `Observations.EventStore.Record` | apps/api/app/modules/training/service.py:211-251 | The loop stores and counts exactly as specified, and an error leaves the table unchanged |
| `Sop.CurrentTasks` | apps/api/app/modules/training/queries.py:35-52 | For every case among the lines, its first active line, or its first line when none is active |
| `Sop.SopStore.HighestNumber` | apps/api/app/modules/sop/service.py:149-151 | The loop's maximum is the greatest revision number of the plan, zero without revisions |
| `Sop.SopStore.AddRevision` | apps/api/app/modules/sop/service.py:135-177 | The stored rows after a new draft, or the error |
| `Sop.SopStore.Save` | apps/api/app/modules/sop/service.py:180-217 | The stored rows after saving a draft, or the error |
| `Sop.SopStore.PublishDraft` | apps/api/app/modules/sop/service.py:220-248 | The published row and its media linked to it, or the error with rows and links unchanged |
| `Sop.SopStore.AddTask` | apps/api/app/modules/training/service.py:24-53 | The new task head of a published revision, or the error |
| `Sop.SopStore.Publish` | apps/api/app/web/sop.py:199-208 | Publishing, linking and creating the task are one transaction: an error in the second service undoes rows and links of the first |
| `Sop.MaxNumberUnique` | apps/api/app/modules/sop/service.py:149-151 | A plan's greatest number is determined |
| `SopRuns.RunInv` | apps/api/app/modules/sop/service.py:117-248 | Every run keeps numbering, drafts, publications and tasks consistent |
| `SopRuns.PublishedForEver` | apps/api/app/modules/sop/service.py:220-248 | A published revision's row, content and step order included, never changes |
| `SopRuns.ReachablePlans` | apps/api/app/modules/sop/service.py:117-248 | Numbers per plan are 1..n without gap or repetition; at most one draft, on top; one task per published revision; one active task per case |
| `SopRuns.PublishedStartsTask` | apps/api/app/modules/training/service.py:24-53 | The task of any published revision starts in the task invariant |
| `SopRuns.CurrentIsTheActiveTask` | apps/api/app/modules/training/queries.py:35-52 | The task reported for a case is its active task whenever it has one |
| `SopRuns.SaveSucceedsIff` | apps/api/app/modules/sop/service.py:180-217 | A save succeeds exactly on a draft of an open case, for its counselor, at its version, with steps numbered 1..n, distinct, and all media ready |
| `SopRuns.PublishSucceedsIff` | apps/api/app/web/sop.py:199-208 | Publishing with its task succeeds exactly for a complete, confirmed draft at its version, with all media ready, of an open case without an active task |
| `SopRuns.NewRevisionSucceedsIff` | apps/api/app/modules/sop/service.py:135-177 | On every reachable database a new revision starts exactly when the case is open, the plan's newest one is published and the base, if any, is a published revision of the plan |
| `Budget.Limiter.TakeBudget` | apps/api/app/modules/identity/service.py:225-239 | The stored row and the answer of one attempt |
| `Budget.RunInv` | apps/api/app/modules/identity/service.py:225-239 | Over any ascending sequence of attempts the row and the acceptances keep their relation |
| `Budget.AtMostTwiceLessOne` | apps/api/app/modules/identity/service.py:225-239 | Any half-open interval of the window's length holds at most 2n - 1 acceptances |
| `Budget.CooldownIsExact` | apps/api/app/modules/identity/service.py:225-239 | With n = 1 consecutive acceptances are a window apart |
| `Budget.RefusalIsEarned` | apps/api/app/modules/identity/service.py:225-239 | A refusal happens only when the preceding window already holds n acceptances |
| `Budget.BoundIsReached` | apps/api/app/modules/identity/service.py:225-239 | For every n and every window of at least two ticks some sequence reaches 2n - 1, so the bound is tight |
| `Identity.IdentityStore.Submit` | apps/api/app/modules/identity/management.py:54-75 | The certification row after a submission, or the error |
| `Identity.IdentityStore.Review` | apps/api/app/modules/identity/management.py:78-111 | Certification, roles and credential generation after a decision, or the error |
| `Identity.IdentityStore.ChangeStatus` | apps/api/app/modules/identity/management.py:138-164 | The account row after a status change, or the error |
| `Identity.IdentityStore.AssignCounselor` | apps/api/app/modules/cases/administration.py:41-83 | The grant and the case version after an assignment, or the error |
| `Identity.IdentityStore.RevokeGrantRows` | apps/api/app/modules/cases/administration.py:86-109 | The loop ends every live grant of the counselor and bumps exactly those cases |
| `Identity.IdentityStore.RevokeCounselorGrants` | apps/api/app/modules/cases/administration.py:86-109 | The same behind the administrator check |
| `Identity.IdentityStore.TouchSession` | apps/api/app/modules/identity/service.py:220-222 | Only a session that is still valid is touched, and its last use never goes back |
| `Identity.IdentityStore.SignIn` | apps/api/app/modules/identity/service.py:108-147 | Old session revoked and new one issued, or both undone |
| `Identity.IdentityStore.SignOut` | apps/api/app/modules/identity/service.py:150-172 | The session is revoked, or the error |
| `IdentityRuns.StepInv` | apps/api/app/modules/identity/management.py:54-164 | Every route keeps roles, grants and sessions consistent |
| `IdentityRuns.RunInv` | apps/api/app/modules/identity/management.py:54-164 | The same along every run |
| `IdentityRuns.LiveGrantsAreEligible` | apps/api/app/modules/cases/administration.py:41-109 | From an empty store every live grant belongs to an active, approved counselor who is not the case's learner, and the counselor role is held exactly with an approved certification |
| `IdentityRuns.SuspensionEndsGrants` | apps/api/app/web/management.py:161-227 | Suspension and revocation end every live grant of that counselor and no other grant |
| `IdentityRuns.RefusedIffDead` | apps/api/app/modules/identity/queries.py:17-43 | On reachable states a session is refused exactly for one of six reasons |
| `IdentityRuns.SessionStep` | apps/api/app/modules/identity/service.py:42-62 | A session row only changes by revocation, or by a touch while still valid |
| `IdentityRuns.RefusedForEver` | apps/api/app/modules/identity/queries.py:17-43 | Once an issued session is refused, no run makes it resolve again at any later time |
| `IdentityRuns.LoginResolves` | apps/api/app/modules/identity/service.py:108-147 | On every reachable state a login past the password check succeeds, its session resolves, and the old one never does again |
| `IdentityRuns.PrivilegeChangeSignsOut` | apps/api/app/modules/identity/management.py:107-110 | Password resets, decisions, status changes and operator changes end every earlier session of that account |
| `IdentityRuns.GuardedWrite` | apps/api/app/modules/identity/management.py:54-164 | A management write succeeds only with the row's current ETag and moves its version on |
| `IdentityRuns.OneWinnerPerVersion` | apps/api/app/modules/cases/administration.py:41-83 | Two successful writes to one certification, account or case never carried the same If-Match header |
| `IdentityRuns.AssignSucceedsIff` | apps/api/app/modules/cases/administration.py:41-83 | On reachable states an assignment succeeds exactly for an active, approved counselor who is not the learner, on an open case at its version, by another administrator |
| `IdentityRuns.ReviewSucceedsIff` | apps/api/app/web/management.py:202-227 | A review succeeds exactly on another user's certification in the state the decision needs; ending the grants afterwards never fails |
| `IdentityRuns.StatusSucceedsIff` | apps/api/app/web/management.py:161-186 | A status change succeeds exactly for another account that is no administrator, at its version; ending the grants afterwards never fails |
| `Challenges.ChallengeStore.RequestEmail` | apps/api/app/modules/identity/registration.py:37-81 | A delivered mail replaces the row; a failed delivery leaves it as it was |
| `Challenges.ChallengeStore.SignUp` | apps/api/app/modules/identity/registration.py:84-144 | Answer and committed state of one registration attempt; the counted attempt outlives a refusal |
| `Challenges.ChallengeStore.ChangePassword` | apps/api/app/modules/identity/registration.py:147-174 | Answer and committed state of one reset |
| `Challenges.RunInv` | apps/api/app/modules/identity/registration.py:37-174 | Every run keeps rows, guesses, acceptances and logins consistent |
| `Challenges.SecretsAreSpentOnce` | apps/api/app/modules/identity/registration.py:84-174 | Over every run: at most five guesses and one acceptance for each mailed secret, and one account per address |
| `Challenges.SpentStaysSpent` | apps/api/app/modules/identity/registration.py:94-174 | An accepted secret changes nothing again |
| `Challenges.FiveGuessesEnd` | apps/api/app/modules/identity/registration.py:98-106 | After five guesses even the right code is refused |
| `Architecture.Visitor.Visit` | tools/check_architecture.py:134-143 | On return the module is visited, the stack is as before, and the completion order only grew; each exception comes with the cycle or the missing name that explains it |
| `Architecture.Check` | tools/check_architecture.py:132-149 | Returns normally exactly when the dependencies are closed and acyclic, then with every module completed once in topological order; on a closed map it raises exactly when there is a cycle, through the module it names |
| `Architecture.StackCloses` | tools/check_architecture.py:135-136 | Meeting a module being visited exhibits a cycle through it |
| `Architecture.TopologicalIsAcyclic` | tools/check_architecture.py:142-143 | A topological order of all modules excludes every cycle |
| `Generator.Render` | tools/generate_http_models.py:18-127 | Succeeds exactly when the schemas to emit reference only existing schemas, without a cycle, and each can be annotated; then each has one block, its annotations name only imported schemas or earlier blocks, and nothing else is imported |
| `Generator.Generator.Emit` | tools/generate_http_models.py:84-124 | Emits the schema and what it needs, leaving everything emitted before in place; each error comes with its reason |
| `Generator.Generator.Reference` | tools/generate_http_models.py:29-33 | The name is imported if written by hand and emitted otherwise |
| `Generator.Generator.Annotate` | tools/generate_http_models.py:35-59 | The annotation names exactly the schema's references, all of them imported or emitted; errors are explained |
| `Generator.Generator.AnnotateFields` | tools/generate_http_models.py:105-121 | The loop over properties names exactly their references |
| `Generator.LastSegmentIsSuffix` | tools/generate_http_models.py:37 | The referenced name is the part after the last slash |
| `Generator.Finished` | tools/generate_http_models.py:126-127 | A finished generation is complete, and its schemas closed and acyclic |
| `JsonPointer.UnescapeIsDecoded` | tools/check_contract.py:41-42 | On every well-formed token the two replacements are the one-pass decoding of section 4 of RFC 6901 |
| `JsonPointer.DecodeEncode` | tools/check_contract.py:42 | Every key has a token that decodes to it |
| `JsonPointer.EncodeDecode` | tools/check_contract.py:42 | A well-formed token is the encoding of what it decodes to |
| `JsonPointer.SplitJoined` | tools/check_contract.py:41 | Joining tokens with slashes and splitting returns them |
| `Contract.MergedStrings` | tools/check_contract.py:43-45 | Expansion terminates on every finite document by unvisited references, then node size: a followed reference is new and brings in no text that is not in the document or the node |
| `Contract.ExpandCanonical` | tools/check_contract.py:30-59 | Whatever an expansion returns has no reference, prose or constant in schema position and sorted required names |
| `Contract.CanonicalFixed` | tools/check_contract.py:30-59 | Such a value is a fixed point of expansion under every document and path |
| `Contract.ExpansionIsStable` | tools/check_contract.py:30-59 | Expanding a result again changes nothing |
| `Contract.PathIndependent` | tools/check_contract.py:37-45 | The visited path decides only whether an expansion is refused, never its result |
| `Contract.ReferenceMeansMerge` | tools/check_contract.py:32-45 | A reference expands to the expansion of its target with the siblings on top |
| `Contract.ReferenceMeansTarget` | tools/check_contract.py:32-45 | Without siblings it expands to what its target expands to |
| `Contract.PointerResolves` | tools/check_contract.py:40-42 | A pointer built from any keys resolves to the value at those keys |
| `Contract.RequiredOrderIrrelevant` | tools/check_contract.py:54-55 | The order of required names never matters to a comparison |
| `Contract.ProseIrrelevant` | tools/check_contract.py:47-51 | Titles, descriptions and examples never matter to a comparison |
| `Contract.SortedAscends` | tools/check_contract.py:54-55 | The sorted names ascend and are a permutation of the given ones |
| `Contract.ExpandNode` | tools/check_contract.py:30-59 | The loops that fill the result compute the specified expansion, or raise exactly when it is undefined |
| `Base64.DecodeEncode` | apps/api/app/infrastructure/pagination.py:19-36 | Strict decoding undoes the URL-safe encoding, for every byte sequence |
| `Base64.RestoreStripped` | apps/api/app/infrastructure/pagination.py:21-36 | The stripped padding is recovered from the length, and the stripped text is URL-safe |
| `Base64.RoundTrip` | apps/api/app/infrastructure/pagination.py:15-36 | Every byte sequence comes back through the unpadded text |
| `Pagination.CursorRoundTrip` | apps/api/app/infrastructure/pagination.py:15-36 | A cursor decodes to its position under its own scope and is refused with 400 under any other |
| `Pagination.CursorInjective` | apps/api/app/infrastructure/pagination.py:32-36 | Different positions or scopes have different cursors |
| `Pagination.RefusalIs400` | apps/api/app/infrastructure/pagination.py:19-29 | Every refusal is the 400 of an invalid cursor except, exactly, an otherwise valid cursor whose identifier is neither text nor null |
| `Pagination.UnhandledCursor` | apps/api/app/infrastructure/pagination.py:19-29 | The exception is reachable: the encoding of the program's own fields with another JSON value as identifier escapes the handler |
| `Pagination.ListingUnique` | apps/api/app/modules/training/service.py:130-134 | A set of rows has one descending listing |
| `Pagination.MatchingAfter` | apps/api/app/modules/training/service.py:127-129 | The rows after a row of a listing are the rest of that listing |
| `Pagination.FollowIsListing` | apps/api/app/modules/training/service.py:126-138 | Following cursors for n pages reads the first n times limit rows of the first listing, ends exactly when all are read, and newer rows arriving between requests change nothing |
| `Pagination.EveryRowOnce` | apps/api/app/modules/training/service.py:126-138 | A finished walk has every row of the first table once, newest first |
| `Pagination.TextsFollow` | apps/api/app/modules/training/service.py:126-138 | Through cursor texts the walk is the same and is never refused |

## Left out

- User interfaces, HTTP routing, CSRF, cookies, middleware and problem bodies; only the facts that two services share a transaction are kept.
- SQL, isolation levels and the ORM: rows are map entries and row locks are the atomicity of a step, except for the job, scan and notification protocols.
- Password hashing, digests, tokens and UUIDs are opaque values; freshness is assumed, and a digest is taken as injective.
- JSON text, ISO timestamps and UUID text are inverse pairs by assumption (`Pagination.Faithful`); dedupe keys of time slots are modelled as the slot itself.
- Database integers are unbounded here; the If-Match limit of 2147483647 is kept.
- White space is the list in `Common.IsSpace`, not the whole Unicode category.
- A Python `ValueError`, `KeyError` or `AttributeError` that leaves a service becomes one error value, without its text.
- Audit rows, email text and delivery, virus scanning, image inspection, storage and backups.
- `mark_read`, listing payloads, record totals and workload counts: each is settled by reading one branch.
- Reminders, step texts, feedback tags and annotation identifiers are opaque or absent; prompt levels are not bounded; the archived revision state is never reached by the modelled routes.
- Support messages and annotations adopt files in the runs (`FileProtocol.Adopt`), but their rows are not modelled.
- Observation timestamps are given as parsed, with a missing zone as the only malformed case.
- Upload: the route's checks of purpose, task and file name, and the removal of a blob whose upload rolls back.
- Job payload size and kind checks beyond the ones `enqueue` makes.
- Process start seeds one periodic kind per step instead of all in one transaction.
- Expand: which recursive documents are refused is not characterised; sibling keys can override a target, so a document can be refused although plain inlining would end.
- ExpandNode: every Python exception is the same `None`, and the order in which dictionary entries raise is not modelled; `required` lists of two or more values that are not all strings count as raising.
- Render: rendered text is a tree of annotations; quoted schema texts, limits and default expressions are not modelled.
- Check: unregistered directories, import violations and missing public files are separate lists of messages and are not modelled.
- Page: rows that leave a filter or disappear between requests are not modelled, only rows that arrive.
- Page: a limit below one is excluded, as the routes exclude it.
- SignUp: password rules and the profile rows a registration writes are not modelled.
- Assign: the case lifecycle is moved by other services, which the runs allow to happen at any time.
