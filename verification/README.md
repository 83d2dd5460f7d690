# ipa-now: the job, lease and quarantine protocol

ipa-now decrypts iOS applications on one device. A job is admitted, claims the device, is
attempted, verified, published and cleaned up; the process may die between any two of its
database transactions or file operations. This project models that protocol in Dafny and proves
its promises for every run: a dirty device is never handed over, an unconfirmed artifact is never
served, an accepted cancellation beats completion, and a crash at any point is recoverable.

## How it is modelled

**The machine** (`Protocol`). A state `Sys` holds the database (job rows, the singleton device,
the recorded operations), the file store (`work`, `inputs`, `artifacts`), a monotone clock, the
program counter of the scheduler thread with its locals, any number of operator confirmations in
flight, one upload, and a history of what happened beyond what the service stores: which
operations are outstanding (`dirty`), engine calls, scheduled waits, the bytes that passed
verification, and the rows the last serving process left. Each database transaction is one step,
because the store has one connection (internal/jobs/store.go:63); each file operation is another.
`Next` is the step function, `Exec` the state after a sequence of steps, and a `Trace` that `IsRun`
a run with all its moments, over which the theorems quantify. An `Oracle` supplies what a step cannot know: whether
a transaction or file operation succeeds, whether a context has ended, what the library answered,
which row or directory entry comes next, a fresh identifier. `Crash` may come at any time; after
it only startup recovery and the clock move until recovery has finished (cmd/ipa-now/main.go:69-90).

**The invariant** (`Invariant`). `WorldInv` speaks of rows, files, device and operations; `PcInv`
of what the scheduler thread knows at each program point; `ConfirmOk` of what a confirmation has
established. Proofs follow rely/guarantee: every step satisfies `Evolves`; steps of other threads
satisfy the stronger `Env`, under which `PcInv` is stable (`Stability`). `Frames` and `Effects`
reduce each step to the one row or the one job's files it touches; `WorkerSteps`,
`PublicationSteps`, `EndingSteps` and `RecoverySteps` treat the program counters; `Safety` closes
the induction. "The scheduler has stopped" is part of the invariant: `Run` releases the lease even
when it returns an error with the job still active (internal/worker/worker.go:42), and only the
scheduler's stopping (internal/scheduler/scheduler.go:31-33) makes that safe.

**The program in place.** `JobStore` and `FileStore` carry out every transaction and file operation
on mutable fields; `Worker` in `Service` is the structured code of `Run`, `finish`,
`cleanupDevice`, `Expire`, `Recover` and the scheduler loop over them. Other goroutines get the
processor before each of its sections. `Request` in `Operator` is `Worker.Resolve`, an operator's
confirmation, among all the other threads. The class invariants tie the two stores to the machine:
whatever the structured code does is a run of `Next`, so every theorem about runs is about it. Each
section takes the answers of its environment as arguments (the database is up, a file can be removed,
the context has ended), and its contract says what it makes of each, in fields and not by naming the
machine's step; the procedures around the sections let the answers be anything.

**Runs that exist.** `Completion` carries the first claimable job of any idle moment through to the
end, so the theorems about completed jobs speak of something; `Boundary`, `Stale` and `Surprises`
use it to build, from the empty service, each run the next section names. `Retries`, `EarlyEnd` and
`Entry` build the runs that reach the bounds: all attempts made, a job that fails before it has touched
the device, a full queue.

**Secondary components**: the archive scan (`Paths`, `Archive`), UTF-8 truncation (`Utf8`), the
progress channel (`Monitor`) and the two-factor broker (`Broker`).

Assumptions: transactions are atomic and serial, renames durable, one process at a time; fresh
identifiers never repeat; a cleanup report that says confirmed is truthful; the clock does not run
backwards. `CreatedAt` and `AvailableAt` are both the time of admission. Back-off is in
milliseconds. Configured limits are at least 1, as internal/config/config.go:169-176 demands.

## Where the code is not what one expects

- `Expire` removes an artifact at the instant of expiry, while the download check refuses only after
  it: a passing check guarantees the file for a time exactly when that time lies before the expiry
  (`Boundary.CertainExactly`). `Surprises.GapRun` is a run that comes to the gap.
- A cancelled job may end as Failed, when `Expire` marks it in cleanup. At the step that accepts the
  cancellation this can still happen exactly when the artifact is recorded and unmarked, or the worker
  is between settlement and the record of the artifact with an output that can pass validation
  (`Cancellation.CancelExactly`); in the queue, and through all attempts, it cannot.
  `Surprises.CancelledEndsFailed` is a run.
- A committed outcome can go from Failed back to Completed. `finish` holds the outcome in a local and
  writes it at the end (internal/worker/worker.go:245-249, 258-260); a mark that `Expire` makes in
  between is overwritten. Only a confirmation of a job already finished can make such a mark, so it
  takes two confirmations of one job. `Surprises.OutcomeGoesBack` is a run; `OutcomeChanges` names the
  steps that change an outcome; `StaleWriteExactly` says exactly when a write can hit a mark, at every
  step that writes an outcome; with at most one confirmation in flight it never does (`OutcomeStands`,
  `OneAtATime`). The job stays unservable: its row says that the artifact has expired.
- The worker's own finish leaves `pending_state` on terminal rows (`CompletingRun`), and `Expire`
  working from an old snapshot may still write it and the error code there. `RowLater` says that
  nothing else of a terminal row ever changes.
- A failed or cancelled job may keep its artifact until `Expire` or a restart, because an operator's
  confirmation does not remove it. A job in review can end so, before the artifact has expired, exactly
  when the artifact is there and the job is not committed to completion (`Kept.KeptExactly`); the
  worker's own end of a job never leaves one (`Kept.WorkerLeavesNone`).
  `Surprises.CancelledKeepsArtifact` is a run. `ServedArtifact` rests on the row, not on the file being
  absent.
- A job with no recorded operation cannot be confirmed automatically: `Adapter.Cleanup` refuses an
  empty list (`Engine.Cleanup`), so after a crash such a job waits for an operator; every other job in
  review can be resolved at startup (`Restart.CrashIsRecoverable`). Without a crash it never needs to:
  such a job is not reviewed (`EarlyEnd.ReviewRecorded`).
- docs/automated-cleanup.md says that only network failures before device contact are retried. The
  adapter also retries a failed lock probe, after contact; the model follows the code
  (`Engine.ClassifiedCalls`), and the retry is preceded by a confirmed cleanup either way.
- The broker may accept a code that nobody receives (`Broker.LostCode` is a run). An accepted code can
  still be returned exactly when the challenge is waiting as it is accepted
  (`Broker.ReturnedExactly`); what is returned is always the first code of that very challenge.

## Model

| member | source | states |
|---|---|---|
| `Theorems.CleanHandoff` | internal/jobs/store.go:124-149 | In every run with crashes anywhere: a job leaves the queue only into Running, first in order, when the lease is free, no job is running, verifying or cleaning, and nothing is outstanding on the device. |
| `Theorems.ConfirmedBeforeHandoff` | internal/worker/worker.go:263-303 | At every handoff, each operation ever recorded for any job had started at an earlier moment and was confirmed by a cleanup report, or attested, at a moment in between. |
| `Theorems.CleanStart` | internal/jobs/store.go:288-305 | An operation is recorded only when nothing is outstanding on the device, for a running job. |
| `Theorems.ConfirmedBeforeStart` | internal/worker/worker.go:110-139 | Before an operation starts, each earlier one, of an earlier attempt or of another job, had been confirmed or attested after it started. |
| `Theorems.NoReviewWhenDirty` | internal/worker/worker.go:110-163 | Before each attempt, and wherever the worker ends a job without device review, no operation of the job is outstanding; no terminal job has an outstanding operation. |
| `Outstanding.ConfirmedSince` | internal/engine/engine.go:179-183 | A recorded operation that is not outstanding started on the device at some moment and was confirmed or attested at a later one. |
| `Outstanding.ConfirmedBetween` | internal/engine/engine.go:282-290 | Between a moment where an operation is outstanding and one where it is not, some step confirmed it or attested its job. |
| `Outstanding.OutstandingUntilConfirmed` | internal/engine/engine.go:266-292 | A recorded operation is outstanding at once, and stops being so only by a confirming report for that operation in a cleanup pass or by an attestation of its job in review. |
| `Theorems.LeaseAndQuarantine` | internal/jobs/store.go:184-223 | Quarantined exactly when some job is in review; quarantined implies no owner; between jobs nobody owns or needs the device; during a job it alone does. |
| `Theorems.LeaseEnds` | internal/jobs/store.go:181-223 | A lease is given up only by startup recovery or by the worker at the end of the owning job; no resolution clears a live owner. |
| `Theorems.ServedArtifact` | internal/httpapi/server.go:345-369 | If the download check passes on a row and the file exists whenever it is opened later, its bytes are exactly those that the archive validation accepted at one named moment and the independent verification at a later one, after a library call with a verified result; they have the recorded size and digest; the job was not cancelled and all its operations are clean. |
| `Served.ServedArchive` | internal/storage/storage.go:155-212 | With the archive scan as the validation of outputs, for any way of reading archives: whatever the download handler opens after its check is an acceptable archive, and no prefix of an entry's name leads out of the root. |
| `Theorems.CompletedPath` | internal/worker/worker.go:111-203 | A job is completed, or committed to completion, only with a content for which, in this order, a library call returned a verified result, the attempts were settled in a live context with no cancellation accepted, archive validation accepted exactly that content, and independent verification accepted exactly that content; the row records its size and digest, and the stored artifact, while there, is it. |
| `Provenance.PassedWhen` | internal/worker/worker.go:182-190 | What the history holds as passed really went through these four moments. |
| `Provenance.WhenVerified` | internal/worker/worker.go:183-184 | Recorded content goes back to a verification of exactly these bytes, read from the job's output. |
| `Provenance.WhenValidated` | internal/worker/worker.go:183 | Content under verification goes back to an archive validation of exactly these bytes. |
| `Provenance.WhenSettled` | internal/worker/worker.go:146-181 | An output on its way to validation goes back to a successful settlement with a live context and no cancellation. |
| `Provenance.WhenCalled` | internal/engine/engine.go:213-250 | A successful reply at hand in the retry loop goes back to a library call for that job with a verified result. |
| `Theorems.ArtifactAvailable` | internal/worker/worker.go:339-403 | A completed job's artifact is present until it expires, through every interleaving and crash. |
| `Retention.ExpiresAfterRetention` | internal/worker/worker.go:192-198 | In every run, the expiry of a row is the clock at that job's publication plus the retention period. |
| `Retention.AvailableForRetention` | internal/worker/worker.go:192-198 | A completed job's artifact is present and unmarked for the whole retention period after its publication. |
| `Retention.DownloadWindow` | internal/httpapi/server.go:345-359 | The check of the download handler passes on a completed row exactly while it is not marked expired and the clock has not passed the retention period after its publication. |
| `Theorems.DownloadBoundary` | internal/httpapi/server.go:350-359 | When the download check passes, the artifact is present, or it is the very instant of expiry. |
| `Boundary.CertainExactly` | internal/worker/worker.go:385-391 | Seen from any moment before expiry, for any time at which the download check will pass: the file is certain to be there at that time, whatever happens until then, exactly when the time lies before the expiry. |
| `Boundary.GapFrom` | internal/worker/worker.go:385-391 | From every idle moment at which a job can be downloaded, the scheduler's own steps can reach a state where the check passes and the file is gone. |
| `Surprises.GapRun` | internal/httpapi/server.go:350-359 | A run from the empty service that completes a job and ends in that gap. |
| `Theorems.JobFiles` | internal/httpapi/server.go:246-267 | An upload has its input until cleanup begins; a finished job has neither workspace nor input; a queued job has neither workspace nor artifact. |
| `Theorems.CancellationWins` | internal/jobs/store.go:169-180 | After an accepted cancellation, in every continuation, the job's outcome is Cancelled, or Failed with its artifact expired. |
| `Cancellation.CancelExactly` | internal/jobs/store.go:169-180 | At the step that accepts a cancellation, over all continuations: the job can still be committed to Failed, and can still end as Failed, exactly when its artifact is recorded and unmarked or on its way to be recorded. |
| `Cancellation.RecordedCanFail` | internal/worker/worker.go:393-397 | Every active job with a recorded, unmarked artifact can end as Failed, by a crash and a startup after the expiry. |
| `Theorems.CancelledInQueue` | internal/worker/worker.go:43-45 | A job cancelled while still queued never has an artifact, and its outcome can only be Cancelled. |
| `Surprises.CancelledEndsFailed` | internal/worker/worker.go:393-397 | A run in which a job whose cancellation was accepted ends as Failed. |
| `Surprises.CancelledKeepsArtifact` | internal/worker/worker.go:404-420 | A run in which a job ends as Cancelled with its artifact still stored. |
| `Kept.KeptExactly` | internal/worker/worker.go:404-420 | A job in review, before its artifact has expired: it can end not completed with its artifact stored exactly when the artifact is there and the job is not committed to completion. |
| `Kept.WorkerLeavesNone` | internal/worker/worker.go:234-261 | When the worker itself ends a job otherwise than completed, its artifact is gone. |
| `Theorems.TransitionRefinement` | internal/jobs/model.go:17-30 | Every step of every thread moves each row along an edge of `CanTransition` or leaves its state; terminal states absorb; a committed outcome changes only on a row marked expired, and only to Failed or back from it. |
| `Outcomes.OutcomeChanges` | internal/worker/worker.go:245-260 | A committed outcome changes only by `Expire` marking the job in cleanup, to Failed; or, after such a mark, by the worker writing the outcome it held, over Failed. |
| `Outcomes.OutcomeStands` | internal/worker/worker.go:393-397 | As long as no confirmation was in flight for a finished job, a committed outcome changes only to Failed, and only by `Expire`. |
| `Outcomes.OneAtATime` | internal/httpapi/server.go:324-344 | With at most one confirmation in flight at every moment, none is ever in flight for a finished job. |
| `Stale.StaleWriteExactly` | internal/jobs/store.go:184-191 | At every step that writes an outcome other than Failed: the write can come to replace a mark exactly when the mark stands already or some confirmation in flight can still make it. |
| `Stale.WriteTakes` | internal/worker/worker.go:243-260 | The worker's write puts the outcome it holds in the row, whatever stands there. |
| `Surprises.OutcomeGoesBack` | internal/worker/worker.go:243-250 | A run in which a committed outcome goes from Failed back to Completed. |
| `Theorems.ClaimedOnce` | internal/jobs/store.go:134-143 | In any run a job is claimed at most once. |
| `Theorems.NeverQueuedAgain` | internal/jobs/store.go:225-229 | A job that was claimed is never queued again. |
| `Theorems.WorkspaceFree` | internal/storage/storage.go:86-93 | When a workspace is about to be created, it does not exist. |
| `Theorems.RecoveryExact` | internal/worker/worker.go:326-378 | After a successful recovery `work` is empty, inputs belong to queued jobs, artifacts to completed outcomes, every queued upload has its input, nobody owns or needs the device, and every row is what the last serving process left, advanced as recovery promises, however often recovery itself was cut short. |
| `Theorems.NeverPromoted` | internal/jobs/store.go:233-264 | A job that is completed after recovery had committed to that outcome before the crash. |
| `Theorems.BootIsLastServed` | cmd/ipa-now/main.go:69-90 | The rows recovery is measured against are those of the moment the last serving process died; nothing else changes them. |
| `Completion.FirstCompletes` | internal/scheduler/scheduler.go:19-41 | From every idle moment with a free lease, the first claimable job, if not cancelled, can be completed by worker steps alone, with any output that passes validation as its artifact. |
| `Surprises.CompletingRun` | internal/worker/worker.go:38-261 | A run from the empty service that completes a job. |
| `Restart.CrashIsRecoverable` | internal/worker/worker.go:326-378 | From every state of every run, after a crash there is a sequence of the process's own steps that ends recovery successfully with every job in review that has a recorded operation resolved; the device is then quarantined exactly if some job without one is in review. |
| `Restart.RecoveryIdempotent` | internal/worker/worker.go:335-375 | Recovering again at the same clock, with the cleaner confirming none of the jobs still in review, changes neither database nor files, even if interrupted and restarted. |
| `Review.AnyOrder` | internal/jobs/store.go:202-223 | Resolving distinct jobs in review in any order always succeeds and closes exactly those reviews. |
| `Review.AnyOrderRows` | internal/jobs/store.go:208-212 | Each resolved job takes its committed outcome, and no other row changes. |
| `Review.QuarantineProgress` | internal/jobs/store.go:214-221 | From every reachable state with N jobs in review, in every order: each prefix keeps the quarantine and exactly the last resolution lifts it. |
| `Review.OperatorCanResolve` | internal/worker/worker.go:404-420 | From every reachable serving state an operator's confirmation of a job in review can be carried through by its own steps to the committed outcome, or to Failed if the artifact expired meanwhile. |
| `Admission.QueueBound` | internal/jobs/store.go:95-107 | In every run the jobs that are not finished never exceed the limit. |
| `Entry.SubmitAdmits` | internal/jobs/store.go:95-108 | In every run: a submission to a serving process is admitted exactly when fewer jobs than the limit are unfinished, as a queued row with no attempts and this moment as its creation; otherwise nothing changes. |
| `Entry.UploadOpens` | internal/httpapi/server.go:217-230 | The input of an announced upload may exist from then on, and no row changes. |
| `Entry.UploadAdmits` | internal/httpapi/server.go:225-268 | An upload that ends well is admitted under the same limit; a refused or broken one leaves no job, and its file only if the removal fails. |
| `Entry.QueueFills` | internal/jobs/store.go:95-107 | The bound is tight: for every number up to the limit some run has that many unfinished jobs. |
| `Admission.FirstComeFirstServed` | internal/jobs/store.go:134-143 | While a job waits, every job created after it waits too. |
| `Admission.AttemptBounds` | internal/worker/worker.go:110-139 | At every point calls <= attempts <= calls + 1, attempts <= the maximum, the wait scheduled so far is exactly delay * (2^(attempts-1) - 1), where an unset delay means one second, and so at most delay * (2^(max-1) - 1). |
| `Retries.RetryDecided` | internal/worker/worker.go:111-119 | In every run, after an attempt the worker settles exactly when the failure is not retryable, no attempt is left or the context has ended; otherwise it cleans the device if the attempt may have touched it, or counts the retry. |
| `Retries.RetryGivenUp` | internal/worker/worker.go:118-139 | In every run, the loop reaches settlement in no other way than by that test, an unconfirmed cleanup, a count that cannot be written or a context that ends in the back-off; an uninterrupted back-off leads to the next attempt. |
| `Retries.AllAttempts` | internal/worker/worker.go:110-139 | For every valid configuration some run makes exactly the configured number of engine calls for one job, and records as many attempts. |
| `EarlyEnd.EarlyReply` | internal/engine/engine.go:147-183 | In every run, a call that ends without recording an operation is a failure that asks for neither review nor another attempt. |
| `EarlyEnd.ReviewRecorded` | internal/worker/worker.go:150-163 | In every run, whenever the worker asks for device review of a job, or carries it out, the job has a recorded operation. |
| `EarlyEnd.ReviewCause` | internal/worker/worker.go:230-251 | In every run, the worker puts its job in review only after one of the job's local removals has failed, or with an operation recorded for it. |
| `EarlyEnd.EarlyFailureEnds` | internal/engine/engine.go:147-183 | From every moment before a call: if the attempt ends before it has recorded an operation and the steps that follow succeed, the job ends Failed with the code of that failure, or Cancelled, and the device is neither quarantined nor owned. |
| `Facts.NeverRefused` | internal/worker/worker.go:38-261 | In every run, whatever the worker is about to write will not be refused: the rows, files and device are as its next transaction demands. |
| `Safety.StepSafe` | internal/worker/worker.go:38-420 | Every step of every thread keeps the inductive invariant and is a legal step. |
| `Safety.Reachable` | internal/scheduler/scheduler.go:16-42 | Every state of every run from the empty service satisfies the invariant. |
| `Runs.RunLater` | internal/jobs/model.go:32-59 | Along any run ranks, attempts, cancellation, expiry and the expired mark only advance, a committed outcome stands until the row is marked expired, and terminal rows are frozen up to the mark, the pending state and the error code. |
| `Stability.PcStable` | internal/jobs/store.go:63 | Nothing the other threads do invalidates what the scheduler thread has established. |
| `Engine.Cleanup` | internal/engine/engine.go:266-292 | Confirmed without error exactly when the list is non-empty, the context was live before each call and every report was confirmed without error; on a full pass uninstalled is the disjunction of the reports. |
| `Passes.PassIsCleanup` | internal/engine/engine.go:266-292 | A cleanup pass of the machine, interleaved with anything, asks for each listed operation at most once, and ends confirmed exactly when `Adapter.Cleanup` on the operations and reports of its calls is, all listed operations were asked for, and the deadline and the flag write hold. |
| `Engine.ClassifiedCalls` | internal/engine/engine.go:208-250 | A recorded operation always needs device cleanup; success is reported only for verified output; exactly which failures are retried, and with which code each is reported. |
| `Store.JobStore.Enqueue` | internal/jobs/store.go:95-108 | In place: refused as full exactly when the unfinished jobs have reached the limit, as a duplicate when the key exists, else exactly one row is added, which the contract gives field by field. |
| `Store.JobStore.Claim` | internal/jobs/store.go:124-149 | In place: nothing when the lease is not free or nothing is claimable, else the first claimable job becomes running and owner. |
| `Store.JobStore.Change` | internal/jobs/store.go:150-165 | In place: the guarded state transition, or nothing. |
| `Store.JobStore.Cancel` | internal/jobs/store.go:169-180 | In place: refused for terminal jobs and jobs in cleanup, else recorded. |
| `Store.JobStore.Release` | internal/jobs/store.go:181-183 | In place: clears the owner only if it is this job. |
| `Store.JobStore.Quarantine` | internal/jobs/store.go:184-191 | In place: the row's review, and the device quarantined without owner. |
| `Store.JobStore.Resolve` | internal/jobs/store.go:202-223 | In place: the terminal transition of a job in review; the last one clears the device. |
| `Store.JobStore.Retry` | internal/jobs/store.go:227-229 | In place: counts an attempt of a running job and of no other. |
| `Store.JobStore.Recover` | internal/jobs/store.go:233-264 | In place, by a loop over the active rows: every row becomes its recovered row, and the device is quarantined exactly when some job was active. |
| `Store.JobStore.BeginCleanup` | internal/jobs/store.go:268-285 | In place: commits the outcome and its code, with an accepted cancellation winning; no other row changes. |
| `Store.JobStore.StartOperation` | internal/jobs/store.go:288-305 | In place: records an operation only for the running owner of an unquarantined device. |
| `Store.JobStore.Record` | internal/worker/worker.go:197-198 | In place: the given size, digest and expiry of a published artifact in its row, and nothing else. |
| `Store.JobStore.MarkExpired` | internal/worker/worker.go:392-400 | In place: marks the row, and rewrites the pending outcome when the snapshot was in cleanup. |
| `Storage.FileStore.Workspace` | internal/storage/storage.go:86-93 | Fails exactly when the file system does or the directory exists. |
| `Storage.FileStore.Remove` | internal/storage/storage.go:94-107 | Removes the entry if present; a failed directory removal may have lost the output. |
| `Storage.FileStore.Publish` | internal/storage/storage.go:108-152 | Moves the output to the artifacts; a reported success is exactly the output; a failure may strike before or after the rename. |
| `Service.Worker.Run` | internal/worker/worker.go:38-210 | The structured code is a run of the machine; when it ends well the lease is free, no job needs the device, and the job is finished or in review. |
| `Service.Worker.Attempts` | internal/worker/worker.go:110-139 | The retry loop ends in settlement as a run of the machine, with at most as many engine calls as recorded attempts and at most as many of these as configured; when it goes on is `Service.Worker.MayRetry`. |
| `Service.Worker.MayRetry` | internal/worker/worker.go:111-119 | The test after an attempt: another one follows exactly after a retryable failure, with attempts left and a live context. |
| `Service.Worker.Decrypt` | internal/engine/engine.go:147-251 | One adapter call: early failure, or a recorded operation, possible output, and a classified reply; a reply that needs review comes with an operation recorded for the job. |
| `Service.Worker.VerifyAndPublish` | internal/worker/worker.go:178-209 | As a run of the machine: no verdict after a database error; completion with the artifact on record after a verification; failure by timeout, or else for verification when no content passed and for storage when one did. |
| `Service.Worker.Finish` | internal/worker/worker.go:224-261 | Cut-off, removals, device cleanup, then quarantine or the committed outcome, as a run of the machine; the contract of each section says what it makes of each answer of the database and the file system. |
| `Service.Worker.CleanupDevice` | internal/worker/worker.go:267-303 | A cleanup pass over the recorded operations as a run of the machine; when it confirms, no operation of the job is outstanding. |
| `Service.Worker.Expire` | internal/worker/worker.go:379-403 | The snapshot loop, from each of its callers, as a run of the machine. |
| `Service.Worker.Recover` | internal/worker/worker.go:326-378 | Startup recovery by loops over rows and directories; on success the two stores agree exactly as `RecoveryExact` says. |
| `Service.Worker.RunScheduler` | internal/scheduler/scheduler.go:16-42 | The serial loop: it stops on the first error or when its context ends. |
| `Operator.Request.Resolve` | internal/worker/worker.go:404-420 | The confirmation in place, with every other thread running between its sections: it reports success exactly when its last section takes the job from review to the outcome it was committed to; not found means no such job, a conflict a job that is not in review; the device is then quarantined exactly while a review is left. |
| `Operator.Request.Commit` | internal/jobs/store.go:202-223 | The last section: success exactly when the database is up and nobody else has finished the job meanwhile; then that row alone changes, and otherwise none. |
| `Operator.Request.Expire` | internal/worker/worker.go:379-403 | The snapshot loop inside a confirmation, as a run of the machine. |
| `Service.JobEnds` | internal/worker/worker.go:38-42 | Between a claim and the next idle point the claimed job becomes finished or enters review. |
| `Archive.ValidateIPA` | internal/storage/storage.go:155-212 | Accepts exactly the archives with 1 to 100000 entries, pairwise distinct case-folded safe names, plain modes, true total size within the limit (the 64-bit budget never wraps) and exactly one application metadata entry, which is valid; each refusal names a defect that is there. Bundle identifiers and metadata names are the grammars of the next two rows. |
| `Archive.BundleIdForm` | internal/storage/storage.go:202 | The test for bundle identifiers accepts exactly the dot-joins of at least two segments, each a letter or digit followed by letters, digits and hyphens. |
| `Archive.PlistForm` | internal/storage/storage.go:183-184 | An entry is application metadata exactly when its name is `Payload/`, a name without slashes, and `.app/Info.plist`. |
| `Archive.CheckMetadata` | internal/storage/storage.go:184-206 | Accepts exactly the metadata of at most 2^20 bytes that is readable and names a bundle by that grammar and an executable that is one plain file name; which refusal is which. |
| `Archive.NameTest` | internal/storage/storage.go:172-177 | The lexical test passes exactly the names made of proper elements without separators, drives or NUL. |
| `Archive.Contained` | internal/storage/storage.go:175 | Every prefix of an accepted name resolves inside the root, and the name to its own entry. |
| `Archive.CountedApps` | internal/storage/storage.go:208-210 | Under distinct folded names, one application in the set means exactly one metadata entry. |
| `Paths.CleanFixed` | internal/storage/storage.go:175 | A relative name equals its cleaned form exactly when it is `.` or its elements are normal. |
| `Utf8.BoundedMetadata` | internal/worker/worker.go:212-222 | The longest prefix of the sanitised text that is well-formed UTF-8 (section 4 of RFC 3629) and fits; at most 3 bytes are lost to the boundary. |
| `Utf8.ValidWellFormed` | internal/worker/worker.go:218 | The decoder accepts exactly the sequences of the grammar. |
| `Utf8.Boundary` | internal/worker/worker.go:217-220 | A character boundary lies at most 3 bytes below any cut. |
| `Utf8.StrayByte` | internal/worker/worker.go:213 | Sanitising keeps the well-formed text before a byte at which no character starts, whether it can start none or begins a truncated, overlong or surrogate sequence, drops that byte, and goes on behind it. |
| `Utf8.FirstStray` | internal/worker/worker.go:213 | Every text that is not well formed has such a byte behind a well-formed beginning, so the cases are complete. |
| `Monitor.LatestNeverLost` | internal/worker/worker.go:52-100 | In every interleaving the consumed reports are an in-order subsequence of the emitted ones, and between two emissions the newest is in the slot or was the last consumed. |
| `Monitor.EmitEnds` | internal/worker/worker.go:87-100 | Three selects end every emission, whatever the monitor does between them, with the report in the slot or just consumed. |
| `Monitor.ProgressChannel.Emit` | internal/worker/worker.go:87-100 | The callback in place: one more report emitted, nothing consumed twice, the report in the slot. |
| `Broker.ReturnedCode` | internal/secrets/store.go:101-118 | A challenge returns nothing or the first code accepted for it, of six digits, and then never changes. |
| `Broker.SubmittedFor` | internal/secrets/store.go:119-139 | Every accepted code comes from one submission made to the challenge's own job while that challenge was the open one; no submission serves two challenges. |
| `Broker.SubmittedTo` | internal/secrets/store.go:119-139 | An accepted submission touches only the open challenge, which is of its job. |
| `Broker.OneChallenge` | internal/secrets/store.go:101-111 | At most one challenge is not over, and the broker names it and its job. |
| `Broker.LostCode` | internal/secrets/store.go:111-139 | A run in which an accepted code reaches nobody. |
| `Broker.ReturnedExactly` | internal/secrets/store.go:111-139 | An accepted submission can still be the one its challenge returns exactly when the challenge is waiting at that moment. |
| `Broker.Broker.Open` | internal/secrets/store.go:101-110 | In place: refused while another challenge is open. |
| `Broker.Broker.Submit` | internal/secrets/store.go:119-139 | In place: accepts exactly six digits for the open challenge's job when no code is waiting, and then only that challenge changes. |
| `Broker.Broker.Finish` | internal/secrets/store.go:111-117 | In place: clears the broker and returns what the challenge holds. |

## Left out

- RunScheduler: its context ends after a number of rounds fixed at the call; the real loop has no bound. The machine itself has none.
- RecoveryIdempotent: speaks of a standing clock; when time passes, the second recovery may also expire artifacts.
- CrashIsRecoverable: says that some continuation succeeds, not that a failing disk must heal.
- LatestNeverLost: a report still in the slot when the attempt loop closes the monitor is never persisted, as in the code.
- Sending the artifact: the file is opened after the check, and what happens to the open file is not modelled.
- The decryption library, SSH, Apple login and the device: nondeterministic answers, with a truthful confirmation.
- The upload handler, submission and cancellation are steps of the machine, not methods of a class.
- Between their sections `Worker` and `Request` adopt the rows and files that the other threads' machine steps leave; they do not share one object.
- Upload contents: only that the input exists; its validation is `Archive.ValidateIPA`, and its result one more way for the upload to end. For outputs the machine asks `Config.accepts`; `Served` instantiates it with the scan.
- Row fields that the protocol never reads: phase, progress, target, bundle, version, installation flags, error text, update time. The flag write at settlement and after a cleanup pass can fail, and its failure is modelled.
- Contents of the temporary directory: its cleanup succeeds or fails.
- The database engine, write-ahead log, file locks, directory sync, schema migration and rows of the first schema.
- Failures of listing a directory during recovery: they end the process like a crash at that point.
- HTTP routing, headers, JSON, origin checks, the user interface, configuration parsing, logging and account storage.
- Case folding, property-list decoding, zip decoding and SHA-256 are parameters.
- Fairness and real time: nothing says that a live thread eventually moves.
