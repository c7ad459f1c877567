# A verified model of the supplier workbench's protocols and stores

The application is a desktop workbench: a Python backend that updates itself, runs queued jobs, collects
diagnostics, replays agent experiments and caches translations, and a browser front end that keeps a sign-in,
an account scope and unsent drafts. This project models the parts of it in which several actors share state or
in which every byte, record or message has to be accounted for, and proves what they are for.

Each component follows its source's form. Where the source rewrites fields under a lock, there is a class whose
methods refine a specification function, one per lock region; where several threads, tabs or requests interleave,
there is a step relation over those functions and theorems about every reachable state of every run, and what each
step decides is stated again without those functions; loops are loops with invariants, and what they compute is
proved against a definition that does not mention them.

| component | files |
|---|---|
| self-update: check, download, install handoff, broker, response finaliser | `UpdaterCore`, `Staging`, `ResponseDelivery`, `UpdateMachine`, `UpdateSafety`, `UpdateHandoff`, `UpdateTheorems`, `UpdateSteps` |
| single-worker task queue | `TaskQueue`, `JobRecords` |
| browser sign-in over several tabs, account scope | `AuthSession`, `SignInSteps`, `AccountSession`, `SignInScope` |
| server sessions under secret rotation, login limiter | `SessionStore` |
| diagnostic bundle: tail reading, framing, records, budget, admission | `ReadRecent`, `Framing`, `RecentRecords`, `RecordVerdicts`, `BundleBudget`, `AdmissionLease` |
| experiments: replay, overlapping runs, progress, stored document, guard, lineage, run registry | `Replay`, `ReplayDuplicates`, `OverlappingRuns`, `Progress`, `GuardedStart`, `StoredDocument`, `RunRegistry` |
| translation tags and jobs | `Translation`, `TranslationJob` |
| preset seeding, drafts, prompt diff, JSONC comments | `PresetSeeding`, `DraftStorage`, `PromptDiff`, `Jsonc` |
| shared vocabulary | `Common` |

`dafny verify dfyconfig.toml` checks everything.

## Assumptions

- Fingerprints, token hashes, draft keys and text keys are injective; salted tags of a text eventually leave any set no larger
  than the number of texts of a job (`Translation.HashIsRich`). Identifiers drawn at random are fresh.
- Clocks, network answers, file-system failures, the helper's answers and exits, decoding and sanitising of log
  lines, and the scripts of the diff library are arbitrary inputs or nondeterministic steps; of the diff library it is
  assumed that a script leads from the one text to the other.
- Every load of an experiment gives a new object, every save writes the whole of it back to the row, and runs and
  requests share nothing but the row and the transcripts.
- One lock region, one database transaction and one lock-held storage section is one step.

## Where the code does less than it seems to promise

Each of these is stated as an exact condition or shown on a concrete case; the code was kept as it is.

- A retry may append a buyer message that is still in the transcript, although the guard's own comment and the replay's
  promise that it does not. With buyer steps 0, 1 and 2 run in order and then 0, 2 and 2 forced, all of which the guard
  admits, the message of step 2 is there twice (`ReplayDuplicates.AdmittedDuplicate`, `ReplayDuplicates.OrderIsAdmitted`).
  No message is ever duplicated exactly when each step that was applied with its checkpoint beyond the transcript is
  applied again only after the transcript was cut back to where it was (`ReplayDuplicates.NoDuplicateIff`).
- A retry may also drop turns. After every run the transcript is the seed and the turns up to the step just run exactly
  when no run goes beyond the step after the previous one and no step without a buyer turn is repeated, unless it alone
  is the transcript (`Replay.ReplayTheorem`). Forcing an earlier step and then a later one loses the steps between them
  (`Replay.ForcingEarlierLosesSteps`), and repeating a step without a buyer turn drops one turn too many unless the
  transcript was empty (`Replay.AgentRepeatIff`).
- Without force a step is done again by a request that loaded the experiment before another run of the step recorded and
  that starts after that run has ended (`GuardedStart.RerunIff`, `GuardedStart.NeverRedoneIff`).
- Recording a completion is serialised by a lock, but it changes the run's own copy of the document and writes the whole
  copy back. Completions of one run are all kept (`Progress.OrderTheorem`); completions of other runs, and names, notes,
  annotations and steps saved by requests, are kept exactly while every later save is their author's own or comes from a
  copy loaded after them (`StoredDocument.StaysStoredIff`, `StoredDocument.OtherRunErasesCompletion`).
- Runs of different steps may be active at the same time, since the registry excludes only runs of the same step. Of two
  that meet on one variant both completions survive exactly when the run that wrote last had loaded after the other had
  recorded, and both turns exactly when one read after the other had saved (`OverlappingRuns.OverlapTheorem`).
- The guard lets a variant skip a step that another variant did; all admitted variants are ready exactly when every given
  variant has done the step or the one before (`Progress.GuardIsReadyIff`, `Progress.GuardMaySkip`).
- Forgetting an active run would allow a second one (`RunRegistry.ForgetIsSafeIff`); only the endpoint's test prevents it.
- A user's edit that happens to equal a later built-in follows the built-ins from then on (`PresetSeeding.EditSurvivesIff`).
- A second shutdown of an old queue instance releases a name that a newer instance holds (`TaskQueues.WorkersTheorem`).
  That takes two shutdowns that overlap (`TaskQueues.HarmNeedsOverlap`), and the only shipped caller,
  `backend/app/main.py:208`, shuts down once, at the end of the process.
- The lines of a diff spell the two texts only if every part of the library's script ends in a newline, which an empty
  part does not (`PromptDiff.BuildPromptDiff`).
- Comment stripping loses one newline when the text ends inside an unclosed block comment that ends in a newline
  (`Jsonc.StripKeepsLinesIff`).
- Once the deadline has passed, the record search may stop at a delimiter that straddles two UTF-16 code units; such a
  slice is never examined, but it may be the dropped one if no record was examined at all; only then its length is not
  that of the first record (`RecentRecords.Examine`). Processed and unprocessed bytes add up to the bytes kept, which
  exclude the probed prefix when the read starts mid-file (`RecentRecords.Collect`).

## Model

| member | source | states |
|---|---|---|
| `UpdateTheorems.Always` | backend/app/updater.py:392-563 | the whole-machine invariant (phases, worker, files, log, broker, requests) holds in every state of every interleaving of lock regions, download threads, the installation call, response delivery and the outside world |
| `UpdateTheorems.PhaseTheorem` | backend/app/updater.py:397-481 | in every reachable state the handoff flag is set exactly in phase `installing`; `installing` and `ready` imply a prepared installer; `checking` and `downloading` imply a busy worker and no handoff; candidate and prepared are both null or name the same run; at most one worker thread is alive |
| `UpdateTheorems.InstallerSurvives` | backend/app/updater.py:135-180 | no step of the updater deletes the installer that `prepared` names |
| `UpdateTheorems.DownloadSurvives` | backend/app/updater.py:621-652 | a running download's stage is untouched by every step but its own thread's, also after `_stage` is cleared and before `prepared` is set |
| `UpdateTheorems.WorkLeavesDownload` | backend/app/updater.py:433-453 | the reason for it: while one thread downloads or publishes, no other thread purges or prunes |
| `UpdateTheorems.InstallerTheorem` | backend/app/updater.py:559-561 | in every reachable state the prepared installer is on disk, unless something outside the updater removed it |
| `UpdateTheorems.HandoffSparesStages` | backend/app/updater.py:158-180 | while a handoff lasts no step of the updater removes or empties any stage |
| `UpdateTheorems.BrokerStageSurvives` | backend/app/update_runtime.py:103-159 | the stage directory made for a broker is there as long as its handoff lasts, unless something outside the updater removed it |
| `UpdateTheorems.HistoryGrows` | backend/app/updater.py:654-727 | commits, endings and what each operation was admitted with are never rewritten |
| `UpdateTheorems.PreparedIsStable` | backend/app/updater.py:665-679 | while one handoff lasts the prepared installer does not change, and the current broker was started with it |
| `UpdateTheorems.CommitTheorem` | backend/app/updater.py:715-727 | over a whole run each operation is committed at most once, after its response was fully sent, before the deadline its acceptance set, and never after its handoff ended |
| `UpdateTheorems.CommitFileTheorem` | backend/app/update_runtime.py:188-192 | a `go` file exists only for a broker whose own operation was committed |
| `UpdateTheorems.CommitIsOwn` | backend/app/updater.py:715-723 | only the finaliser of the operation in progress commits, with a fully sent response and an unexpired deadline, and writes to the broker created for that operation |
| `UpdateTheorems.EndIsJustified` | backend/app/updater.py:397-418 | a handoff ends only by its own callback before the commit, its own failed start, a failed helper, or an expired uncommitted deadline |
| `UpdateTheorems.StaleCallback` | backend/app/updater.py:709-718 | a callback for another operation, or for one already committed, changes nothing |
| `UpdateSteps.CheckStartsIff` | backend/app/updater.py:420-469 | a manual check starts a worker exactly when the updater is supported, nothing is busy, no handoff is on and its thread starts; a thread that cannot start shows as an error and leaves nothing busy |
| `UpdateSteps.ScheduleStartsIff` | backend/app/updater.py:471-481 | a scheduled cycle starts under the same condition and shows nothing |
| `UpdateSteps.FinishFrees` | backend/app/updater.py:433-453 | the end of an operation admits the next one unless a handoff has begun |
| `UpdateSteps.FoundRunIsResolvedIff` | backend/app/updater.py:524-544 | a found run goes on to be resolved exactly when it is not the run of the prepared installer; otherwise an announced check shows what there is and a scheduled one nothing |
| `UpdateSteps.SelectedIsDownloadedIff` | backend/app/updater.py:546-551 | the resolved candidate is downloaded exactly when no handoff has begun |
| `UpdateSteps.PruneSparesNewest` | backend/app/updater.py:158-180 | the prune of a download spares the prepared installer and every other stage that has fewer than four newer ones |
| `UpdateSteps.PublishedIsOffered` | backend/app/updater.py:559-561 | a finished download offers its own candidate and its own installer, of the same run |
| `UpdateSteps.FailedDownloadKeepsOffer` | backend/app/updater.py:555-558 | a failed download leaves what was offered, ready exactly when an installer is prepared |
| `UpdateSteps.FailedOperationShows` | backend/app/updater.py:442-447 | a failed search ends its own check and leaves a phase that is not its own |
| `UpdateSteps.AdmissionIff` | backend/app/updater.py:617-674 | an installation is admitted exactly when the updater is supported and ready, no handoff is on, the confirmed candidate is the one on offer and its installer is on disk; it then promises the run of that candidate; a confirmation of another candidate changes nothing, a missing installer withdraws the offer |
| `UpdateSteps.AcceptanceSetsDeadline` | backend/app/updater.py:680-681 | the deadline is fifteen seconds after the acceptance |
| `UpdateSteps.FailedStartGivesUp` | backend/app/updater.py:693-697 | a failed start gives its own handoff up and stays ready |
| `UpdateSteps.PollGivesUpIff` | backend/app/updater.py:408-418 | a poll gives a handoff up exactly when its helper has failed or its deadline has passed uncommitted; the offer stays and the helper is told to cancel |
| `UpdateSteps.FinaliserCommitsIff` | backend/app/updater.py:709-727 | the finaliser commits exactly when its operation is current, uncommitted, in time and fully answered, its helper is alive and `go` can be written; otherwise it gives its own handoff up and touches no other |
| `UpdateSteps.ConfirmedIsInstalled` | backend/app/updater.py:654-727 | over a whole run a helper that has its `go` has the installer of a candidate that was on offer when the user confirmed that very candidate |
| `UpdateHandoff.NoEarlierHelper` | backend/app/update_runtime.py:103-113 | when an operation starts its broker, no earlier helper is current any more |
| `UpdaterCore.LatestRun` | backend/app/updater.py:565-586 | the eligible run that no other eligible run precedes, if it is newer than the running build; none exactly when no eligible run is newer |
| `UpdaterCore.UpdateRuntime.Reset` | backend/app/update_runtime.py:99-101 | a finished attempt is forgotten, its files stay |
| `UpdaterCore.UpdateRuntime.Spawn` | backend/app/update_runtime.py:103-159 | a fresh broker gets the installer and becomes the current attempt |
| `UpdaterCore.UpdateRuntime.AwaitAccept` | backend/app/update_runtime.py:172-186 | the attempt is accepted exactly when the first decisive poll is an acceptance by its own nonce |
| `UpdaterCore.UpdateRuntime.Arm` | backend/app/update_runtime.py:188-192 | `go` is written exactly when the current helper is alive and the write succeeds |
| `UpdaterCore.UpdateRuntime.Cancel` | backend/app/update_runtime.py:194-196 | `cancel` goes to the current attempt only |
| `UpdaterCore.Updater.CheckNow` | backend/app/updater.py:455-469 | the manual check's region refines `Check`, thread-start failure included |
| `UpdaterCore.Updater.ScheduledCycle` | backend/app/updater.py:471-481 | the scheduled cycle's admission refines `Schedule` |
| `UpdaterCore.Updater.CompareRun` | backend/app/updater.py:524-540 | the comparison region of a cycle refines `Compare` |
| `UpdaterCore.Updater.StartDownload` | backend/app/updater.py:546-551 | the first region of a download refines `BeginDownload`: refused during a handoff |
| `UpdaterCore.Updater.RegisterStage` | backend/app/updater.py:621-626 | the stage is published and the protected set is what prune receives |
| `UpdaterCore.Updater.ReleaseStage` | backend/app/updater.py:645-651 | the stage of a finished or failed download is no longer protected |
| `UpdaterCore.Updater.PublishInstaller` | backend/app/updater.py:559-561 | installer, run, phase and candidate change together |
| `UpdaterCore.Updater.DownloadFailed` | backend/app/updater.py:555-558 | a failed download leaves `ready` exactly when an installer is prepared |
| `UpdaterCore.Updater.OperationFailed` | backend/app/updater.py:442-447 | a failed operation resets only the phases it owns |
| `UpdaterCore.Updater.Finish` | backend/app/updater.py:433-453 | the end of an operation admits the next one |
| `UpdaterCore.Updater.InstallUpdate` | backend/app/updater.py:654-674 | the admission region refines `Install`: rejected, missing installer, or admitted with a fresh lease |
| `UpdaterCore.Updater.BoundHandoff` | backend/app/updater.py:680-681 | the deadline is set only after acceptance |
| `UpdaterCore.Updater.InstallFailed` | backend/app/updater.py:693-697 | a failed start clears only its own handoff |
| `UpdaterCore.Updater.CancelLocked` | backend/app/updater.py:397-406 | a cancelled handoff restores `ready` when an installer is prepared, whether or not the cancel file could be written |
| `UpdaterCore.Updater.CancelHandoff` | backend/app/updater.py:709-713 | only the current, uncommitted operation can be cancelled by its callback |
| `UpdaterCore.Updater.ArmHandoff` | backend/app/updater.py:715-727 | only the current, uncommitted operation is armed; an expired or failed one is cancelled instead |
| `UpdaterCore.Updater.WritesBlocked` | backend/app/updater.py:408-418 | the write gate cancels a failed or expired handoff and reports whether one is left |
| `Staging.StagingArea.PurgeStaleArtifacts` | backend/app/updater.py:135-155 | protected stages are untouched, no directory goes, and without locked files every unprotected artifact is gone |
| `Staging.StagingArea.PruneStageDirectories` | backend/app/updater.py:158-180 | exactly the excess stages go, except those that are locked; the others keep their files |
| `Staging.ExcessIsOldest` | backend/app/updater.py:165-175 | what prune deletes is the sorted candidates without the newest `keep` |
| `Staging.SurvivorsAreNewer` | backend/app/updater.py:165-175 | every surviving candidate is newer than every deleted one, ties broken by name |
| `Staging.SurvivorCount` | backend/app/updater.py:158-175 | without locked directories exactly `keep` unprotected stages remain, or all if there are fewer |
| `ResponseDelivery.ArmableIffFullySent` | backend/app/api/auth.py:203-233 | the flags the closures collect allow arming exactly when the application returned, the last status started was 2xx, a final body was delivered, and nothing was lost or disconnected |
| `ResponseDelivery.Delivery.SendStart` | backend/app/api/auth.py:218-231 | the closure around `send` records a response start and its loss |
| `ResponseDelivery.Delivery.SendBody` | backend/app/api/auth.py:218-233 | the closure around `send` records a body part, its loss and the final one |
| `ResponseDelivery.Delivery.ReceiveRequest` | backend/app/api/auth.py:211-216 | the closure around `receive` records a disconnect |
| `ResponseDelivery.Delivery.Return` | backend/app/api/auth.py:284 | that the application returned is recorded |
| `ResponseDelivery.Delivery.ShouldArm` | backend/app/api/auth.py:297-305 | the finaliser arms exactly on a fully sent 2xx response |
| `TaskQueues.FifoTheorem` | backend/app/task_queue.py:111-137 | in every interleaving accepted jobs = finished, then at most one running, then queued, in acceptance order; all distinct; queued ones registered and pending; the backlog is bounded |
| `TaskQueues.PickNeverSkips` | backend/app/task_queue.py:175-178 | the branch for a missing request is dead |
| `TaskQueues.DrainTheorem` | backend/app/task_queue.py:149-156 | when the worker has exited every accepted job has finished and nothing more is accepted |
| `TaskQueues.MissingMeansFinished` | backend/app/task_queue.py:160-166 | an accepted job whose record is gone has finished: eviction loses nothing in progress |
| `JobRecords.AcceptedIff` | backend/app/task_queue.py:111-137 | a job is accepted exactly when the queue is open and holds fewer than 500 |
| `JobRecords.PickStartsOldest` | backend/app/task_queue.py:170-182 | a free worker starts the oldest waiting job, and exits only from an empty closing queue |
| `JobRecords.EvictedIff` | backend/app/task_queue.py:160-166 | a record goes exactly when its job completed more than an hour ago and all records are looked at or a job is submitted |
| `JobRecords.RecordTheorem` | backend/app/task_queue.py:111-201 | in every reachable state a record says what happened to its job: when it was accepted, when it started and ended, and that it succeeded exactly when it returned a success |
| `JobRecords.FinishedThen` | backend/app/task_queue.py:191-201 | from the end of a job on its record has the time and the outcome of that end, as long as there is a record |
| `TaskQueues.ReleaseKeepsIff` | backend/app/task_queue.py:157-158 | the end of a `shutdown` keeps one living worker per name exactly when no living instance is registered under the name |
| `TaskQueues.ObtainKeeps` | backend/app/task_queue.py:71-93 | asking for a queue by name never makes a second worker under it while every living worker is registered |
| `TaskQueues.WorkersTheorem` | backend/app/task_queue.py:71-158 | for any order of requests for queues, ends of workers and ends of shutdowns: every living worker is the registered one of its name at all times exactly when no shutdown ends while a living instance is registered under its name |
| `TaskQueues.HarmNeedsOverlap` | backend/app/task_queue.py:222-231 | a shutdown that listed the instance as registered does no harm at its end unless another shutdown of that name ended in between, so the one sequential caller is safe |
| `TaskQueues.StaleShutdownSplitsName` | backend/app/task_queue.py:149-158 | the failing order: two overlapping shutdowns of one instance, with the name taken again in between, leave two living workers under one name |
| `TaskQueues.TaskQueue.EvictLocked` | backend/app/task_queue.py:160-166 | only records completed longer ago than the retention go |
| `TaskQueues.TaskQueue.Add` | backend/app/task_queue.py:111-137 | refused when closing or full, otherwise registered and appended |
| `TaskQueues.TaskQueue.TakeJob` | backend/app/task_queue.py:170-182 | one pass of the worker: wait, exit, skip or start the head |
| `TaskQueues.TaskQueue.CompleteJob` | backend/app/task_queue.py:191-201 | the outcome and the observations are recorded |
| `TaskQueues.TaskQueue.Get` | backend/app/task_queue.py:139-142 | the record of a job as it is, none when it is unknown or evicted |
| `TaskQueues.TaskQueue.StartShutdown` | backend/app/task_queue.py:151-153 | from the start of a shutdown on nothing is accepted |
| `AuthSession.TokenTheorem` | frontend/services/authSession.ts:98-180 | in every interleaving `authenticated`, `persist` and `retry` imply a token, `signedOut` implies none, and an authenticated token was confirmed by the server or issued by the login of that same generation |
| `AuthSession.StaleResumes` | frontend/services/authSession.ts:104-107 | a continuation whose generation is over changes nothing |
| `AuthSession.TicketTheorem` | frontend/services/authSession.ts:222-231 | a ticket passes later exactly while no new generation has begun, and then still carries the tab's token |
| `AuthSession.GenerationsGrow` | frontend/services/authSession.ts:24-33 | generations never go back |
| `AuthSession.StorageTheorem` | frontend/services/authSession.ts:41-131 | for any number of tabs and any order of lock-held sections, raising read-backs included, a stored token stays until a tab commits its own fresh token, a tab that held it when it signed out withdraws it, or something outside the application changes the slot |
| `AuthSession.StorageStep` | frontend/services/authSession.ts:41-53 | no other section, logout or 401 changes the stored token |
| `SignInSteps.LoginStartsIff` | frontend/services/authSession.ts:157-166 | a login starts exactly from `signedOut` and not before the time the server asked for, in a new generation |
| `SignInSteps.DigestIsSent` | frontend/services/authSession.ts:166-172 | the digest is followed by the request, a failure by `signedOut` |
| `SignInSteps.IssuedTokenIsKept` | frontend/services/authSession.ts:172-180 | an issued token is kept in phase `persist` and storing it begins where locks exist; a refusal keeps the time the server asked for |
| `SignInSteps.PersistSignsInIff` | frontend/services/authSession.ts:116-131 | the section stores the token and signs in exactly when it is still wanted, can be stored and reads back |
| `SignInSteps.BootTakesOver` | frontend/services/authSession.ts:144-156 | a starting tab takes the stored token over and verifies it, or is signed out |
| `SignInSteps.StorageEventTakesOverIff` | frontend/services/authSession.ts:206-219 | so does another tab's change, exactly when it is not this tab's own token |
| `SignInSteps.RetryVerifiesIff` | frontend/services/authSession.ts:98-102 | a retry verifies the same token in a new generation, exactly when there is one and it is time |
| `SignInSteps.VerifiedIsSignedIn` | frontend/services/authSession.ts:103-113 | a confirmed token is signed in, an unreachable server leaves it for a retry |
| `SignInSteps.UnstoredTokenIsUsable` | frontend/services/authSession.ts:182-184 | a token that could not be stored can be used in this tab |
| `SignInSteps.SignOutSchedulesRemoval` | frontend/services/authSession.ts:185-195 | a logout, a 401 of the current generation and an invalid verification of it clear the tab in a new generation and schedule, with locks, exactly one removal of the tab's own token |
| `SignInSteps.RemovalRemovesIff` | frontend/services/authSession.ts:41-48 | the removal empties the storage exactly when its token is there and the tab has not begun another generation |
| `SignInSteps.SignOutRemovesToken` | frontend/services/authSession.ts:41-195 | over a whole run the removal waits for its turn, and after it the token is not stored if the tab is still in that generation, whatever happened in between |
| `SignInSteps.UndisturbedSignOut` | frontend/services/authSession.ts:41-195 | so an undisturbed sign-out leaves no token, and the next start of any tab is signed out |
| `AuthSession.Session.ReplaceToken` | frontend/services/authSession.ts:24-33 | token, phase and generation change together, and the account scope is cleared once |
| `AuthSession.Session.Verify` | frontend/services/authSession.ts:98-101 | verification starts a new generation with the same token, unless there is none or it is too early |
| `AuthSession.Session.FinishVerify` | frontend/services/authSession.ts:103-113 | the answer to a verification counts only in its own generation |
| `AuthSession.Session.Login` | frontend/services/authSession.ts:157-166 | login starts only from `signedOut` |
| `AuthSession.Session.FinishLogin` | frontend/services/authSession.ts:170-178 | the issued token is kept only in its own generation |
| `AuthSession.Session.PersistSection` | frontend/services/authSession.ts:121-130 | the lock-held section stores only the token of its own generation in phase `persist`, and signs in exactly when reading back answers that token; a read-back that raises leaves the written value |
| `AuthSession.Session.RemovalSection` | frontend/services/authSession.ts:45-48 | the lock-held section removes only the token its tab owned |
| `AuthSession.Session.RejectToken` | frontend/services/authSession.ts:185-191 | a 401 ends the generation it belongs to and no other |
| `AuthSession.Session.Logout` | frontend/services/authSession.ts:192-195 | logout clears the tab before the removal section runs |
| `AuthSession.Session.OnStorageEvent` | frontend/services/authSession.ts:206-219 | another tab's change is adopted in a new generation, unless it is this tab's own token |
| `AuthSession.Session.AdoptStored` | frontend/services/authSession.ts:144-156 | the stored token is adopted for verification, or the tab signs out |
| `AuthSession.Session.UseTemporarySession` | frontend/services/authSession.ts:182-184 | a token that could not be stored may be used in this tab |
| `AuthSession.Session.PersistToken` | frontend/services/authSession.ts:116-121 | storing starts only in phase `persist` with a token and where locks exist |
| `AccountSession.TicketPassesIff` | frontend/services/accountSession.ts:42-55 | `assertCurrent` succeeds exactly when the scope is open now and no clear, invalidate or account-changing accept happened since capture |
| `AccountSession.GenerationCounts` | frontend/services/accountSession.ts:21-39 | the generation is the first one plus the number of operations that ended the scope, and the account stays as long as there is none |
| `AccountSession.AcceptIs` | frontend/services/accountSession.ts:34-39 | an accepted account opens the scope, in a new generation exactly when one of its three identity fields is another one |
| `AccountSession.CaptureIs` | frontend/services/accountSession.ts:42-57 | a ticket can be taken after an account with an epoch was accepted, and in a suspended scope only by who can wait; never after clear or invalidate |
| `AccountSession.SuspensionIsResumable` | frontend/services/accountSession.ts:29-39 | any number of suspensions and an accept of the same account keep the ticket |
| `AccountSession.EndedIsNotResumable` | frontend/services/accountSession.ts:25-33 | after clear or invalidate nothing makes the scope suspended before the next accept |
| `AccountSession.ScopedCallIsSafe` | frontend/services/accountSession.ts:58-75 | a scoped call delivers only if no operation between capture and completion ended the scope |
| `AccountSession.Cleared` | frontend/services/authSession.ts:24-30 | any change of the sign-in leaves a closed scope without an account, one generation on for each |
| `AccountSession.Session.ClearScope` | frontend/services/accountSession.ts:21-24 | no account, closed, not resumable, in a new generation |
| `AccountSession.Session.InvalidateScope` | frontend/services/accountSession.ts:25-28 | closed and not resumable, in a new generation |
| `AccountSession.Session.SuspendScope` | frontend/services/accountSession.ts:29-33 | closed; resumable only if it was open or resumable before |
| `AccountSession.Session.AcceptAccount` | frontend/services/accountSession.ts:34-39 | open, in a new generation exactly when one of the three identity fields changed |
| `SignInScope.SignInTicketIff` | frontend/services/authSession.ts:24-30 | with any number of tabs, in every interleaving of sign-in steps and scope operations: an account ticket passes exactly when its tab's sign-in is still of the same generation, nothing else ended the scope, and the scope is open |
| `SignInScope.ScopedCallIsSignedIn` | frontend/services/accountSession.ts:58-75 | so an account ticket taken while signed in passes only while the same token is signed in, for the same account |
| `SessionStore.LookupTheorem` | backend/app/api/auth.py:139-144 | for any number of instances over one database a token validates exactly when the instance's fingerprint is the recorded one and the token was issued under it since the last rotation and not revoked |
| `SessionStore.RotationIsFinal` | backend/app/api/auth.py:105-118 | a token issued before a rotation never validates again, also after rotating back |
| `SessionStore.RevocationIs` | backend/app/api/auth.py:146-153 | after a revocation the named token, or every token, is not valid, and every other answer is as before |
| `SessionStore.RevocationIsFinal` | backend/app/api/auth.py:146-153 | over any history a valid token that is revoked is never valid again for any instance |
| `SessionStore.StaleInstanceIsHarmless` | backend/app/api/auth.py:120-132 | an instance configured for another secret neither adds nor removes sessions |
| `SessionStore.Store.Open` | backend/app/api/auth.py:105-118 | initialisation empties the sessions exactly when the fingerprint changed |
| `SessionStore.Store.IssueToken` | backend/app/api/auth.py:126-133 | issues under the recorded fingerprint or fails without effect |
| `SessionStore.Store.Contains` | backend/app/api/auth.py:139-144 | an error when the fingerprint changed, otherwise membership |
| `SessionStore.Store.RevokeToken` | backend/app/api/auth.py:146-153 | the named token or all are not valid any more and the others are as before, with the number of tokens that went; or it fails without effect |
| `SessionStore.AttemptsAreSpaced` | backend/app/api/auth.py:86-92 | whatever the clients do, admitted login attempts are two seconds apart |
| `SessionStore.AdmittedIff` | backend/app/api/auth.py:86-92 | and an attempt is admitted exactly when no admitted one was less than two seconds before it |
| `SessionStore.Limiter.RetryAfter` | backend/app/api/auth.py:86-92 | zero admits; otherwise the answer is the least number of whole seconds, at least one, after which an attempt is admitted |
| `ReadRecent.ReadTail` | backend/app/diagnostics.py:472-501 | the bytes kept are one contiguous stretch of the file within the snapshot, evenly placed for UTF-16; never more than the budget is read; reading stops early only when the deadline has passed or the file gave nothing; incompleteness is reported exactly |
| `ReadRecent.MarkDecidesNewline` | backend/app/diagnostics.py:475-502 | a file is read as UTF-16 exactly when it begins with the byte order mark of one of the byte orders, and its records then end in the newline of that order |
| `Framing.FramingTheorem` | backend/app/diagnostics.py:502-512 | the records of a buffer are the one way to split it into finished records, each ending in its only aligned delimiter, and an open rest |
| `Framing.FramesRejoin` | backend/app/diagnostics.py:504-512 | the records concatenate to exactly the bytes read |
| `Framing.WholeTheorem` | backend/app/diagnostics.py:507-510 | a result file is not split |
| `Framing.RecordEnd` | backend/app/diagnostics.py:505-513 | the search with positions finds the end of the next record; only once the deadline has passed may it stop at a delimiter that straddles two code units |
| `RecentRecords.Examine` | backend/app/diagnostics.py:516-568 | exactly one leading slice is dropped when the read began inside a record, and it is the first record unless the deadline had passed before any record was examined; the examined slices are consecutive records; discarded + examined + unprocessed bytes equal the bytes kept; every examined record is exported or counted under one reason; output stays within the budget; the loop stops early only with the matching flag |
| `RecentRecords.Collect` | backend/app/diagnostics.py:463-568 | neither the bytes read nor the bytes exported exceed the budget, and the bytes read are the probed prefix plus what is accounted for |
| `RecentRecords.Consume` | backend/app/diagnostics.py:529-565 | one record: the reason given, the export and the remembered origin; a record that does not fit changes nothing |
| `RecentRecords.EveryRecordIsCounted` | backend/app/diagnostics.py:557-560 | exported and omitted records together are the examined ones |
| `RecentRecords.DuplicateTheorem` | backend/app/diagnostics.py:549-556 | a legacy message is a duplicate exactly when one of the same origin was seen before, while fewer than 256 origins were |
| `RecordVerdicts.ExportedIff` | backend/app/diagnostics.py:528-565 | a record is exported, as it was sanitised, exactly when it has at most 64 KiB, decodes, ends in a newline or is a result read whole, is recognised and repeats no remembered legacy message |
| `RecordVerdicts.ReasonIff` | backend/app/diagnostics.py:528-560 | each of the six reasons is given exactly in its own case |
| `RecordVerdicts.TrackedIsRemembered` | backend/app/diagnostics.py:549-556 | an origin is remembered exactly when a legacy message of it was seen while fewer than 256 origins had been |
| `RecentRecords.Tracked` | backend/app/diagnostics.py:555-556 | all origins seen are remembered, up to 256 |
| `RecentRecords.BytesAreAccounted` | backend/app/diagnostics.py:516-528 | the byte half of the account follows from the position of the loop, also after a misaligned stop |
| `BundleBudget.Allocate` | backend/app/diagnostics.py:692-728 | each of the first 22 files is offered its share of what the files before it left; whatever they did that is no less than min(4 MiB, total/n) and offers never decrease; all reads, failed ones included, and all exports stay within the total; once the deadline has passed no file is read |
| `BundleBudget.Attempt` | backend/app/diagnostics.py:716-725 | an attempt consumes and exports no more than its budget; it is unavailable only if the file cannot be opened or read, and otherwise what is included is the account of the file's tail |
| `BundleBudget.NextFile` | backend/app/diagnostics.py:707-725 | one turn: the file's budget, what it spends, and the share left for the files after it |
| `BundleBudget.ShareIsLeft` | backend/app/diagnostics.py:708-725 | spending at most an equal share leaves the others theirs |
| `BundleBudget.NextOffer` | backend/app/diagnostics.py:707-725 | what a file used is the larger of what was read and exported, or its whole budget if it raised; the next file is offered its share of the rest |
| `BundleBudget.UnusedIsPassedOn` | backend/app/diagnostics.py:707-725 | files that use little leave the rest to the later ones |
| `AdmissionLease.OneBundleTheorem` | backend/app/diagnostics.py:774-812 | in every order of scheduling failure, worker end and coroutine end at most one bundle is built at a time, and only under the permit |
| `AdmissionLease.ReleaseTheorem` | backend/app/diagnostics.py:761-768 | each admitted request gives the permit back exactly once: when its worker and its coroutine have both ended, or when it could not be scheduled; never while its worker runs |
| `AdmissionLease.BothEndingsRelease` | backend/app/diagnostics.py:761-768 | a scheduled request has given the permit back exactly when both its worker and its coroutine have ended |
| `AdmissionLease.PermitReturns` | backend/app/diagnostics.py:775-787 | the permit is free exactly when no request holds it |
| `AdmissionLease.LeaseCell.Finish` | backend/app/diagnostics.py:761-768 | the permit goes back with the second of the two endings |
| `AdmissionLease.Begin` | backend/app/diagnostics.py:774-787 | a request without the permit is rejected; with it, a failure to schedule gives the permit back at once and a scheduled one holds a new lease |
| `AdmissionLease.Semaphore.TryAcquire` | backend/app/diagnostics.py:775 | the acquire that does not block takes a permit exactly when there is one |
| `Replay.ReplayTheorem` | backend/app/api/routers/experiments.py:661-686 | for any script, buyer and agent steps mixed and texts repeated, and any number of runs: after every run the transcript is the seed and the turns up to the step just run, each with one answer, exactly when no run went beyond the step after the previous one and no agent step was repeated, unless on its own as a whole transcript |
| `Replay.BuyerReplayTheorem` | backend/app/api/routers/experiments.py:661-686 | for a script of buyer steps the order of the runs alone decides |
| `Replay.ReplayKeeps` | backend/app/api/routers/experiments.py:661-686 | one run of a step that fits leaves exactly the turns up to it, and its checkpoints |
| `Replay.ReplayBreaks` | backend/app/api/routers/experiments.py:661-686 | one run of a step that does not fit never does |
| `Replay.ExactlyOnce` | backend/app/api/routers/experiments.py:661-665 | a sufficient condition for it: under the condition of that theorem, if the buyer texts of the script differ, each of them up to the step just run occurs once after the seed; when a text occurs twice is `ReplayDuplicates.NoDuplicateIff` |
| `Replay.RepeatReplacesAnswer` | backend/app/api/routers/experiments.py:661-665 | repeating the last step replaces its answer and nothing else |
| `Replay.ForcingEarlierLosesSteps` | backend/app/api/routers/experiments.py:661-665 | forcing an earlier step and then a later one drops the steps between them, because the later checkpoint lies beyond the transcript |
| `ReplayDuplicates.NoDuplicateIff` | backend/app/shared/agent/experiments.py:402-412 | whether a retry appends a buyer message that is still there, for any script with different buyer texts, agent steps among them, and any runs: no buyer message ever occurs twice after the seed exactly when each step that was applied with its checkpoint beyond the transcript is applied again only after a run that cut the transcript back to where it was |
| `ReplayDuplicates.DoubledIff` | backend/app/api/routers/experiments.py:661-686 | the same for the turns of all steps and any script: no step ever has two turns in the transcript exactly when no run repeats a step whose turn stands and was appended short of its checkpoint, or whose checkpoint is negative and whose turn is not the last message |
| `ReplayDuplicates.DuplicatesByOrder` | backend/app/api/routers/experiments.py:661-665 | the condition depends on the order of the runs, the modes of the steps and the length of the seed, not on answers and texts |
| `ReplayDuplicates.TurnStands` | backend/app/api/routers/experiments.py:661-665 | the turn of each run stays at the place where it was appended until a later run keeps less than that |
| `ReplayDuplicates.StandingRun` | backend/app/api/routers/experiments.py:661-665 | and every buyer message after the seed belongs to such a run |
| `ReplayDuplicates.ForcingTwiceDuplicates` | backend/app/api/routers/experiments.py:661-665 | forcing an earlier buyer step, then a later one twice, leaves the later one's message in the transcript twice |
| `ReplayDuplicates.AdmittedDuplicate` | backend/app/api/routers/experiments.py:661-665 | the failing input: buyer steps 0, 1, 2, then 0, 2, 2 again leave the message of step 2 twice, on every seed and with all texts and answers |
| `ReplayDuplicates.OrderIsAdmitted` | backend/app/shared/agent/experiments.py:402-423 | and the guard admits each run of that order, the last three with force |
| `Replay.AgentRepeatIff` | backend/app/api/routers/experiments.py:686 | for a step without a buyer turn the checkpoint is one too early: a repeat replaces only the answer exactly when the transcript before the step was empty |
| `Replay.VariantStore.Run` | backend/app/api/routers/experiments.py:644-687 | one run: truncate to the first checkpoint, append, save and keep the checkpoint; a failed turn writes nothing |
| `OverlappingRuns.Always` | backend/app/api/routers/experiments.py:564-687 | what holds in every interleaving of two runs on one variant, each with the experiment as it loaded it and perhaps other variants to record: whose transcript and whose checkpoints are stored |
| `OverlappingRuns.OverlapTheorem` | backend/app/api/routers/experiments.py:564-687 | for every interleaving of two runs of different new steps: both completions and checkpoints are stored exactly when the run that wrote last had loaded the experiment after the other had recorded; both turns are in the transcript exactly when one run read it after the other had saved it |
| `OverlappingRuns.OverlapRetryTheorem` | backend/app/api/routers/experiments.py:564-687 | for every interleaving of two runs of different steps, retries included: steps done before stay done with their checkpoints; a new completion is stored exactly when its run wrote last or the other loaded after it; both new answers are in the transcript exactly when one run read it after the other had saved and its own checkpoint did not cut the other's turn away |
| `OverlappingRuns.FollowingIsSequential` | backend/app/api/routers/experiments.py:564-687 | a run that loaded after the other had recorded, and wrote last, leaves what the two leave one after the other, whichever steps they are |
| `OverlappingRuns.OverlapCheckpoint` | backend/app/api/routers/experiments.py:686 | a run that read the transcript before the other saved records a checkpoint that lacks the other's turns |
| `OverlappingRuns.OverlapReplaysIff` | backend/app/api/routers/experiments.py:564-687 | two consecutive buyer steps both stay replayed with their checkpoints exactly when the run of the later one loaded after the run of the earlier one had recorded, and wrote last |
| `Progress.OrderTheorem` | backend/app/shared/agent/experiments.py:434-460 | the parallel completions of one run, which share its loaded document, give the same progress in every order and leave every other field of it alone |
| `Progress.NothingIsLost` | backend/app/shared/agent/experiments.py:443-456 | within the document of one run a step is done for a variant exactly when it was before or has completed; a recorded checkpoint stays |
| `Progress.FirstCheckpointIsKept` | backend/app/shared/agent/experiments.py:449-451 | the first completion's checkpoint is kept |
| `StoredDocument.Experiment.constructor` | backend/app/api/routers/experiments.py:566-570 | a run or a request works on its own copy of the row |
| `StoredDocument.Experiment.RecordStepProgress` | backend/app/shared/agent/experiments.py:434-460 | one lock region: the completion is recorded in the loaded copy, and the whole copy overwrites the row |
| `StoredDocument.Experiment.SaveContent` | backend/app/shared/agent/experiments.py:234-249 | the given fields replace those of the copy, and the whole copy overwrites the row |
| `StoredDocument.Experiment.Append` | backend/app/shared/agent/experiments.py:110-133 | appending a step, past the checks of its text, is such a save |
| `StoredDocument.Experiment.UpdateAnnotations` | backend/app/shared/agent/experiments.py:136-140 | replacing the annotations is such a save |
| `StoredDocument.Experiment.Describe` | backend/app/shared/agent/experiments.py:143-151 | renaming and replacing the notes are up to two such saves, and none without either |
| `StoredDocument.DocumentsHold` | backend/app/shared/agent/experiments.py:234-249 | for any actors, loads and saves in any order the row and every copy are the first document with the saves they include, in order |
| `StoredDocument.StoredDoneIff` | backend/app/shared/agent/experiments.py:443-460 | a completion shows in the row exactly when it was there at first or a save that the row includes recorded it |
| `StoredDocument.StoredFields` | backend/app/shared/agent/experiments.py:234-249 | name, notes and annotations are what the last included save of each set, and the steps are those appended by the included saves |
| `StoredDocument.StaysStoredIff` | backend/app/shared/agent/experiments.py:434-460 | a completion or edit stays in the row exactly as long as every later save is its author's own or comes from a copy loaded after it |
| `StoredDocument.NothingIsLostIff` | backend/app/shared/agent/experiments.py:434-460 | no update is ever lost exactly when every save came from a copy loaded after the last save of anybody else |
| `StoredDocument.StoredNowIff` | backend/app/shared/agent/experiments.py:434-460 | what the row includes after a save: that save, its author's saves since the author loaded, and what the row included at that load |
| `StoredDocument.OtherRunErasesCompletion` | backend/app/shared/agent/experiments.py:443-460 | the failing order: a run that loaded before another run's completion records its own, and the other completion is gone |
| `Progress.GuardTheorem` | backend/app/shared/agent/experiments.py:402-423 | on the document it is given the guard admits without force no variant that did the step; the run is refused exactly when all did it, or when nobody did the step before |
| `GuardedStart.RerunIff` | backend/app/api/routers/experiments.py:517-545 | for any requests, runs and recordings of one step in any order: a run that was not forced includes a variant that has done the step exactly when a run recorded it after the request had loaded |
| `GuardedStart.NeverRedoneIff` | backend/app/api/routers/experiments.py:517-545 | so a step is never done again without force exactly when no request starts on a document that it loaded before one of its variants was recorded |
| `GuardedStart.RecorderHasEnded` | backend/app/shared/agent/experiment_runs.py:107-124 | the registry does not prevent it: the run that recorded in between has ended by then |
| `GuardedStart.StaleRequestRedoes` | backend/app/api/routers/experiments.py:517-545 | the failing order: two requests load, the first runs and ends, and the second starts the same variant again |
| `Progress.GuardIsReadyIff` | backend/app/shared/agent/experiments.py:416-422 | the variants that a run of a later step admits have all done the step before exactly when every given variant has done one of the two steps |
| `Progress.GuardMaySkip` | backend/app/shared/agent/experiments.py:421-422 | the smallest case of it: a variant that never did the previous step is let through when another one did it |
| `Progress.GuardedRunsAreInOrder` | backend/app/shared/agent/experiments.py:402-423 | with one variant, if only the last step is ever repeated, the runs that the guard admits are in the order the replay needs |
| `Progress.GuardAdmitsIff` | backend/app/shared/agent/experiments.py:402-423 | with one variant, after any admitted runs, the guard admits exactly the next step of the script and, with force, every step already done |
| `Progress.InOrderIsAdmitted` | backend/app/shared/agent/experiments.py:402-423 | conversely no order that the replay needs is refused, with force for the repeated steps |
| `Progress.PendingAreTheUnfinished` | backend/app/shared/agent/experiments.py:416-417 | the pending variants are those that have not done the step |
| `Progress.LineageMessages` | backend/app/shared/agent/experiments.py:299-318 | the user turns of the longest dialogue prefix that all variants share |
| `RunRegistry.OneActiveRunTheorem` | backend/app/shared/agent/experiment_runs.py:107-124 | in every interleaving at most one active run per experiment and step; a start is refused exactly when there is one, registered or not |
| `RunRegistry.EndedStaysEnded` | backend/app/shared/agent/experiment_runs.py:64-72 | a run that has ended never becomes active again |
| `RunRegistry.ForgetIsSafeIff` | backend/app/shared/agent/experiment_runs.py:146-150 | forgetting a run and starting its step again makes a second active run exactly when the forgotten one was active, which the polling endpoint tests first |
| `RunRegistry.OutcomeTheorem` | backend/app/shared/agent/experiment_runs.py:64-72 | a run is completed exactly when all variants are, cancelled when one was cancelled or left over, failed otherwise |
| `RunRegistry.ActiveIff` | backend/app/shared/agent/experiment_runs.py:53-54 | a run is active exactly while it is queued or running |
| `RunRegistry.RunState.Update` | backend/app/shared/agent/experiment_runs.py:56-62 | unknown variants are ignored |
| `RunRegistry.RunState.Finish` | backend/app/shared/agent/experiment_runs.py:64-72 | cancelled before failed before completed |
| `RunRegistry.RunState.FailAll` | backend/app/api/routers/experiments.py:697-699 | every variant is marked failed |
| `RunRegistry.RunState.Settle` | backend/app/api/routers/experiments.py:632-637 | variants that never ended count as cancelled, then the run ends |
| `RunRegistry.Registry.Start` | backend/app/shared/agent/experiment_runs.py:107-124 | the new run is registered, or a blocking run is named and nothing changes |
| `RunRegistry.Registry.ActiveFor` | backend/app/shared/agent/experiment_runs.py:139-144 | an active run of the experiment, none exactly when there is none |
| `RunRegistry.Registry.Forget` | backend/app/shared/agent/experiment_runs.py:146-150 | the run is dropped from the registry whatever its status, and no other |
| `Translation.IsolationIff` | backend/app/shared/agent/translation.py:94-101 | no answer given for one text reaches another text's row, for all answers, exactly when the tags are distinct |
| `Translation.TopUp` | backend/app/shared/agent/translation.py:45-52 | tags stay distinct when assigned and when topped up, and assigned ones are kept |
| `Translation.FreshShortHash` | backend/app/shared/agent/translation.py:36-43 | the first salted hash that is not in use |
| `Translation.CountTheorem` | backend/app/shared/agent/translation.py:104-123 | saved + omitted + abnormal = targets, and nothing is omitted exactly when every target's tag has an answer |
| `Translation.AnswerIsStored` | backend/app/shared/agent/translation.py:104-121 | a null answer or one that says that nothing is to be translated is stored as the empty text, one that says that the message is abnormal is not stored, any other is stored trimmed, and a missing one changes nothing |
| `Translation.CountsAre` | backend/app/shared/agent/translation.py:104-123 | the counts are the number of texts whose answer stores a row and the number of those without an answer |
| `Translation.TranslationCache.Translate` | backend/app/shared/agent/translation.py:65-123 | every row written for a text is the answer to its own tag and distinct texts have distinct tags, also when the call raises half way |
| `Translation.TranslationCache.Write` | backend/app/shared/agent/translation.py:106-123 | the written rows are those of the targets before the failing write, and without one the counts are those of all |
| `Translation.CleanTheorem` | backend/app/shared/agent/translation.py:55-57 | each trimmed non-empty text once; cleaning again changes nothing |
| `Translation.CleanKeepsOrder` | backend/app/shared/agent/translation.py:55-57 | in the order of their first occurrence |
| `Translation.StripTheorem` | backend/app/shared/agent/translation.py:55-57 | trimming takes away only spaces and only at the ends |
| `Translation.UncachedKeepsOrder` | backend/app/shared/agent/translation.py:86 | the texts to translate keep their order |
| `TranslationJob.RunJob` | backend/app/translation_jobs.py:48-75 | the chunks are the pending texts in order, fifty at a time, and each chunk asks for all its texts; the job succeeds exactly when no chunk failed and no text was omitted; every changed row is an answer to its own text's tag in the chunk that held it |
| `TranslationJob.FailedOfIff` | backend/app/translation_jobs.py:61-75 | the failure count is zero exactly when every chunk came through |
| `TranslationJob.FailedInIs` | backend/app/translation_jobs.py:61-71 | a chunk adds all its texts to the failures if it raised, otherwise those without an answer |
| `PresetSeeding.PresetStores.EnsureSeeded` | backend/app/shared/agent/system_presets.py:188-218 | one startup over all presets: every row, fingerprint and revision |
| `PresetSeeding.PresetStores.SeedOne` | backend/app/shared/agent/system_presets.py:196-216 | one preset: written, fingerprint refreshed, or left alone; no other preset changes |
| `PresetSeeding.PresetStores.ApplyDefault` | backend/app/shared/agent/system_presets.py:180-185 | restoring writes the built-in and its fingerprint, or nothing |
| `PresetSeeding.ReplacedIff` | backend/app/shared/agent/system_presets.py:200-216 | after any history of saves, restores and startups, a startup replaces a row exactly when it is missing or holds the last built-in and the release offers another |
| `PresetSeeding.RecordTheorem` | backend/app/shared/agent/system_presets.py:230-244 | the recorded fingerprint is always that of the last built-in written or found |
| `PresetSeeding.SavesAndRestores` | backend/app/shared/agent/system_presets.py:228-242 | a save keeps the record, a restore leaves the built-in, switched on, with its fingerprint |
| `PresetSeeding.StartupTheorem` | backend/app/shared/agent/system_presets.py:200-216 | a startup changes a row only if it is missing or its content is the recorded built-in, and then to the built-in of the release; it switches a row on exactly when it writes it |
| `PresetSeeding.EditSurvivesIff` | backend/app/shared/agent/system_presets.py:200-216 | over any releases an edit survives exactly when it is not the recorded built-in and no release offers it, or the last one does |
| `PresetSeeding.UpgradeTheorem` | backend/app/shared/agent/system_presets.py:200-216 | the content and the recorded fingerprint after any number of releases |
| `PresetSeeding.SecondStartupRecordsNothing` | backend/app/shared/agent/system_presets.py:188-218 | a second startup on the same release writes no row, no fingerprint and no revision |
| `PresetSeeding.SwitchIsNotAnEdit` | backend/app/shared/agent/system_presets.py:138-157 | the enabled switch is not fingerprinted: an untouched preset that is off is on again after the first changed built-in |
| `DraftStorage.ReadYourWritesTheorem` | frontend/features/account/draftStorage.ts:18-41 | every load returns what the tab last saved, whichever storage calls failed, the load's own included |
| `DraftStorage.FlushTheorem` | frontend/features/account/draftStorage.ts:43-49 | a flush changes nothing that is seen; afterwards only drafts whose write failed are unsaved |
| `DraftStorage.SaveStoresIff` | frontend/features/account/draftStorage.ts:7-41 | a save whose write succeeds leaves its text in the storage, an empty text as no item; one whose write fails leaves the storage alone and the text unsaved |
| `DraftStorage.LoadStoresUnsaved` | frontend/features/account/draftStorage.ts:18-34 | a load stores an unsaved edit if its write succeeds, and changes the storage in no other case |
| `DraftStorage.SavedIsStored` | frontend/features/account/draftStorage.ts:18-49 | what was saved last is in the storage after any later load or flush of it that succeeds |
| `DraftStorage.ForeignIsSeenIff` | frontend/features/account/draftStorage.ts:18-34 | another tab's write is seen exactly when this tab has no unsaved edit that differs |
| `DraftStorage.Tab.SaveDraft` | frontend/features/account/draftStorage.ts:37-41 | remembered as unsaved first, then written; raises exactly when the write does |
| `DraftStorage.Tab.LoadDraft` | frontend/features/account/draftStorage.ts:18-34 | an unsaved edit comes first and is written again; otherwise the storage, or what is remembered when it cannot be read |
| `DraftStorage.Tab.FlushDrafts` | frontend/features/account/draftStorage.ts:43-49 | each unsaved draft is written unless its write fails |
| `PromptDiff.BuildPromptDiff` | frontend/domain/agent/promptDiff.ts:60-97 | for every edit script the two columns, their null cells skipped, spell the normalised texts exactly when every part of the script ends in a newline; otherwise each part that does not gets one; the two counts are the lines of each column that are not shared |
| `PromptDiff.BuildRows` | frontend/domain/agent/promptDiff.ts:60-97 | the columns are the old and new lines in order, the context rows are exactly the shared lines, the counts are those of the script, and removed and added lines are paired as far as they go |
| `PromptDiff.GroupRows` | frontend/domain/agent/promptDiff.ts:69-94 | the rows of a group: row k has the k-th removed and the k-th added line, as far as there are any, and there are no more rows than the longer of the two |
| `PromptDiff.ToLineTokens` | frontend/domain/agent/promptDiff.ts:29-38 | the line tokens spell the old and the new text exactly when every part ends in a newline, empty parts excluded; otherwise each part that does not gets one |
| `PromptDiff.EndedIsLonger` | frontend/domain/agent/promptDiff.ts:29-38 | the newlines that have to be added show in one of the two texts |
| `PromptDiff.SegmentLinePair` | frontend/domain/agent/promptDiff.ts:40-58 | the segments of a pair spell its two lines |
| `PromptDiff.LinesRejoin` | frontend/domain/agent/promptDiff.ts:33-35 | splitting a part into lines loses nothing, and adds a newline exactly when the part does not end in one |
| `PromptDiff.LinesHaveNoNewline` | frontend/domain/agent/promptDiff.ts:33-35 | and no line holds a newline |
| `Jsonc.StripJsoncComments` | tools/validate_schema.py:9-56 | the state-machine loop computes `Strip`, the removal of comments defined on tokens |
| `Jsonc.LexIsLossless` | tools/validate_schema.py:18-54 | cutting into tokens loses no character |
| `Jsonc.StripKeepsTokens` | tools/validate_schema.py:21-54 | the tokens of the result are the original's with each comment replaced by the newlines kept of it |
| `Jsonc.StripTheorem` | tools/validate_schema.py:21-54 | no comment is left, and every string literal, escapes as in section 7 of RFC 8259, is there verbatim and in order |
| `Jsonc.StripIsIdempotent` | tools/validate_schema.py:9-56 | stripping twice is stripping once |
| `Jsonc.StripIsIdentityIff` | tools/validate_schema.py:9-56 | text is left alone exactly when it has no comment outside its string literals |
| `Jsonc.StripKeepsLinesIff` | tools/validate_schema.py:33-40 | the number of newlines is kept exactly unless the text ends inside an unclosed block comment whose last character is a newline |
| `Jsonc.StripCountsLines` | tools/validate_schema.py:26-40 | and then exactly one newline is lost |

## Left out

- GitHub requests, redirects, ZIP unpacking, job objects, PowerShell and process creation: only their outcomes are inputs.
- Error messages, log records, progress counters and the counts that purge and prune only log.
- Logging is assumed not to raise between writing `go` and returning from `arm`; platforms without the update runtime.
- Crashes between separate writes (transcript and progress, preset row and fingerprint, row and revision) and exceptions outside `Exception`.
- Concurrent writers of the translation cache while one job runs, and the loading of the conversation used as context.
- The warning published when the server-side revocation of a logout fails, and storage events for other keys.
- Selection and grouping of log files, path checks, sanitising of lines, the runtime summary and the archive itself.
- The limits on a step's text, mode and number, and the owner that a save adopts; deleting and adding variants, promotion of an experiment's preset, ownership checks of runs, and `clear` of the registry, which no endpoint calls.
- The account check before a translation job starts: a job is one run of its function on cleaned texts.
- React components, pages, mock data, installation scripts, the CRM SDK, the outbox and the synchronisation coordinator.
- Export file names: they are not unique in general (contacts `A`, `A`, `A_2` collide), so there is no law to prove.
- GuardedStart.RerunIff: only the runs of the one step write the progress; what writers of other steps and fields do to it is in `StoredDocument`.
- RecentRecords.Examine: the multiset of reasons stands for the dictionary of counts; the file's change of size or time while it is read is not modelled.
- Translation.FreshShortHash: the width of the tags is not modelled; termination rests on the assumption on the hash.
- UpdaterCore.UpdateRuntime.AwaitAccept: the time limit is the length of the list of polls.
