# A model of the ban and inspection machinery

The plugin inspects upstream accounts, bans those that fail, and re-enables them later, while live
traffic keeps recording new failures. This project models the parts in which short critical
sections of many goroutines interleave, and proves what they keep:

- the revisioned ban pool, the merging of windows, and its state file (`Bans`, `BanStore`);
- the pool against the remote account switch, over every interleaving of the lock-free usage path
  with the sections that hold an account's lock (`Reconcile`, `Sections`, `Outcomes`);
- the three writers that coalesce saves (`SaveLoop`, `SnapshotSave`, `BanPersist`);
- the bounded queue of background disables (`DisposeQueue`);
- the inspection engine: exclusion and run tokens (`Lifecycle`, `Engine`), the rows of one run, full or
  incremental (`Identity`, `InspectionRun`, `Deliveries`, `ScriptedRuns`, `FullRuns`, `IncrementalRuns`,
  `Schedules`, `Forgetting`) or over some accounts only (`MergingRuns`), and the order of the shutdown (`Shutdown`);
- the batch delete and its accounting (`BatchDelete`, `Attribution`, `DeleteJob`);
- the guard of the management credential (`CircuitBreaker`).

## How it is built

Objects with locks are classes (`BanPool`, `SaveGate`, `SnapshotGate`, `PersistStatus`,
`PersistWorker`, `BanDisposeQueue`, `InspectionEngine`, `UnbanJob`, `HostGate`, `ManagementGuard`).
A method of such a class is one critical section, and its contract equates the new state with a
function of the old one. The protocol proofs use the same functions: a `Step` type lists the atomic
actions of all goroutines, `Next` applies them, a run is any sequence of states and steps, and the
main results are about every run, whatever the remote calls and file writes return. `Sections` writes
the sections that make remote calls as ordinary methods and ties each of them to the protocol of
`Reconcile`.

Times are nanoseconds. A century is 36 524 days and five years are 1 826 days, so that both are exact
numbers. Error codes and reset sources are datatypes; white space and letter case are those of ASCII.
`Text` and `Sums` hold what is needed of strings, sums and sizes.

## What the proofs found

For each item but the last there is a run or an input in which the code does not meet the
property, and the exact condition under which it does.

- The restore pass picks the row up a second time without looking at its window again
  (`ban_scheduler.go:113-126`), so a ban recorded or extended in between is removed while its window
  is open: `Reconcile.RestoreCanRemoveAnOpenWindow`. A row it removes is over exactly when it was over
  where the pass read it (`Reconcile.RemovedIsOverIff`), and that is so exactly under the condition of
  `Reconcile.ReadIsOverIff` on what was recorded since the scan.
- `Save` queues a failed empty snapshot again as nil (`ban_store.go:265-279`); a caller that still
  waits for it spins while it holds the lock: `SaveLoop.EmptyPoolCanHang`,
  `SaveLoop.WaiterSpinsIffEmpty`. With no such re-queue all callers return (`SaveLoop.AllCallersReturn`).
- A reload lowers the revision counter when the row written last was deleted before the save
  (`ban_store.go:375-393`): `BanStore.ReloadKeepsCounterIff`. In the store alone a revision read before
  the reload can then match a newer ban (`BanStore.StaleRevisionAfterReload`); the program itself loads
  only once, at its first registration, and holds no revision across it.
- The disable retry records success after it has released the account's lock
  (`ban_scheduler.go:88-109`) and an unban without a row does not look at the pool again
  (`ban_unban_job.go:189-191`); both can leave an enabled account under a row marked as applied:
  `Reconcile.LateSuccessBreaks`, `Reconcile.BlindUnbanBreaks`. The conditions under which they do not
  (`Reconcile.LateSuccessIsHarmlessIff`, `Reconcile.BlindUnbanIsHarmlessIff`) are the only hypotheses of
  `Reconcile.AppliedBansAreApplied`.
- Failure messages of a batch delete are read back by prefix. A shared display name lets a failed row
  count as deleted, and so does a key of one row that begins with the label of another, a colon and a
  space: `Attribution.UntracedFailure`. `Attribution.FailClosedIff` has the exact condition on the rows.
- A `Retry-After` above 9 223 372 036 seconds wraps around (`ban_detector.go:271-272`) and can give a
  window in the past: `Bans.RetryCanLieInThePast`, `Bans.RetrySecondsAreExactIff`.
- A retry row may take the place of another account's row with the same file name, and that account is
  then selected again by the next incremental run (`IncrementalRuns.TakeoverForgets`).
  `Forgetting.IncrementalFixpointIff` says exactly which entries of a list can be lost.
- Two targets with a common stable key leave fewer rows than targets after a stop, and a target with an
  index loses the row of a namesake to its retry. A full inspection lists its targets once each, in
  every run, exactly under the condition of `FullRuns.FullInspectionIff`.
- An unban made inside a management request is on no wait group (`ban_unban_job.go:153-155`), so the
  shutdown does not wait for it (`Shutdown.RequestUnbanCanOutlive`), and the last save of the ban pool
  covers everything exactly if none was under way when it began (`Shutdown.LastSaveIsLastIff`).
- The cooldown of a rejected key is forgotten when another key is rejected:
  `CircuitBreaker.AlternatingKeysAreNotHeldBack`, `CircuitBreaker.KeyRefusedIff`.
- The branch of `savePersistedSnapshot` for a snapshot older than the pending one
  (`store.go:254-264`) is never taken: `SnapshotSave.OlderEntrantsDoNotWait`.

## Model

| member | source | states |
|---|---|---|
| Bans.UnixResetTime | ban_detector.go:286-306 | a Unix time is accepted iff it lies in the next five years, in seconds up to twelve digits and in milliseconds from thirteen |
| Bans.AbsoluteResetTime | ban_detector.go:239-264 | the time of the first header whose time lies in the next five years, or nothing iff there is none |
| Bans.HeaderReset | ban_detector.go:239-264 | a header is usable iff the time it names lies in the next five years, and then gives that very time |
| Bans.RetryDelay | ban_detector.go:266-278 | a retry header is usable iff it asks for a positive 64-bit number of seconds or a later date; a date never gives more than the time up to it |
| Bans.RetrySecondsAreExactIff | ban_detector.go:271-272 | the delay is the one asked for iff that is at most 9 223 372 036 seconds |
| Bans.RetryCanLieInThePast | ban_detector.go:271-272 | with one second more it is negative |
| Bans.ResolveResetAt | ban_detector.go:224-237 | which of header, retry delay, response date and clock gives the window, and its time; it never waits for an operator, and lies ahead unless the response is dated in the past or the retry delay is too long |
| Bans.ResolveBanWindow | ban_detector.go:178-202 | which failures are bans; a window waits for an operator exactly for codes other than free usage, and always on 401 |
| Bans.DetectBan | ban_detector.go:123-176 | exactly which records are bans, 401 and 403 with their evidence; the row is consistent, unsynced, with the visible code and the diagnosis of its status |
| Bans.InspectionBanWindow | apply_ban_sync.go:56-75 | only a free-usage reason gets a window that ends by itself, after the fallback; all others a century |
| Bans.InspectionBan | apply_ban_sync.go:16-52 | the row of an operator's disable is consistent, marked as applied, with the given reason or a manual one |
| BanStore.Merged | ban_store.go:40-62 | the window falls only by reclassification; window and source come from one of the two entries; which code and diagnosis survive; consistency is kept; the rest is the new entry's |
| BanStore.BanPool.Set | ban_store.go:34-65 | merges with the row there is, gives the next revision, and leaves all other rows alone |
| BanStore.BanPool.Get | ban_store.go:67-72 | the row of the id, if any |
| BanStore.BanPool.Delete | ban_store.go:74-82 | removes this row only, and says whether there was one |
| BanStore.BanPool.DeleteIfOrCurrent | ban_store.go:98-114 | removes the row at the expected revision, else hands out the row that stays |
| BanStore.BanPool.UpdateCpaSyncState | ban_store.go:153-171 | changes the two sync fields of one row and nothing else, not even its revision |
| BanStore.BanPool.Expired | ban_store.go:192-202 | exactly the ids whose window is over, once each |
| BanStore.BanPool.UnsyncedCPA | ban_store.go:132-145 | exactly the rows not yet applied |
| BanStore.BanPool.SnapshotEntries | ban_store.go:227-239 | every row of the pool once, open or over |
| BanStore.BanPool.Load | ban_store.go:325-397 | the pool of the file; a file without revisions is numbered from 1, each row differently |
| BanStore.FromDisk | ban_store.go:355-379 | rows without the sync flag count as applied, all else is kept |
| BanStore.LastRowWins | ban_store.go:350-378 | of several rows of the file with one id the last one is loaded |
| BanStore.SaveLoadRoundTrip | ban_store.go:227-292 | saving and loading gives back every row unchanged |
| BanStore.ReloadKeepsCounterIff | ban_store.go:353-393 | the revision counter survives a restart iff the row written last is still in the pool |
| BanStore.ReloadedRevisionsAreFresh | ban_store.go:375-393 | a row written after a restart has a larger revision than every loaded one |
| BanStore.StaleRevisionAfterReload | ban_store.go:375-393 | in the store alone, a revision read before a reload that lowered the counter matches a newer ban |
| BanStore.RunsGrow | ban_store.go:34-65 | in every run the pool stays valid and the counter does not fall |
| BanStore.RevisionNamesOneRow | ban_store.go:34-65 | rows of one id and one revision agree in all but the sync fields, at any two points of a run |
| BanStore.CompareAndDeleteIsExact | ban_store.go:98-114 | deleting at a revision read earlier removes the row read then, none that was written since, and no other id |
| BanStore.LaterWritesGetLargerRevisions | ban_store.go:62-64 | the revisions of two writes of a run are ordered as the writes |
| BanStore.ConsistencyIsKept | ban_store.go:40-64 | from consistent entries every run makes consistent rows only |
| BanStore.AppliedRowsShowNoError | ban_store.go:153-171 | in every run a row that counts as applied shows no error |
| BanStore.LastNoteIsShown | ban_store.go:153-171 | the note of a failed call is shown until the row is written or marked again |
| BanStore.WindowHasOneOrigin | ban_store.go:40-61 | window and source of a row come from one recorded entry |
| BanStore.DiagnosisWasRecorded | ban_store.go:50-59 | a row never shows a diagnosis under a reason it was not recorded with |
| BanStore.LastEntryIsReported | ban_store.go:40-64 | time, trace and sync flag are those of the entry that came last |
| BanStore.WindowIsMaximum | ban_store.go:44-46 | without a credential failure the window is the longest ever recorded |
| BanStore.WindowIgnoresOrder | ban_store.go:44-46 | and so does not depend on the order of arrival |
| BanStore.WindowIsOverIff | ban_store.go:41-46 | in general it is over iff everything since some reclassification is |
| BanStore.RowIsReplay | ban_store.go:34-65 | a row that is kept is the merge of the entries written to it |
| BanStore.BroughtBack | ban_store.go:34-65 | a row that was away begins with the entry that brought it back |
| BanStore.PickedRowIsOverIff | ban_scheduler.go:113-123 | the row the restore pass picks up is over iff everything recorded is since it was last brought back, or since the scan if it stayed, from the last reclassification on |
| Reconcile.AppliedBansAreApplied | auth_ops.go:12-22 | over all interleavings in which no late success falls on the row of an enabled account and no unban without a row on an applied one: a row marked as applied belongs to an account that is not enabled, whenever its lock is free |
| Reconcile.OnlyTheReadRowIsRemoved | ban_unban_job.go:192-203 | unban, restore and enable remove the row they had read, or leave the newer one and go on to disable |
| Reconcile.ConflictIsSettled | apply_ban_sync.go:217-231 | a conflict ends disabled and marked, or unsynced, with the newer row kept |
| Reconcile.RestoreRemovesFreeUsageOnly | ban_scheduler.go:119-142 | what the restore pass removes at the end of a window is a free-usage row, in every run |
| Reconcile.RemovedIsOverIff | ban_scheduler.go:113-142 | in every run a row the restore pass removes is over iff it was over at the step where the pass read it |
| Reconcile.ReadIsOverIff | ban_scheduler.go:113-123 | and that is so iff everything recorded is since the row was last brought back, or since the scan, from the last reclassification on |
| Reconcile.PoolRuns | ban_store.go:34-171 | the pool of a run of the protocol goes through a run of the store |
| Reconcile.LateSuccessIsHarmlessIff | ban_scheduler.go:88-109 | the late success of a retry is harmless iff there is no row or the account is not enabled, whoever holds the lock |
| Reconcile.LateSuccessBreaks | ban_scheduler.go:88-109 | a run in which it is not |
| Reconcile.BlindUnbanIsHarmlessIff | ban_unban_job.go:189-191 | an unban without a row is harmless iff no applied row has appeared |
| Reconcile.BlindUnbanBreaks | ban_unban_job.go:189-191 | a run in which one has |
| Reconcile.RestoreCanRemoveAnOpenWindow | ban_scheduler.go:113-142 | a run in which the restore pass removes a ban whose window is open |
| Outcomes.RetryRecordsItsCall | ban_scheduler.go:88-109 | in every run, what a retry has to record is how its call ended: success only after it disabled the account, failure only after a failed call that changed nothing, absence only of a missing account and at the revision read |
| Outcomes.RetryLeavesOutcome | ban_scheduler.go:78-109 | a retry leaves the pool alone under its lock and always has its outcome still to record |
| Outcomes.LateStays | ban_scheduler.go:88-109 | and keeps it until it is recorded |
| Outcomes.RecordedOutcome | ban_scheduler.go:88-109 | recording marks the row as applied, or as not applied, or drops it at the revision read, and touches nothing else |
| Outcomes.RetryTellsTheTruth | ban_scheduler.go:78-109 | in every run a late write marks a row as applied only if the retry's call had disabled the account, and after a failed call the row stays unsynced |
| Outcomes.DroppedBansAreLifted | ban_unban_job.go:188-212 | in every interleaving an account that loses its row is enabled or gone, unless an operator has just disabled it and the new row is about to be written |
| Outcomes.DeletedAccountHasNoRow | apply_delete.go:60-95 | a single delete that succeeds, or finds nothing, leaves neither account nor row; one that fails changes nothing |
| Sections.Accounts.Call | ban_unban_job.go:241-250 | a remote call that fails or finds nothing leaves the account as it was |
| Sections.ApplyBanDispose | ban_dispose_queue.go:206-237 | pool and account after a background disable, with a ban arriving during the call |
| Sections.DisposeAppliesWhatIsDue | ban_dispose_queue.go:206-237 | the account is disabled iff its row was at the revision asked for, or unsynced, and the call went through; a row still due after the call is marked by its outcome |
| Sections.DisposedAlone | ban_dispose_queue.go:212-236 | these are the protocol's actions, one after the other |
| Sections.Redisable | apply_ban_sync.go:217-231 | the row stays and is marked iff the account was disabled again |
| Sections.Unban | ban_unban_job.go:188-212 | what each report of unban and restore says about row and account |
| Sections.UnbannedAlone | ban_scheduler.go:126-163 | restore and unban are the protocol's actions, one after the other |
| Sections.SetAuthEnabled | apply_auth_status.go:46-121 | the row shows the account as disabled iff it is, exactly when a conflict is reported |
| Sections.OperatorEnabledAlone | apply_ban_sync.go:161-214 | the enable section is the protocol's actions, one after the other |
| Sections.SetAuthDisabled | apply_auth_status.go:58-70 | after success the account is disabled and the row is the new ban, whatever was there before |
| Sections.OperatorDisabledAlone | apply_ban_sync.go:38-52 | the disable section is the protocol's actions, one after the other |
| Sections.OnwardIsAStep | auth_ops.go:12-22 | each action of a section, and the ban that arrives in it, is a step of the protocol |
| Sections.AloneKeepsAgreement | auth_ops.go:12-22 | a section run to its end leaves pool and account in agreement, whichever calls fail |
| SaveLoop.SaveGate.BeginSave | ban_store.go:250-256 | a new generation, its snapshot pending, and the loop head |
| SaveLoop.SaveGate.Resume | ban_store.go:257-269 | the loop head up to where the lock is given up: return, wait, write or spin |
| SaveLoop.SaveGate.CompleteWrite | ban_store.go:273-289 | re-queue on failure unless something newer is pending, else record the generation |
| SaveLoop.WrittenNeverDecreases | ban_store.go:281 | the written generation does not fall in any run |
| SaveLoop.RunsKeepInv | ban_store.go:252-289 | at most one writer, and what is pending is the snapshot of the newest generation |
| SaveLoop.NilMeansOnDisk | ban_store.go:245-292 | nil means that the file holds the pool as it was at or after the start of the call |
| SaveLoop.AttemptsRetire | ban_store.go:283-288 | a failed attempt returns its caller |
| SaveLoop.SomeoneCanMove | ban_store.go:257-289 | while a call is unfinished and no work was dropped, some caller can move |
| SaveLoop.AllCallersReturn | ban_store.go:257-289 | with k callers at most k(k+4) moves, then all have returned, if no failed empty snapshot is re-queued |
| SaveLoop.WaiterSpinsIffEmpty | ban_store.go:257-279 | after a failed write a waiter, asleep or awake, spins iff the snapshot was empty, and else takes the write over |
| SaveLoop.EmptyPoolCanHang | ban_store.go:257-276 | a run of two callers in which it does, for ever |
| SnapshotSave.SnapshotGate.BeginSave | store.go:234-266 | numbers, stale discard, pending snapshot, and the loop head |
| SnapshotSave.SnapshotGate.Resume | store.go:268-284 | the loop head up to where the lock is given up |
| SnapshotSave.SnapshotGate.CompleteWrite | store.go:286-306 | re-queue on failure, else the written number rises |
| SnapshotSave.DiskNeverGoesBack | store.go:240-300 | the number on disk does not fall in any schedule |
| SnapshotSave.NilMeansWritten | store.go:244-309 | a nil return that was not a discard has its number on disk; a call is discarded iff a newer number was taken in |
| SnapshotSave.DiskWasBrought | store.go:234-300 | whatever is on disk has the payload some caller came with and the number it was given then |
| SnapshotSave.NilMeansHandedIn | store.go:234-309 | after a nil return that was no discard the disk holds what a caller brought under a number at least as large, and at or after this call if the number was new, as it is for every snapshot without one |
| SnapshotSave.ErrorsComeFromWrites | store.go:286-309 | a failed write returns its caller, with nil iff its number is on disk already, and loses nothing; no other step returns an error |
| SnapshotSave.OlderEntrantsDoNotWait | store.go:254-264 | on entry nothing pending is newer than an accepted number, and nobody spins |
| SnapshotSave.AllCallersReturn | store.go:268-309 | with k callers at most k(k+4) steps, then every call has returned or was discarded, however writes fail |
| SnapshotSave.PersistStatus.CopyPersisted | engine_persist.go:51-61 | every copy gets a number of its own |
| SnapshotSave.PersistStatus.ApplyPersistResult | engine_persist.go:135-147 | an older outcome changes nothing |
| SnapshotSave.NewestOutcomeWins | engine_persist.go:135-147 | the status ends as the outcome of the largest number |
| SnapshotSave.OrderDoesNotMatter | engine_persist.go:135-147 | for every order of completion |
| SnapshotSave.LastCountingReportIsShown | engine_persist.go:135-147 | over any reports, numbered or not, the status shows the last one that has no number or none larger before it |
| BanPersist.PersistWorker.Mark | ban_persist.go:83-98 | sets the mark, and asks for a start unless started or stopped |
| BanPersist.PersistWorker.Start | ban_persist.go:36-47 | launches once, never after the stop |
| BanPersist.PersistWorker.Take | ban_persist.go:130-142 | leaves when stopped, else clears the mark before the save |
| BanPersist.PersistWorker.SaveFailed | ban_persist.go:153-161 | a failed save restores the mark |
| BanPersist.PersistWorker.Stop | ban_persist.go:49-71 | stops, and says whether there is a worker to wait for |
| BanPersist.NoUpdateIsLost | ban_persist.go:83-173 | every mutation whose mark is complete is on disk, in a save in flight, or announced by the mark |
| BanPersist.FinalSaveCoversAll | ban_persist.go:66-80 | the last save starts without a worker and, if it succeeds, covers every mutation before it |
| BanPersist.StartedOnce | ban_persist.go:36-47 | no second worker is ever started |
| DisposeQueue.BanDisposeQueue.Enqueue | ban_dispose_queue.go:176-200 | the new queue and whether the request was taken |
| DisposeQueue.BanDisposeQueue.Dequeue | ban_dispose_queue.go:132-144 | the front leaves with its revision and counts as in flight |
| DisposeQueue.BanDisposeQueue.Release | ban_dispose_queue.go:150-155 | the work in flight is done |
| DisposeQueue.BanDisposeQueue.Stop | ban_dispose_queue.go:86-104 | the pending work is discarded, once |
| DisposeQueue.QueueStaysValid | ban_dispose_queue.go:116-200 | the order is distinct, equals the keys pending, and fits the capacity, in every run |
| DisposeQueue.FlightsAreBounded | ban_dispose_queue.go:116-157 | work in flight is bounded by the workers |
| DisposeQueue.QueueHoldsTheMaximum | ban_dispose_queue.go:185-190 | a queued id carries the largest revision accepted since it was last delivered |
| DisposeQueue.AcceptedIsNotLost | ban_dispose_queue.go:176-200 | an accepted request is delivered at its revision or a higher one, discarded by the stop, or still queued so |
| DisposeQueue.RefusalHasAReason | ban_dispose_queue.go:176-194 | a request is refused iff it is blank, the queue is stopping, or full without the id |
| DisposeQueue.PositionMovesUp | ban_dispose_queue.go:133-139 | an id moves up one place at every take |
| DisposeQueue.FrontIsDelivered | ban_dispose_queue.go:133-148 | and is delivered when it is in front |
| DisposeQueue.StopIsFinal | ban_dispose_queue.go:86-115 | after the stop nothing is accepted or delivered |
| Lifecycle.OneHolderAtATime | apply_run.go:162-302 | before the shutdown at most one of inspection, bulk apply, slot and row actions is busy, with one worker behind each |
| Lifecycle.MayBeginIff | engine_lifecycle.go:37-56 | each kind of work may begin iff no worker that excludes it is alive and the shutdown has not begun |
| Lifecycle.ActiveJobIff | ban_unban_job.go:78-172 | a job is active exactly from its claim up to the first stop or release |
| Lifecycle.ActiveApplyIff | apply_run.go:162-334 | a bulk apply is on exactly from its start up to the first stop, shutdown or exit of a worker |
| Lifecycle.LiveTokenIff | engine_lifecycle.go:84-112 | the writers of a run are let through exactly from its start up to the next start, stop or shutdown, whatever was stopped before |
| Lifecycle.RunningIsNotStopped | engine_lifecycle.go:84-86 | before the shutdown an engine that runs an inspection is not stopped |
| Lifecycle.NumbersAreFresh | engine_lifecycle.go:111-112 | runs, apply runs and jobs are numbered upwards |
| Lifecycle.ResetsClearOnlyTheirOwn | apply_run.go:312-334 | the resets that ignore their run number clear the only worker there is |
| Lifecycle.TokensOnlyAdvance | engine_lifecycle.go:356-367 | the state of an issued token moves from running over finished to superseded, and stays there |
| Lifecycle.ActiveTokenIff | engine_lifecycle.go:356-367 | an issued token is reported as running exactly from its start up to its own end or the first stop |
| Lifecycle.OnlyTheCurrentRunPublishes | engine_lifecycle.go:308-327 | a stale run that ends changes no flag; the outcome is published by the current token only |
| Lifecycle.StopSupersedes | engine_lifecycle.go:145-169 | a stop supersedes the running token at once |
| Lifecycle.GateIsFinal | engine.go:14-25 | after the gate every kind of worker only dwindles |
| Text.FirstNonEmptyIs | classify.go:333-340 | the first field that is not blank is the one used, trimmed |
| Identity.StableKeys | identity.go:21-36 | there is no key exactly when index, id and file name are all blank |
| Identity.ShareKeyIff | identity.go:21-36 | two entries have a key in common iff they have the same index, or no index and the same id, or the same file name in any case with size and time |
| Identity.ShownAs | identity.go:227 | an entry is shown under its e-mail address, else label, name, index or id |
| Identity.RowsKeepKeys | identity.go:226-245 | probed, timed-out and cancelled rows have the keys of their entry |
| Identity.RowShowsEntry | identity.go:226-245 | and its texts, its display name, and whether it is disabled |
| Identity.DescribesIff | identity.go:247-278 | the row of one entry describes another iff they share a key, or, for an entry without keys, an index text, a display name or a file name, or the e-mail address of the one is the display name of the other |
| Identity.KeyIsKnownIff | identity.go:11-19 | a key is known iff some row has it |
| Identity.FirstMatch | identity.go:117-124 | the first row of the same identity, or the end |
| Identity.FindResultIndex | identity.go:117-124 | the loop finds it, or reports -1 |
| Identity.ResultContainsAuthFile | identity.go:247-278 | true iff some row describes the entry |
| Identity.FilterNew | identity.go:51-66 | exactly the wanted entries without a known key |
| InspectionRun.ContainsIff | identity.go:247-278 | for separated targets a row describes a target iff it is that target's row |
| InspectionRun.PutReplacesOwnRow | engine_lifecycle.go:256-272 | for separated targets a retry replaces the row of its own target |
| InspectionRun.CancelCompletes | engine_lifecycle.go:198-214 | for separated targets a stop adds exactly the missing rows |
| InspectionRun.FullInspection | engine.go:48-260 | a full inspection leaves the old rows, or ends or stops with one row per target and a full counter, in every interleaving |
| InspectionRun.StartedRunIsInitial | engine_lifecycle.go:84-112 | every start gives the state from which those runs go, whatever the flags, counters and targets before |
| Deliveries.LastVerdictIsShown | engine_lifecycle.go:238-272 | in every full inspection of separated targets the row of a target says what was delivered for it last, after the end and after a stop as well |
| Deliveries.RowsWereDelivered | engine_lifecycle.go:192-272 | whatever the targets, every row listed was delivered by a worker for a target, or added as cancelled by the stop |
| Deliveries.RetriesAreCounted | engine_lifecycle.go:256-285 | while a run retries, its counter is the number of targets delivered again |
| Deliveries.ProgressIsExact | engine_lifecycle.go:192-252 | in every full or incremental run the progress counter of a committed plan is the number of targets delivered, and is full after the end and after a stop |
| MergingRuns.ProgressIsExact | engine_lifecycle.go:192-306 | in every run over a category or a sample the counter is the missing accounts and the targets delivered, never exceeds the total, and is full after the end and after a stop |
| MergingRuns.OthersAreLeftAlone | engine.go:133-195 | such a run leaves every row alone that shares neither index nor file name with anything it may write |
| MergingRuns.EveryTargetHasARow | engine.go:133-260 | after its end or a stop every target has a row that describes it, if targets are apart from each other and from the rows they are merged into; nothing else is added but rows of missing accounts |
| FullRuns.FullInspectionIff | engine.go:166-260 | every run of so many workers over these targets ends or stops with one row for each iff a row of a target describes it and no other it can precede, and no target with an index has the index or file name of one that can precede it |
| FullRuns.RecognisedIff | identity.go:247-278 | for targets with stable keys the first half says that no two share one |
| FullRuns.NamesakeBreaks | engine_lifecycle.go:256-272 | a target with an index, probed again, takes over the row of a namesake delivered before it |
| FullRuns.ConfusionBreaks | engine_lifecycle.go:198-214 | a row that describes two targets leaves the other out of a stopped run |
| FullRuns.ImmediateStopIff | engine_lifecycle.go:192-222 | a stop right after the plan lists every target iff no two share a stable key |
| IncrementalRuns.PutForgetsIff | engine_lifecycle.go:262-266 | replacing a row loses a known entry iff that row alone had a key of it |
| IncrementalRuns.IncrementalFixpoint | identity.go:51-66 | after an incremental run with a plan has ended or stopped, the same list selects exactly the wanted entries without any key, if no row a retry could replace identifies another entry |
| Forgetting.RetryLands | engine_lifecycle.go:262-266 | a retry lands on the first row of its file name, or on its own row if it has none |
| Schedules.LeadersCanBeFirstIff | engine.go:166-188 | so many workers, who start in the order of the list, can deliver the first row of each of some names from chosen targets iff fewer than that have to be held back before each of these |
| Forgetting.IncrementalFixpointIff | identity.go:51-66 | every incremental run of so many workers over these old rows and targets settles the list iff no wanted entry is held by rows only that a retry of another account can replace, with workers enough to hold the others back |
| Forgetting.LosingRun | engine_lifecycle.go:256-272 | for every entry so held, a run that loses it |
| IncrementalRuns.TakeoverForgets | engine_lifecycle.go:262-266 | for any two entries with one file name and different indexes, a run after which the known one is selected again |
| Engine.UnbanJob.Occupy | ban_unban_job.go:136-156 | a new run number and fresh counters |
| Engine.UnbanJob.Stop | ban_unban_job.go:78-87 | only a running job is marked as stopped, and keeps running |
| Engine.UnbanJob.Release | ban_unban_job.go:163-172 | frees the slot whatever the run number |
| Engine.UnbanJob.OwnsRun | ban_unban_job.go:103-105 | the run holds the slot |
| Engine.UnbanJob.IsActive | ban_unban_job.go:89-93 | the run holds the slot and was not stopped |
| Engine.InspectionEngine.StartRun | engine_lifecycle.go:37-125 | starts iff nothing else is busy and the mode has input, under a new token whose writers are let through; else nothing changes, and the reason is of the right kind |
| Engine.InspectionEngine.StartApply | apply_run.go:162-204 | starts iff nothing else is busy and there are candidates |
| Engine.InspectionEngine.ExitApply | apply_run.go:312-334 | both apply flags go, whichever run the worker belongs to |
| Engine.InspectionEngine.StartAction | apply_run.go:231-268 | starts unless a run, an apply or the slot is busy |
| Engine.InspectionEngine.ExitAction | apply_run.go:283-287 | one action less, never below none |
| Engine.InspectionEngine.ClaimSlot | ban_unban_job.go:117-159 | claims the slot for an active job iff nothing else is busy, else the job is untouched |
| Engine.InspectionEngine.CancelMissing | engine_lifecycle.go:198-214 | the loop over the targets adds the cancelled rows |
| Engine.InspectionEngine.AbortRun | engine_lifecycle.go:192-230 | completes the list and takes the token away, or changes nothing |
| Engine.InspectionEngine.Stop | engine_lifecycle.go:145-169 | afterwards no run, apply or job is active; the list is completed iff a run was on |
| Engine.InspectionEngine.Gate | engine.go:18-25 | the first section of the shutdown |
| Engine.InspectionEngine.Finish | engine_lifecycle.go:308-327 | publishes for the current token only |
| Engine.InspectionEngine.RunWaitState | engine_lifecycle.go:356-367 | the answer to a waiter |
| Engine.InspectionEngine.AppendResult | engine_lifecycle.go:238-252 | adds the row, or changes nothing when stale or stopped |
| Engine.InspectionEngine.ReplaceResult | engine_lifecycle.go:256-272 | replaces the row, or changes nothing when stale or stopped |
| Engine.InspectionEngine.UpsertResult | engine_lifecycle.go:289-306 | puts the row, or changes nothing when stale or stopped |
| Engine.InspectionEngine.SetRetryPhase | engine_lifecycle.go:274-285 | goes on iff current and not stopped |
| Engine.InspectionEngine.CommitRunPlan | engine_lifecycle.go:399-427 | clears, registers and counts in one section; a stale token changes nothing, a stopped run is completed |
| Shutdown.HostGate.Admit | host_gate.go:38-53 | a call is admitted iff admission is open; slots stay within capacity and within the admitted calls |
| Shutdown.HostGate.TakeSlot | host_gate.go:51 | an admitted call without a slot gets one of the free ones; the bounds stay |
| Shutdown.HostGate.LeaveSlot | host_gate.go:63-66 | a slot becomes free while the call is still counted |
| Shutdown.HostGate.Done | host_gate.go:63-66 | only a call out of its slot leaves the wait group; those in a slot stay counted |
| Shutdown.HostGate.Close | host_gate.go:78-82 | afterwards admission changes nothing |
| Shutdown.CapacityHolds | host_gate.go:28-66 | at most sixteen calls are in a slot, and the wait group counts all admitted ones |
| Shutdown.NoAddAfterTheGates | engine.go:15-31 | no run or job is added after the gate, no host call after its closing, no dispose worker after the stop |
| Shutdown.ReturnedMeansQuiet | engine.go:14-46 | when the shutdown has returned no registered worker and no admitted host call is alive, ever after |
| Shutdown.LastSaveBegins | engine.go:36-38 | when the last save begins it sees every change so far |
| Shutdown.LastSaveIsLast | engine.go:36-38 | with no unban inside a request when the last save begins, nothing is changed after it |
| Shutdown.LastSaveIsLastIff | engine.go:36-38 | it covers every change of every continuation iff no such unban is under way |
| Shutdown.ShutdownIsNotStuck | engine.go:31-41 | until it returns, the shutdown or something it waits for can go on |
| Shutdown.DrainingGoesDown | engine.go:31-41 | every such step leaves less to drain |
| Shutdown.RequestUnbanCanOutlive | ban_unban_job.go:223-237 | a run in which an unban inside a request changes the pool after the last save |
| BatchDelete.KeysAreTrimmed | apply_delete.go:101-103 | a row has keys iff it has a file, and the file is one of them |
| BatchDelete.ParseMultiStatus | apply_delete.go:243-281 | unusable iff the body is no list of requested names; else each name with its last error |
| BatchDelete.ParseLenient | apply_delete.go:285-303 | each named failure with its last error, blanks skipped |
| BatchDelete.LastErrorTells | apply_delete.go:267-279 | the error kept for a file is that of the last entry naming it, or a stock text if it is blank |
| BatchDelete.ReportedIff | apply_delete.go:162-204 | a failure is reported for a file iff the call was refused, the multi-status body cannot be read, or an entry names the file |
| BatchDelete.NothingReportedIff | apply_delete.go:116-225 | no message is given iff every row has a file and the answer confirms the delete of each |
| BatchDelete.SendList | apply_delete.go:124-145 | the first row of each file, the set of files, and a message for each row without one |
| BatchDelete.DeleteBatch | apply_delete.go:116-225 | a row is cleared iff it leads its file and the answer confirms the delete: nothing after a refused call or an unreadable body, everything if the files were not there, else what no entry names; a refused call gives a message for every file |
| Attribution.Attribute | ban_delete_job.go:223-247 | the file of the first row that the message names |
| Attribution.ItemFailureMessages | ban_delete_job.go:211-302 | the outcome of every row |
| Attribution.DeletedIff | ban_delete_job.go:267-301 | a row counts as deleted iff it has a file, every message was mapped, and none to a key of the row |
| Attribution.OwnMessageIsTold | ban_delete_job.go:211-302 | a row is told the last message mapped to its own file |
| Attribution.UnmappedIsTold | ban_delete_job.go:211-302 | a row that no message was mapped to is told the first that could not be mapped, and how many more there are |
| Attribution.NamelessIsTold | ban_delete_job.go:211-302 | or, without such, that it has no file name if it has none; else it counts as deleted |
| Attribution.UnconfirmedIsNotDeleted | ban_delete_job.go:211-302 | with clear labels no row whose delete is unconfirmed counts as deleted, whatever the answer |
| Attribution.DeletedIffConfirmed | ban_delete_job.go:211-302 | with files of their own besides, a row counts as deleted iff the answer confirms its delete |
| Attribution.FailClosedIff | ban_delete_job.go:223-247 | the accounting is fail-closed for every answer iff the file of whichever row a failure message can name first is among the keys of every row whose file failed |
| Attribution.UntracedFailure | ban_delete_job.go:223-247 | else there is an answer after which a row whose file failed counts as deleted |
| Attribution.TraceableIsFailClosed | ban_delete_job.go:211-302 | where failures can be traced no row whose file failed counts as deleted |
| Attribution.RefusedCallDeletesNothing | apply_delete.go:162-180 | after a refused call no row counts as deleted |
| Attribution.GoneFilesAreDeleted | apply_delete.go:163-175 | after a call that found nothing every row does |
| Attribution.NamedOrUnreadableIsNotDeleted | apply_delete.go:186-210 | after a multi-status body that cannot be read no row does, nor ever one whose file an entry names |
| Attribution.UnnamedIsDeleted | apply_delete.go:186-216 | with clear labels and files of their own, a row that no entry names does |
| Attribution.ClearLabelsIff | ban_delete_job.go:223-247 | for rows with files of their own that is so iff no key of a row can begin a later row's message |
| Attribution.SharedNameIsNotClear | ban_delete_job.go:229-236 | two files under one display name break it |
| DeleteJob.ResolveToken | ban_delete_job.go:410-438 | the only answer there is: a row is found iff all rows that carry the id are the same |
| DeleteJob.ResolveOne | ban_delete_job.go:343-387 | one inspection row, else one listed entry, else the id as a file; never a choice between two |
| DeleteJob.BuildAccountResults | ban_delete_job.go:318-389 | one resolution for every id that is not blank, trimmed |
| DeleteJob.EveryIdIsGiven | ban_delete_job.go:340-343 | every id that is not blank is resolved as often as it is listed, in that order |
| DeleteJob.GivenWasListed | ban_delete_job.go:340-343 | and no other is |
| DeleteJob.NeverAChoice | ban_delete_job.go:405-501 | an id carried by two rows that differ in a text, or by two such entries and no row, deletes nothing; one carried by a single row deletes that |
| DeleteJob.ResolvedRowIsTidy | ban_delete_job.go:391-402 | the rows to delete have trimmed display names |
| DeleteJob.DeletesOwnFile | ban_delete_job.go:391-402 | the file deleted for a row is the one it names, else its name, index or the id |
| DeleteJob.KeepsItsTexts | ban_delete_job.go:391-402 | a row to delete keeps the index, names and e-mail address it has |
| DeleteJob.DeletesListedFile | ban_delete_job.go:488-497 | for a listed entry it is the file it goes under |
| DeleteJob.ListedItem | ban_delete_job.go:488-497 | a listed entry goes under its name, else its id, else the id given, with its index or that id |
| DeleteJob.DeletedFileIsCarried | ban_delete_job.go:318-389 | the file deleted is a text of the row, or else of the listed entry, that carries the id, or the id itself if nothing does |
| DeleteJob.CountSkipped | ban_delete_job.go:96-113 | rows that are not sent count as failed |
| DeleteJob.EveryDeleteIsKept | ban_delete_job.go:96-113 | every row resolved for deletion is sent as often as it was resolved, in that order |
| DeleteJob.KeptWasResolved | ban_delete_job.go:96-113 | and no other is |
| DeleteJob.DeleteChunk | ban_delete_job.go:143-168 | every row of a chunk is counted once and cleared iff its outcome is deleted |
| DeleteJob.RunDelete | ban_delete_job.go:88-170 | done is deleted plus failed and at most the total, which it reaches iff no stop came first; deleted is the number of rows cleared |
| DeleteJob.PersistState | ban_delete_job.go:177-199 | a failed save is one more failure |
| DeleteJob.ClearedIffConfirmed | ban_delete_job.go:143-155 | a row is cleared only if, and with files of their own exactly if, the answer to its chunk confirms its delete |
| DeleteJob.ClearedRowsWereConfirmed | ban_delete_job.go:143-155 | so for every row a job clears |
| DeleteJob.RunUnban | ban_unban_job.go:374-433 | every account begun is counted under its outcome |
| DeleteJob.UnbanCountsAddUp | ban_unban_job.go:396-432 | and the counters add up |
| CircuitBreaker.ManagementGuard.Blocked | management_credential.go:105-127 | refuses a rejected key in its cooldown and every key in a ban window; forgets a rejection that is over |
| CircuitBreaker.ManagementGuard.NoteFailure | management_credential.go:131-161 | a rejection starts the cooldown and drops the cached key, a notice starts the window |
| CircuitBreaker.ManagementGuard.NoteSuccess | management_credential.go:174-181 | a success forgets everything |
| CircuitBreaker.ManagementGuard.Remember | management_credential.go:23-39 | another key ends the rejection, not the ban window |
| CircuitBreaker.KeyRefusedIff | management_credential.go:23-161 | a key is refused exactly during the cooldown of its last rejection, unless a success or another key has come between |
| CircuitBreaker.AddressBannedIff | management_credential.go:123-181 | the address is held back exactly inside the window of the last notice, if no success has come since, and by no other answer |
| CircuitBreaker.RefusedIff | management_credential.go:105-181 | a request is refused exactly in the cooldown of a rejection of its key that stands, or in a window that stands |
| CircuitBreaker.RejectionsAreApart | management_credential.go:105-161 | two rejections of a key without a success or another key between are five minutes apart |
| CircuitBreaker.RejectionsAreFew | management_credential.go:105-161 | so an interval holds at most one more than the cooldowns that fit |
| CircuitBreaker.PauseIsAsked | management_credential.go:81-100 | the pause is the time named in the notice, or a minute, and two seconds more, up to 292 years |
| CircuitBreaker.SilentWhileBanned | management_credential.go:123-146 | nothing is sent inside a reported window, whatever the key |
| CircuitBreaker.AlternatingKeysAreNotHeldBack | management_credential.go:150-158 | with two keys the bound does not hold |

## Left out

- Presentation, language strings, request handling, transport, TLS and port discovery.
- JSON and the mechanics of file writes: encoding is the identity on rows, a write happens or does not.
- The substring heuristics over failure bodies: they arrive as their verdicts, as does whether an error text says that a file is gone.
- Aliases of an account: every account has one canonical id, so the loops over matching rows are about one row.
- Changes of the remote accounts by others: a failed call leaves the account as it was, and nobody else switches it.
- The order in which snapshots and targets are sorted: the theorems hold for every order.
- Which accounts a category or a sample selects: the targets and the rows of missing accounts of such a run are arbitrary.
- MergingRuns.EveryTargetHasARow: the targets must be apart from each other and from the rows of missing accounts and of earlier runs, because a row is replaced by index or file name.
- The rows of a run that is cut off by the shutdown: they are neither completed nor cleared there.
- Bulk apply as a loop over candidates, and the reasons and languages of result rows.
- Reconfiguration of the state file while the persist worker runs: configuration and path are fixed.
- Sleeps, backoff, soft timeouts and logging; a worker that may act can act at any time, and the retries of a run come in any order.
- The second send of a management call over HTTPS or the request's origin, and calls that overlap: the guard is shown for one call after the other.
- Reconcile.AppliedBansAreApplied: over runs in which a retry's late success and an unban of an account that had no row meet their exact conditions, because both break it otherwise.
- BanStore.StaleRevisionAfterReload: about the store alone; no part of the program holds a revision across a load.
- SaveLoop.AllCallersReturn: over runs in which no failed empty snapshot is queued again, because a waiter then spins; see `SaveLoop.WaiterSpinsIffEmpty`.
- Shutdown.LastSaveIsLast: the usage callbacks of the host are not counted among the changes, because the host decides when they end.
- CircuitBreaker.RejectionsAreFew: for a key without a success and without another key in the run; `CircuitBreaker.KeyRefusedIff` has the general case.
- InspectionRun.FullInspection: the targets must be separated, because rows are matched by keys and names; `FullRuns.FullInspectionIff` shows that this is exactly what is needed.
- IncrementalRuns.IncrementalFixpoint: a row that a retry could replace must not identify another listed entry; it needs nothing about the indexes, and `Forgetting.IncrementalFixpointIff` has the exact condition.
- Forgetting.IncrementalFixpointIff: for targets of which no two share an index, as the host's list gives them.
- DeleteJob.ClearedIffConfirmed: an error text of a failed call must not begin with white space, as none of the program's does.
- Text printed for keys, numbers and unmapped messages: the values are kept instead.
