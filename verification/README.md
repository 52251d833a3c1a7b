# Verification of the VyOS client agent

The agent takes desired configurations from a NATS key-value store and brings a VyOS device to them. It keeps one
small state file, the checkpoint, that names the UUID it applied last. This project models the parts of the agent
whose correctness is not visible from one function at a time, and proves what they promise. `dafny verify
dfyconfig.toml` checks all of it.

## How the model is built

Each operation is modelled three times, and the three are proved to agree.

1. As control flow: a datatype of stages, a function `Pending` for the call a stage is about to make, and a function
   `Resume` for what each reply leads to (`ConfigureProtocol`, `SaveProtocol`, `Actions`; for the lifecycle, `Take`).
2. As the source writes it: a class whose methods take the lock, make the calls in order and return early on errors
   (`ConfigureService`, `FileStore`, `ActionService`, `Lifecycle.Runtime`). Their contracts say that the calls they
   made are a run of the control flow that ended with the returned error.
3. As a system: any number of callers interleaved call by call, with the environment and crashes
   (`ConfigureSystem`, `SaveSystem`, `ActionSystem`, `Lifecycle`). The theorems about whole runs are about these.

What the control flow comes to is also told without it, by plain lists and conditions, and proved of every run: what
each call carries and which check turns a run away (`ConfigureCalls`), the fourteen steps of a `Save` with the clean-up
after each (`SaveCalls`), the points each thread of the lifecycle goes through (`LifecycleTrails`), and the languages of
calls (`ConfigureTraces`, `Actions`).

Dependencies are oracles: every call may fail at any time. A failed apply leaves arbitrary contents on the device. A
record may have no rendering. The KV record may be written or deleted between any two calls, and the device may restart
with its boot configuration, which an apply saves only if the deployment says so (`save_after_commit`). A crash may
happen between calls or inside one, with or without a loss of power.

The configure system works with an abstract checkpoint file (`Checkpoint`): what it shows, the states it may revert to
if renames were never synced, and whether its directory is durable. `Disk`, `SaveProtocol` and `SaveSystem` justify it.
There a disk has nodes with flushed or unflushed bytes, current directory entries, the earlier entries that an unsynced
directory may revert to, and a directory whose own entry may not be durable. `ConfigureOnDisk` puts the two together:
every run of the whole system over a disk, with every `Save` made of its file system calls, is a run of the configure
system.

`Provenance` does the same for the adapters: behind the log of every run there is a sequence of steps of the apply
backend, and whatever it is, each checkpoint is traced back through it to the renderer's input and the KV record.

## What is true only under a condition

Some statements one would expect of the agent are false of the code. Each has runs that show it and its exact condition.

- "In sync" is decided by the UUID alone. Two things may be expected of it. That the record was applied last holds if
  and only if no UUID is written that the file could show at first, no UUID comes back after another one, and none is
  rewritten with another rendering (`ConfigureExact.InSyncSoundIffSafeReuse`). That the device runs it holds if and only
  if the same is true of the rendered texts and the device never restarts or applying saves its boot configuration
  (`ConfigureExact.DeviceSoundIffDeviceSafe`). With `save_after_commit` off, its default, and a device that restarts,
  the agent calls a device in sync that has forgotten the configuration (`ConfigureExact.RestartForgets`).
- A `Save` that returned nil is durable if and only if the state directory was durable before the call
  (`FileStore.SavedIsLoaded`): `Save` may make the directory and syncs it, but nothing syncs the parent's entry for it
  (`internal/state/file_store.go:66`, `116-122`). The default state file lies in a directory that the agent makes.
- For every checkpoint file to begin with, the applied report is attempted at most once per UUID if and only if the
  directory is durable and no UUID that may be applied is applied again after another one
  (`ConfigureExact.ReportsUniqueIffReportableOnce`; the one exception is a history that applies only the empty UUID).
- One failure-free `Reconcile` always makes the checkpoint name the current record, and makes the device run it unless
  the record was found in sync without running there (`ConfigureConvergence.ReconcileReaches`). It always brings the
  device to the record if and only if the history is safe for the device, as above
  (`ConfigureConvergence.ConvergesIffDeviceSafe`).
- With a steady record, and as long as the power stays on, the checkpoint moves at most once more, unless a run is under
  way that loaded another UUID before (`ConfigureStable.AtMostOnceIffNotOvertaken`). A power loss may take back a save
  that failed past its rename; with such losses the checkpoint moves at most once more if and only if nobody is on the
  way to a save and the file can show nothing but the record, if that renders
  (`ConfigureStable.AtMostOnceWithLossesIffAtRest`), and it can move three times with one record and no other caller
  (`ConfigureStable.MovesThrice`).
- When `Handle` returns nil, the checkpoint names the notified UUID (`ConfigureDurability.NilNamesTheUuid`). That
  outlives a power loss if and only if every state the file may revert to names it, which after an apply means a durable
  directory (`NilSurvivesIff`); found in sync after a save that failed past its rename, it may be lost (`NilMayBeLost`).
- The repository's README.md:142-144 says that a failed state save does not checkpoint the UUID. The code follows this
  only up to the rename: an error from opening or syncing the directory (`internal/state/file_store.go:116-124`) leaves
  the new UUID visible. The model follows the code; `SaveProtocol.SaveRefines` says which errors mean what, and
  `ConfigureFailures.SaveFailureMayCheckpoint` gives the run.
- A failure result can be attempted for a UUID that the checkpoint names. `Handle` attempts a failure result exactly
  when a check fails or a call other than the report of a completed apply (`ConfigureFailures.HandleFailsIff`), and at
  that moment the checkpoint names the UUID exactly when it did so when the run took the lock, or the run's own save
  failed past its rename (`ConfigureFailures.FailureNamesCheckpoint`). So any redelivered notification can be reported
  as failed, already by its first status (`FailureOnReceipt`) or when it is found in sync (`FailureInSync`); but never
  after drift was found, other than by the save, nor once `Save` returned nil
  (`ConfigureErrors.SavedIsNeverReportedFailed`).
- The WaitGroup covers reconnect workers only: when the client is closed, `Start` may still be inside its reconcile, or
  a notification may be being handled (`LifecycleEnds.ClosedAmidConfigure` and the two runs beside it).
- A `Close` that timed out leaves the client open for good, and that is the only way for a closed runtime to keep it
  open (`LifecycleEnds.ClientClosesIffNotTimedOut`).

## Model

| member | source | states |
|---|---|---|
| ConfigureService.Service.Handle | internal/configure/service.go:74-153 | under the lock, the calls it makes are one finished run of the configure protocol for this notification, ending in the returned error; a nil return leaves a checkpoint naming the notified UUID |
| ConfigureService.Service.HandleLocked | internal/configure/service.go:95-129 | the entry checks, the two running statuses, the load and the five checks on the loaded record, in this order, are what the protocol prescribes |
| ConfigureService.Service.HandleLoaded | internal/configure/service.go:135-152 | in sync by UUID reports success without touching the device; drift goes on to render |
| ConfigureService.Service.Reconcile | internal/configure/service.go:156-224 | under the lock, the calls it makes are one finished run of the reconcile protocol, ending in the returned error |
| ConfigureService.Service.ReconcileLocked | internal/configure/service.go:164-223 | an unreadable checkpoint or key publishes the degraded status only; a missing key and an equal UUID return nil without publishing |
| ConfigureService.Service.ProcessDesiredConfigLocked | internal/configure/service.go:228-287 | from the rendering status to the report, every call and every early return follows the protocol |
| ConfigureService.Service.ReportApplied | internal/configure/service.go:276-287 | after a completed save, both the status and the result are attempted and their errors joined as a reporting failure |
| ConfigureService.Service.Fail | internal/configure/service.go:289-303 | a failure status and a failure result are both attempted, and the error is the original one followed by theirs |
| ConfigureService.Dependencies.Invoke | internal/configure/service.go:111-278 | the environment of the service: every call may fail, a record may have no rendering, a failed apply leaves any device contents, a failed save may have made the directory or renamed already |
| ConfigureTraces.RunsAreWords | internal/configure/service.go:95-303 | for every way the calls may fail, what a run has done so far is an acknowledged first part of a line, and a finished run is a word of one fixed language: in-sync, applied, nothing-to-do, degraded or failed tail |
| ConfigureCalls.CallsCarry | internal/configure/service.go:95-371 | in every run, every status and result goes out under the target, UUID and RPC id of the notification, or of the record a Reconcile loaded (the target alone before that); what is rendered is the record that was loaded, what is applied is the output of that rendering, what is saved is its UUID |
| ConfigureCalls.NotificationObjections | internal/configure/service.go:95-100 | a finished Handle ends with notification_target_invalid or notification_uuid_invalid and an error that begins with it if and only if the target is blank, or only the UUID is; one that turns nothing away is not reported as invalid and returns call errors only |
| ConfigureCalls.RecordObjections | internal/configure/service.go:115-129 | likewise for each of the five reasons about the loaded record: exactly which record and notification is turned away for which reason, in the order of the checks |
| ConfigureCalls.MatchingRecordPasses | internal/configure/service.go:115-136 | the checkpoint is read next if and only if the loaded record has a target and a UUID and both are those of the notification, whatever its RPC id |
| ConfigureCalls.HandleDecides | internal/configure/service.go:141-155 | once the checkpoint was read, the in-sync status comes next if its UUID is that of the record, and the rendering status otherwise |
| ConfigureCalls.ReconcileCannotRead | internal/configure/service.go:164-187 | a checkpoint or key that cannot be read is published once as degraded, under the target alone, and that error is returned; a missing key returns nil and publishes nothing |
| ConfigureCalls.ReconcileDecides | internal/configure/service.go:189-224 | having read both, Reconcile ends with nil there if there is no record or its UUID is that of the checkpoint, and otherwise goes on to the rendering status of the record |
| ConfigureErrors.ErrorIsWhatWentWrong | internal/configure/service.go:95-303 | the returned error is nil exactly when it would hold nothing; from Handle it holds the objection of a check if any and then exactly the errors its calls returned, in order; from Reconcile the same once it processes a record, while a read it cannot make returns that one error, a missing key none |
| ConfigureCalls.ErrorForm | internal/configure/service.go:276-316 | the joined error is returned after a failure result only, the "apply succeeded but reporting failed" error after the success result of an apply only, a plain one after the degraded status of a Reconcile only, and nil after none of the failing ends |
| ConfigureErrors.HandleReturnsNil | internal/configure/service.go:95-224 | Handle returns nil if and only if all its checks pass and no call failed, and the checkpoint then names the notified UUID |
| ConfigureDurability.NilNamesTheUuid | internal/configure/service.go:95-154 | in every run of the system, when a Handle is about to return nil it found in sync or completed a record of the notified UUID, and the checkpoint names that UUID |
| ConfigureDurability.NilSurvivesIff | internal/configure/service.go:141-154 | and every power loss from there leaves a checkpoint that names it if and only if every state the file may show names it; after an apply, if and only if the state directory is durable |
| ConfigureDurability.NilMayBeLost | internal/configure/service.go:141-154 | the failing run: a save fails past its rename, the redelivered notification is found in sync and Handle returns nil, and a power loss still takes the file back to what it showed first |
| ConfigureErrors.HandleReports | internal/configure/service.go:95-303 | every finished Handle attempts a result; an acknowledged result is the last call, so there is at most one |
| ConfigureErrors.SavedIsNeverReportedFailed | internal/configure/service.go:271-287 | once Save returned nil, the only calls left in the run are the applied status and the success result |
| ConfigureFacts.KnowsOn | internal/configure/service.go:141-278 | each call keeps what the lock holder may rely on: drift until the save, a rendering behind what is applied and saved, a saved checkpoint as durable as its directory |
| ConfigureFacts.KnowsDeviceOn | internal/configure/service.go:260-278 | from a successful apply to the end of the run, the device holds the rendering of the record, also for its next boot if applying saves |
| ConfigureFacts.Loaded | internal/configure/service.go:111-152 | a record just loaded is the current one, and is rendered only if it differs from the checkpoint and taken as in sync only if it does not |
| ConfigureFacts.CallTurns | internal/configure/service.go:135-278 | a call that loads no record keeps the record in hand, enters each branch only from the one before it, and changes the file only by a save |
| ConfigureSystem.InvOn | internal/configure/service.go:92-93 | every move of any number of callers, the KV writer, device restarts, crashes and power losses keeps the invariant of the whole system |
| ConfigureSystem.CheckpointProvenance | internal/configure/service.go:234-273 | every state the checkpoint file shows, or may show after a power loss, is one it could show at first or was saved by a caller that, three calls after the renderer returned a rendering for a KV record of that UUID, applied it successfully, and saved in the next call |
| ConfigureSystem.AppliesAreConserved | internal/configure/service.go:260-273 | over every run, attempts to apply = apply errors + applies cut by a crash + attempts to save + applies orphaned by a crash + the one about to be saved |
| ConfigureSystem.CheckpointNeverStutters | internal/configure/service.go:141-271 | a save that changes the state the file shows always changes the UUID it names |
| ConfigureSystem.OnlySavesMoveTheCheckpoint | internal/configure/service.go:271 | only a save of the lock holder or a power loss changes what the file shows, and a save shows the record it worked on |
| ConfigureSerial.LogIsSerial | internal/configure/service.go:92-93 | in every interleaving the log is a concatenation of whole runs of one caller each, of runs a crash ended, and of one open run that belongs to the lock holder |
| ConfigureSafety.ReportedAtMostOnce | internal/configure/service.go:271-278 | if the state directory is durable and no UUID that may be applied is applied again after another one, the success result of an apply is attempted at most once per UUID, over crashes, restarts and lost renames |
| ConfigureSafety.InSyncMeansApplied | internal/configure/service.go:141-194 | with safe reuse of UUIDs, whoever takes the in-sync branch for a record can rely on it: the last apply ever attempted was a successful one of that record's rendering (or, comparing texts only, of its text), and a device that keeps what was applied runs it |
| ConfigureExact.InSyncSoundIffSafeReuse | internal/configure/service.go:141-194 | for every checkpoint file to begin with and every history of the key, what was applied last is the record found in sync if and only if no UUID the file could show at first is written, no UUID comes back after another one that renders, and none is rewritten with another rendering |
| ConfigureExact.DeviceSoundIffDeviceSafe | internal/configure/service.go:141-194 | likewise, the device runs the record found in sync if and only if that holds of the rendered texts and the device never restarts or applying saves its boot configuration (or nothing is ever applied) |
| ConfigureExact.UuidComesBack | internal/configure/service.go:141-151 | the failing run: A saved, B failed to apply and left anything at all on the device, A written again, and A is called in sync |
| ConfigureExact.OtherStaysApplied | internal/configure/service.go:260-273 | the failing run: A saved, B applied but its save failed, A written again: A is called in sync while the device runs B |
| ConfigureExact.UuidRewritten | internal/configure/service.go:194-197 | the failing run: a UUID rewritten with another payload is in sync while the device runs the rendering it had before |
| ConfigureExact.InSyncAtFirst | internal/configure/service.go:141-151 | the failing run: a UUID that the file names from before is in sync although nothing was ever applied |
| ConfigureExact.RestartForgets | internal/applyvyos/adapter.go:46-52 | the failing run: A applied without saving the boot configuration and checkpointed, the device restarts, and A is called in sync |
| ConfigureExact.ReportsUniqueIffReportableOnce | internal/configure/service.go:271-278 | for every checkpoint file to begin with and every history of the key, no UUID is reported as applied twice if and only if the directory is durable (or only the empty UUID is ever applied) and no UUID that may be applied is applied again after another one |
| ConfigureExact.DirectoryForgets | internal/state/file_store.go:65-68 | the failing run: the first Save makes the directory and returns nil, the power is lost with the directory, and the same record is applied and reported again |
| ConfigureExact.ReportedTwice | internal/configure/service.go:271-278 | the failing run: a UUID that may be applied, another one, and the first again, each applied and reported |
| ConfigureFailures.SaveFailureMayCheckpoint | internal/configure/service.go:271-273 | a run that is reported as state_save_failed and whose UUID is checkpointed all the same |
| ConfigureFailures.FailureInSync | internal/configure/service.go:141-145 | a run in which a UUID was saved, reported as applied once, and reported as failed when notified again, because the in-sync status failed |
| ConfigureFailures.FailureOnReceipt | internal/configure/service.go:102-104 | the same because the very first status of the second run failed |
| ConfigureFailures.FailureIffJoined | internal/configure/service.go:289-303 | a finished run attempted a failure result if and only if it returns the joined error of the failure path |
| ConfigureFailures.HandleFailsIff | internal/configure/service.go:95-303 | Handle attempts a failure result if and only if one of its checks fails, or one of its calls other than the report of a completed apply and the failure report itself |
| ConfigureFailures.FailureNamesCheckpoint | internal/configure/service.go:92-303 | in every run of the system, a failure result is about to be attempted for a UUID that the checkpoint names if and only if the checkpoint named it when the caller took the lock, which never is so once drift was found, or the run's own save got past its rename and then failed |
| ConfigureConvergence.RunIsReachable | internal/configure/service.go:74-224 | a run of the sequential Service from any reachable state is a run of the concurrent system, ending in the same world and log |
| ConfigureConvergence.ReconcileReaches | internal/configure/service.go:156-224 | from every reachable state with the lock free, a failure-free Reconcile makes the checkpoint name the current record, and makes the device run it if and only if the checkpoint did not name it before or the device ran it already |
| ConfigureConvergence.ConvergesIffDeviceSafe | internal/configure/service.go:156-224 | for every checkpoint file to begin with and every history of the key, every such Reconcile brings the device to the record if and only if the history is safe for the device (rendered texts and boot configuration) |
| ConfigureConvergence.ReconcileConverges | internal/configure/service.go:156-224 | so with a history that is safe for the device, one failure-free Reconcile brings both the checkpoint and the device to the current record |
| ConfigureConvergence.ReconcileIsIdempotent | internal/configure/service.go:164-197 | every further failure-free Reconcile is two reads: it changes nothing and publishes nothing |
| ConfigureStable.AtMostOnceIffNotOvertaken | internal/configure/service.go:135-273 | with a steady KV record and as long as the power stays on, the checkpoint moves at most once more if and only if the lock holder is not on its way to save another UUID that it loaded before, with both records having a rendering |
| ConfigureStable.AtMostOnceWithLossesIffAtRest | internal/configure/service.go:135-273 | with a steady KV record and any power losses, it moves at most once more if and only if the lock holder is not on its way to a save and, if the record has a rendering, every state the file may show after a power loss names it |
| ConfigureStable.MovesThrice | internal/state/file_store.go:109-126 | the failing run: one record, a durable directory, nobody else running: a save that fails past its rename, a power loss that takes it back, and the next save |
| ConfigureStable.AdvanceTwice | internal/configure/service.go:111-273 | the run that moves it twice: the overtaken run saves its UUID, then the next Reconcile saves the current one |
| Lines.CountNonEmptyLines | internal/configure/service.go:400-420 | the inLine and count loop returns the number of CR/LF-separated segments holding a character other than space and tab |
| Lines.SegmentsSpellText | internal/renderervyos/adapter.go:223-243 | the segments with the line breaks between them are the text |
| Lines.SegmentsAreLines | internal/renderervyos/adapter.go:223-243 | the segments hold no line break, and there is one more of them than line breaks |
| Lines.CountIsAdditive | internal/applyvyos/adapter.go:138-158 | counting is additive over any line break |
| Lines.CrlfCountsAsLf | internal/configure/service.go:400-420 | CRLF and LF give the same count |
| FileStore.FileStore.Save | internal/state/file_store.go:54-127 | the file system calls it makes are one finished run of the save protocol, which ended with the returned error on the disk as it is now |
| SaveCalls.SaveIsWhole | internal/state/file_store.go:54-127 | a finished Save is the list of fourteen steps in order, on one temp file and the encoded state, up to the end or to the first failing step, followed by exactly the clean-up of that step and the error that names it |
| SaveCalls.CreatesAndRenamesAreChecked | internal/state/file_store.go:74-111 | the temp file is created right after a check that found the context alive, and the rename comes right after another one that follows a close without an error |
| SaveCalls.NilWasCheckedThrice | internal/state/file_store.go:58-127 | a Save that returned nil found its context alive at all three checks |
| SaveCalls.CancelledSaveChangesNothing | internal/state/file_store.go:58-110 | the context error is returned if and only if one of the checks found the context done, and the checkpoint then shows and may revert to what it did before |
| FileStore.FileStore.WriteTemp | internal/state/file_store.go:88-102 | a failed write, sync or chmod closes and removes the temp file, ignoring their errors |
| FileStore.FileStore.RenameTemp | internal/state/file_store.go:103-114 | a failed close, a cancelled context and a failed rename remove the temp file; nothing is removed once renamed |
| FileStore.FileStore.SyncDirectory | internal/state/file_store.go:116-126 | a failed open or sync of the directory is returned; the directory is closed in both cases |
| FileStore.FileStore.Load | internal/state/file_store.go:24-51 | returns what the file holds or the empty state for a missing file, and fails if and only if the context is done before or after the read, the path is blank, the read fails or the contents do not decode |
| SaveProtocol.SaveRefines | internal/state/file_store.go:54-127 | nil means the new state is visible, owner-only, and as durable as the directory; an error up to the rename leaves the file as it was, but for a directory made for it; an error after the rename leaves the new state visible but not durable |
| SaveProtocol.StoppedSaveRefines | internal/state/file_store.go:54-127 | a crash between any two steps leaves the old state, or the new one visible, or the new one as durable as the directory |
| SaveProtocol.CrashedSaveRefines | internal/state/file_store.go:54-127 | a power loss between any two steps of a Save finds one complete old or new state, or no directory if it was not durable before, as the configure system assumes |
| Checkpoint.LostInSaveIsCutThenLost | internal/state/file_store.go:78-126 | a power loss during a save is a cut of the save followed by a power loss, and nothing else |
| Checkpoint.PossibleOn | internal/state/file_store.go:65-126 | saving and losing power keep the abstract file consistent, add at most the state saved to what it may show, and keep a durable directory durable |
| Disk.PowerLostShows | internal/state/file_store.go:65-126 | losing an unanchored directory, unsynced renames and unflushed bytes turns a whole file into one of the complete states it may revert to |
| SaveProtocol.NoTempLeft | internal/state/file_store.go:78-114 | a returned Save leaves every other name of the directory as it was if and only if no removal of the temp file failed |
| SaveSystem.ConcurrentSavesLeaveNoTemp | internal/state/file_store.go:78-114 | once all of any number of concurrent Saves returned, with no failed removal, kill or power loss, every other name of the directory is what it was at first |
| FileStore.SavedIsLoaded | internal/state/file_store.go:24-127 | what a Save that returned nil wrote is what Load reads; and it is still that after every power loss if and only if the directory was durable before the call (or the state saved is the empty one) |
| SaveSystem.AlwaysOneCompleteState | internal/state/file_store.go:78-114 | with any number of concurrent Saves, kills and power losses, the file always decodes to the original state or one writer's complete state |
| ConfigureOnDisk.DiskRunsAreRuns | internal/state/file_store.go:54-127 | every run of the whole system over a disk, where each Save is a run of file system calls and crashes may stop it between any two, is a run of the configure system with the files the disk shows |
| ConfigureOnDisk.ReportedAtMostOnceOnDisk | internal/configure/service.go:271-278 | so on a disk whose state directory is durable, with no UUID applied again after another one, no apply is reported twice under one UUID |
| ConfigureOnDisk.InSyncMeansAppliedOnDisk | internal/configure/service.go:141-194 | and so on a disk, with safe reuse, a record found in sync was the one applied last, and runs on a device that keeps it |
| Lifecycle.Runtime.BeginStart | internal/agent/lifecycle.go:19-32 | returns "closed" if and only if the runtime is closed, "already started" if and only if it is started and not closed, and otherwise marks it started, all inside the critical section |
| Lifecycle.Runtime.MarkClosed | internal/agent/lifecycle.go:34-44 | tells whether the runtime was closed and closes it, inside the critical section |
| Lifecycle.Runtime.Close | internal/agent/lifecycle.go:117-149 | walks the program of a closing thread: nil when closed before; else the context is cancelled, then a time-out without closing the client or the client's close |
| Lifecycle.Runtime.Start | internal/agent/lifecycle.go:75-114 | walks the program of a starting thread, returns nil exactly when it was admitted and neither the client nor the startup status failed, and reconciles once exactly then |
| Lifecycle.Runtime.Reconnected | internal/agent/agent.go:105-117 | counts a worker and starts it exactly when the runtime is not closed |
| Lifecycle.Runtime.Work | internal/agent/agent.go:118-126 | counts its pass, reconciles once under the configure lock, and gives its count back |
| Lifecycle.WalkIsExecution | internal/agent/lifecycle.go:75-149 | what a method does alone is a run of the concurrent system from any state its thread is in |
| LifecycleTrails.TrailsAreProgrammed | internal/agent/lifecycle.go:75-149 | in every interleaving each thread has gone through a first part of one of the programs listed point by point (callback, worker, Start, Close, handler), and through all of it exactly when it ended |
| LifecycleTrails.CountedWorkerReconciles | internal/agent/agent.go:105-126 | a counted worker that has ended went once through taking the configure lock and reconciling, between counting its pass and giving back its count, and held the lock there |
| LifecycleTrails.StartReconciles | internal/agent/lifecycle.go:107-114 | a Start that returned nil reconciled once, after its status was published, holding the configure lock |
| LifecycleTrails.TalliesAgree | internal/agent/agent.go:118-126 | at every moment the pass counter equals the workers that counted their pass, the reconciles begun equal the workers and Starts that began one, and the runtime is cancelled if and only if a Close got past cancelling it |
| Lifecycle.LifecycleIsSafe | internal/agent/lifecycle.go:117-149 | in every interleaving the WaitGroup equals the live workers, at most one Start is admitted, the client is closed at most once, and only when closed and no worker is live |
| Lifecycle.ClosedIsForGood | internal/agent/lifecycle.go:34-44 | started and closed never revert; once closed no worker is added, live workers only decrease and no Start is admitted |
| Lifecycle.LockOrder | internal/agent/agent.go:109-126 | no thread holds or waits for the configure lock while it holds r.mu |
| Lifecycle.TimedOutNeverClosesClient | internal/agent/lifecycle.go:136-138 | after a Close that timed out, no Close ever closes the client |
| LifecycleEnds.ClientClosesIffNotTimedOut | internal/agent/lifecycle.go:121-142 | from every reachable closed state, some continuation closes the client if and only if the Close that marked the runtime did not time out |
| LifecycleEnds.StartupReconcileIsNotCounted | internal/agent/lifecycle.go:107-111 | a run in which the client is closed while Start is still inside its reconcile |
| LifecycleEnds.HandlingIsNotCounted | internal/agent/handlers.go:28-39 | a run in which Start returned, a configure notification is being handled, and the client is closed meanwhile |
| LifecycleEnds.ClosedAmidConfigure | internal/agent/lifecycle.go:127-142 | whenever the client was closed, whoever is inside the configure lock is one of these two, never a counted worker |
| Lifecycle.NoDeadlock | internal/agent/lifecycle.go:117-149 | while some thread has not ended, some thread can take a step, without any time-out |
| LifecycleEnds.EveryoneCanEnd | internal/agent/lifecycle.go:75-149 | from every reachable state, the threads that are there can all end without a time-out |
| Lifecycle.TakeDescends | internal/agent/lifecycle.go:75-149 | every step brings its thread strictly closer to its end |
| ActionService.Service.New | internal/actions/service.go:33-71 | fails exactly on a nil executor under a non-blank name or when no executor is left; otherwise an action is enabled exactly if it is a trimmed non-blank entry, and has exactly the executor given under that very, non-blank name |
| ActionService.FilterEnabled | internal/actions/service.go:41-48 | the loop keeps exactly the trimmed names of the non-blank entries |
| ActionService.FilterExecutors | internal/actions/service.go:50-62 | in any map order, the loop keeps exactly the executors under non-blank names, or reports a nil one |
| ActionService.SpacedActionIsNeverRun | internal/actions/service.go:41-89 | an action whose name begins or ends with white space is never carried out, however the service was configured |
| ActionService.Service.Handle | internal/actions/service.go:73-130 | the calls it makes are one finished run of the action workflow for this command, ending in the returned errors |
| ActionService.Service.Fail | internal/actions/service.go:132-156 | the failure status and the failure result are both attempted and their errors joined after the original |
| Actions.RunsAreWords | internal/actions/service.go:73-156 | for every way the calls may fail, a run is a first part of received, executing, execute, completed, success, and all of it, or a first part broken off and followed by the failure report with the code of what broke it |
| Actions.ExecutesAtMostOnce | internal/actions/service.go:83-97 | the executor runs only as the third call, only for an enabled and supported action, and only after both running statuses were acknowledged |
| Actions.ReportsOnce | internal/actions/service.go:114-156 | a finished run attempts a result last of all, and an earlier result attempt was not acknowledged |
| Actions.SuccessIsTheOutput | internal/actions/service.go:97-126 | a success result carries the executor's output and is acknowledged exactly when the run ended there |
| Actions.NilMeansDelivered | internal/actions/service.go:73-156 | the returned errors are those of the calls, in order, after the refusal if any; nil if and only if the action is permitted and every call was acknowledged |
| ActionSystem.CallsAreWords | internal/actions/service.go:73-156 | in every interleaving of unlocked Handle calls, each call's part of the log is a word of its own command |
| ActionSystem.OnceEach | internal/actions/service.go:97-124 | whatever the others do, no call runs an executor twice or has two results acknowledged |
| RendererAdapter.MergeMetadata | internal/renderervyos/adapter.go:166-188 | the pointer writes equal first-present: the nested schema field, else the flat field, else what was there |
| RendererAdapter.PayloadAndMetadata | internal/renderervyos/adapter.go:135-157 | the payload is the raw text of the config member, whether or not it decodes, and the whole payload without one; name and version are the first present of inner schema field, inner flat, root schema field, root flat and supported default |
| RendererAdapter.CloneRaw | internal/renderervyos/adapter.go:202-207 | a fresh buffer with the same contents, nil exactly for nothing to copy |
| RendererAdapter.FirstPresentIsFirst | internal/renderervyos/adapter.go:166-188 | first-present is the first candidate that is there, and the default if none is |
| RendererAdapter.FirstPlaceDecides | internal/renderervyos/adapter.go:135-188 | for every payload and for name and version alike, the first of the four places that holds a string decides, and what is supported if none does |
| RendererAdapter.BuildInput | internal/renderervyos/adapter.go:120-133 | fails exactly on a payload that is no object; otherwise the backend input carries the record's own target and UUID, the unwrapped payload and the metadata above |
| RendererAdapter.Render | internal/renderervyos/adapter.go:64-118 | an undecodable payload or a backend error is an error; otherwise the output is what the backend made of an input with the record's target, UUID and unwrapped payload |
| ApplyAdapter.Adapter.Apply | internal/applyvyos/adapter.go:67-114 | prepare first when the backend can, then apply, both on the input built from the rendering; a failed preparation leaves the device alone; as a whole it is the apply call of the configure protocol |
| ApplyAdapter.PreparedFirst | internal/applyvyos/adapter.go:86-113 | what is applied has the target, UUID and text of the rendering; nothing is applied before its preparation on the same input succeeded, and nil is returned exactly when the apply succeeded |
| Provenance.RenderPlaceholder | internal/renderer/placeholder.go:20-41 | fails exactly on a cancelled context, an empty target or an empty UUID, and otherwise gives three comment lines with that target and UUID |
| Provenance.AdapterKeepsIdentityIffBackendDoes | internal/renderervyos/adapter.go:113-132 | the VyOS adapter keeps every record's identity if and only if its backend returns the identity it was given |
| Provenance.CheckpointNamesTheAppliedInput | internal/renderervyos/adapter.go:64-133 | with both adapters and an identity-keeping renderer backend, every state the file can show that it could not show at first came from a KV record that was built into an input of that target and UUID, rendered by the backend without error, and accepted by the apply backend, prepared first if it can prepare, under that target and UUID right before the save, for every sequence of backend steps the run allows |
| Provenance.TraceExists | internal/applyvyos/adapter.go:67-114 | every log has such a sequence of backend steps |
| Provenance.AppliedAsItself | internal/configure/service.go:194-271 | with any renderer that keeps identities, every state the file can show that it could not show at first was saved right after an apply of an output under its own target and UUID |
| Provenance.PlaceholderApplied | internal/renderer/placeholder.go:34-40 | with the placeholder renderer, that output is the text naming this target and UUID |
| Provenance.PlaceholderReuse | internal/renderer/placeholder.go:34-40 | the placeholder ignores the payload, so with it the in-sync branch is sound exactly when no UUID was there at first and none comes back |
| Patterns.ValidateFormatPlaceholders | internal/config/validate.go:201-221 | accepts if and only if the value is n + 1 percent-free literals joined by "%s", and names the first bad directive otherwise |
| Patterns.CountedIffJoined | internal/config/validate.go:201-221 | a scan counts n placeholders and meets nothing else exactly on such joins |
| Patterns.FirstBadDirective | internal/config/validate.go:201-221 | the dangling or unsupported directive complained of is the first one that is not "%s": everything before it is a pattern |
| Patterns.SubstitutionIsTotal | internal/config/validate.go:201-221 | formatting with n arguments succeeds exactly on the values accepted for n |
| Patterns.DistinctTargetsDistinctSubjects | internal/config/validate.go:177-192 | with one placeholder, two targets give the same subject or key exactly when they are the same |
| Patterns.ValidateSubjectPattern | internal/config/validate.go:158-175 | accepts exactly the non-empty patterns without white space and wildcards that hold n placeholders, and which error each other input gets |
| Patterns.ValidateKeyPattern | internal/config/validate.go:177-192 | the same for one placeholder, with wildcard characters allowed |
| Text.TrimGivesInkEnds | internal/config/validate.go:162-164 | trimming changes a string exactly when white space is at one of its ends |
| Text.TrimKeepsTheMiddle | internal/actions/service.go:41-48 | trimming takes white space away at both ends and nothing else |
| Text.BlankMeansTrimmedAway | internal/configure/service.go:95-98 | the test for an empty trimmed string holds exactly of the strings that are all white space |

## Left out

- NATS, JetStream and agentcore: only the calls that load the desired record and publish statuses and results are kept, each acknowledged or failed; retries, reconnect timing and handler registration are not.
- The olg-renderer-vyos backends: rendering is an abstract partial function, applying sets the device to the rendered commands or fails; the computation of delete and set commands is not modelled.
- JSON, YAML and `time.ParseDuration`: codecs are abstract functions; for the state file only that decoding undoes encoding is used, and a file that was torn may decode to anything.
- What changes the device behind the agent's back other than a restart: it changes only by an apply or by restarting with its boot configuration.
- A state directory on a volatile file system: a directory that is not durable may be lost or kept at a power loss, and is durable once it was kept; one that is lost every time is only covered by the results that hold without a durable directory.
- Other targets: the KV store has one key, that of the agent's target; loading any other target finds nothing.
- The texts of statuses, results and wrapped errors, timestamps, the applied_at field, versions and bucket names: an error is identified by the call or check it came from.
- Configuration loading, defaults, the remaining field checks of `Validate` and `parseDurationField`: independent checks of single fields.
- `internal/actions/vyos_trace.go`: processes, packet capture, upload and interface names; an executor is a call that produces an output or an error.
- Logging, redaction, debug flags, the command line, the choice of engines in `newConfigureEngines`, `Runtime.Run`: easy or without behaviour of their own.
- Nil receivers and nil contexts: callers pass neither; a cancelled context is a failing call.
- ConfigureService.Service.Handle: its class is sequential, so the lock is a flag that must be free; callers that wait for it are modelled in ConfigureSystem.
- Lifecycle.Runtime.Close: likewise requires r.mu free, and that the wait can end; threads that block are modelled by the step system of the same module.
- LifecycleEnds.ClientClosesIffNotTimedOut: says that a continuation exists, not that the scheduler finds it.
- Patterns.ValidateFormatPlaceholders: works on characters where the source works on bytes; only the ASCII characters '%' and 's' are compared, so acceptance is the same.
- RendererAdapter.CloneRaw: raw messages are values, where nil and empty are one; the buffers it returns are arrays.
- Fairness: that every waiting caller eventually gets a lock is not stated; Lifecycle.NoDeadlock and Lifecycle.TakeDescends say that some thread can always move and that each thread's steps are finite.
