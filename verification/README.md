# Elderbrain appliance: crash-safe maintenance, modelled and proved

The Elderbrain appliance changes its own software, its users' data and its network while the power
may fail and any helper command may raise. This project models the durable protocols that make this
safe, and proves what they promise over every run: every interleaving, every crash point and every
number of interrupted recoveries.

How the protocols are written down:

- Each protocol is a state machine over what survives a crash. A datatype holds the durable state,
  `Action` lists the primitive steps (one atomic record save, one rename, one stop or start of the
  services, one adapter call), `Enabled` says when the code takes a step and `After` what it does.
  A run is a sequence of states and the log between them; a crash is a run that stops, because the
  next process finds only the durable state. State that dies with a process is named as such: who
  holds a lock, what it has checked so far, whether it has stopped the services.
- The coordinators are classes. Each method follows the branches of the Python method it models,
  every save or call may raise, and `Valid()` says that the concrete state is the end of a legal
  run. A method's contract says what it leaves behind; the theorems about runs say what that means.
- Where two machines are nested (an update drives two file transactions, a network restore drives
  the network worker, a pending backup drives the checkpoint store), the inner class is used as it
  is and its run is lifted, step by step, into the outer one.

The modules, from the bottom up:

| file | what it models |
|---|---|
| `Utilities.dfy` | optional values, key order, sequences without repetition |
| `RestorePaths.dfy`, `RestoreTransaction.dfy` | the journaled swap of N targets and its rollback |
| `UpdateActivation.dfy`, `UpdateCoordinator.dfy` | one signed update: code transaction, nested user-data restore, accepted release |
| `RestoreCoordinator.dfy`, `BaselineMigration.dfy` | two further clients of the same transaction |
| `Maintenance.dfy`, `JournalClients.dfy` | the one maintenance journal and every coordinator's place in it |
| `NetworkTransaction.dfy`, `NetworkRestore.dfy` | the timed network change, and its coupling to the maintenance journal |
| `Retention.dfy`, `Snapshots.dfy`, `PendingBackup.dfy` | checkpoints, pins, pruning, and exact uploads |
| `HostJobs.dfy` | job records, inherited locks, admission |
| `BootstrapSelector.dfy` | which recovery generation boots |
| `LinkGraph.dfy`, `Archive.dfy` | symbolic links in archives, and the create/stage round trip |
| `Netplan.dfy`, `NetplanSources.dfy` | editing one interface and rewriting its source files |
| `Displays.dfy` | which screen shows which view |

## Where the code does not keep a promise

Each of these is shown by a concrete run or input, next to a theorem that says exactly when the
promise does hold.

- **Rollback and running writers.** `rollback` moves a target aside only if the target exists when it looks, and
  only into a staging location that `prepare` may not have made yet. Updates are protected by boot ordering; a
  manual restore is not: no unit orders `elderbrain-stack.service` after its recovery. Three runs, each from the
  beginning: a service recreates a directory between moving it aside and putting the original back, and
  every later attempt fails (`RestoreTransaction.WritersInsideRollbackBreakIt`); power fails while a target that
  should be absent is staged, a booted service creates it, and the finished recovery leaves it there
  (`RestoreCoordinator.BootBeforeRecoveryBreaksRollback`); power fails before its staging location is made, and no
  recovery ever ends (`RestoreCoordinator.BootBeforeStagingBlocksRecovery`, `StuckStays`). Over all runs, with boots
  and service writes at any moment: a rolled-back restore equals its archive if and only if no target is left hurt
  by its last write in flight (`RestoreCoordinator.RollbackMatchesArchive`). Such a write hurts when the name it
  would be moved aside to does not take it, when it is made where the original already is, or when it creates
  a target nothing marks as installed or that has no staging location. A file replaces an earlier rejected file, so
  only directories collide: `RestoreCoordinator.HarmfulByKind` and `StuckByKind` say both for each kind of target.
- **Network changes check, then replace.** Another editor can change a Netplan file in between, and its
  bytes are lost: `NetworkTransaction.RestoreLosesEdit`. For rollback, application, confirmation and staging
  alike, a file is not what was checked if and only if the last edit since that file's check spoiled it:
  `NetworkTransaction.RestoreRace`, `ApplyRace`, `ConfirmRace` and `StageRace`.
- **A completed update can be reopened.** When releasing the checkpoint raises, or the completed save itself after
  its rename, `activate` rewrites the completed record to "recovery-required": `UpdateActivation.CompletedIsReopened`.
  Exactly then, and only by that process: `UpdateActivation.ReopenedExact`. It is still never rolled back:
  `UpdateActivation.CommittedForever`.
- **A stale cleanup callback raises.** `finalize` hands over a record read under a lock it has released. If
  another process closes and acknowledges the operation and a new change is staged meanwhile, the callback
  raises: `NetworkRestore.StaleCallbackRaises`. Exactly then, with nothing left to clean up:
  `NetworkRestore.FinalizeExact`.
- **Checkpoint metadata and pins are not written atomically.** A writer that dies inside the write leaves a
  torn file that nothing repairs: `Snapshots.TornReachable`, `Snapshots.TornBlocksRetention`. From any reachable
  state an unpinned checkpoint can still be pruned if and only if no file is torn:
  `Snapshots.RetentionProceedsExact`. A crash between pin and record leaves
  a pin without a checkpoint (`Snapshots.OrphanReachable`) that makes every listing of its purpose raise until
  that owner unpins: `Snapshots.OrphanPinBlocks`, and exactly when listing works, `Snapshots.PinnedRecordsExact`.
- **A pending backup's first record is written outside its lock.** If another process finishes the same
  generation first, the late write turns "completed" back into "checkpoint-ready" with its pin gone, and every
  retry raises from then on: `PendingBackup.OverlapStrands`, `PendingBackup.StrandedForever`. Over everything that
  can follow it, a late write is harmless if and only if, just before it, the record is absent, or the pin is
  held and no retry that may still release it has saved "uploaded": `PendingBackup.LateWriteExact`.
- **A late "unable to start" report.** If starting the waiting thread raises after the worker process started,
  the submitter marks a live job failed and the next submission runs beside it:
  `HostJobs.LateFailureRunsTwo`. Over whole runs, live workers keep active records and completed ones are kept
  if and only if every report found the worker gone and its record not completed: `HostJobs.LateFailureExact`.
- **"The installed release was not changed."** A dead update worker's record gets this message when the
  maintenance record does not name its job. The whole activation runs under one early stage name, so the
  message can be wrong: `HostJobs.ReplacedJournalHidesUpdate` is a run in which it is said of an update that
  committed. Over all runs, an update that wrote the maintenance record gets it if and only if another operation
  replaced that record between then and the reading: `HostJobs.FalseFailureExact`.
- **Boot recovery reselects an old generation.** The installer publishes a generation without touching the
  maintenance journal; the next boot's "finish" phase finds the older completed update there and selects its
  candidate again: `BootstrapSelector.FinishUndoesInstaller`. From every reachable state, a finish moves the
  selector if and only if the journal holds a completed update whose candidate is not the selected generation:
  `BootstrapSelector.FinishExact`.
- **A browser directory named like a Chromium marker** is skipped while its entries are not, so the archive
  is refused: `Archive.SkippedDirectoryBlocks`; exactly when a backup succeeds, `Archive.Create`.

## Model

| member | source | states |
|---|---|---|
| RestorePaths.SlotsApart | appliance/lib/restore_transaction.py:50-63 | the constructor's overlap and journal checks, with a fresh identity, make all 4N slot paths pairwise unrelated, so a rename for one key frames every other slot |
| RestorePaths.LocationsApart | appliance/lib/restore_transaction.py:76-78 | no staging location lies in another key's staging location |
| RestorePaths.TargetNotAboveLocation | appliance/lib/restore_transaction.py:59-61 | no target contains any key's staging location |
| RestoreTransaction.StepKeepsKey | appliance/lib/restore_transaction.py:80-143 | every primitive step, including writers touching installed targets, keeps the per-key invariant that rollback relies on |
| RestoreTransaction.RunInv | appliance/lib/restore_transaction.py:80-153 | the invariant holds at every crash point of every run whose writers leave trees in flight alone |
| RestoreTransaction.OriginKept | appliance/lib/restore_transaction.py:85-88 | what the targets held when the transaction began stays recorded through any later run |
| RestoreTransaction.RolledBackRestoresTargets | appliance/lib/restore_transaction.py:118-143 | one completed rollback leaves every target exactly as before prepare, absent ones absent, after any crashes, interrupted rollbacks and writer changes to installed targets |
| RestoreTransaction.UndoneMeansOrigin | appliance/lib/restore_transaction.py:126-142 | when every key is undone, the targets are the originals |
| RestoreTransaction.InstallFillsTargets | appliance/lib/restore_transaction.py:105-115 | when no incoming tree is left, every target holds its prepared tree |
| RestoreTransaction.QuietStep | appliance/lib/restore_transaction.py:80-153 | without writers each state's promise holds: preparing, ready and rolled-back have the old targets, installed and committed the new ones |
| RestoreTransaction.ConservationStep | appliance/lib/restore_transaction.py:99-143 | with writers stopped a step keeps every key in one of five layouts |
| RestoreTransaction.Conservation | appliance/lib/restore_transaction.py:99-143 | over any run with writers stopped each original tree is in exactly one of target and previous, each new tree in exactly one of incoming, target and rejected |
| RestoreTransaction.LayoutTrees | appliance/lib/restore_transaction.py:107-111 | in every layout the four slots together hold exactly the original and the new tree, each once |
| RestoreTransaction.UndoKeepsRecoverable | appliance/lib/restore_transaction.py:126-140 | whatever services wrote to trees in flight: putting an original back makes good on its key, a new rollback looks at every key again, and no other step of a rollback makes a key recoverable or stops it from being so |
| RestoreTransaction.WritersInsideRollbackBreakIt | appliance/lib/restore_transaction.py:129-136 | a run in which a service recreates a directory during rollback, which no rollback can then move aside |
| RestoreTransaction.StuckStays | appliance/lib/restore_transaction.py:126-143 | a key whose rename the file system refuses stays as it is, and the rollback never ends, however often it is tried, until somebody changes that target |
| RestoreTransaction.Transaction.Prepare | appliance/lib/restore_transaction.py:80-97 | refuses an existing journal or other keys, otherwise makes each staging location, stages every source and leaves the targets alone |
| RestoreTransaction.Transaction.Apply | appliance/lib/restore_transaction.py:99-116 | from ready only, installs every prepared tree |
| RestoreTransaction.Transaction.Rollback | appliance/lib/restore_transaction.py:118-143 | refuses a committed journal, repeats as nothing once rolled back; otherwise, from any crash point and after any writes to trees in flight, puts back exactly the recoverable keys (all of them without such writes), files and directories alike, stopped only by an exception or by a stuck key: no staging location to move its target into, or a name that does not take it |
| RestoreTransaction.Transaction.UndoKey | appliance/lib/restore_transaction.py:126-140 | one key's rollback, equal to its specification; it is refused exactly for a stuck key, which needs a write to a tree in flight |
| RestoreTransaction.Transaction.CommitInstalled | appliance/lib/restore_transaction.py:145-153 | commits from installed only |
| UpdateActivation.RunInv | appliance/lib/release_activation.py:56-170 | code, data, record and switch invariants of one update at every crash point, the failure handler saving what a failed save was to record included |
| UpdateActivation.TerminalOutcome | appliance/lib/release_activation.py:102-106 | completed means code committed, every target new, release accepted; rolled-back means every target old, policy unchanged |
| UpdateActivation.ReopenedExact | appliance/lib/release_activation.py:104-112 | at the end of any run a completed record can become another one if and only if, in the process still running, the completed save raised after its rename, or releasing the checkpoint raised after it; and then only "recovery-required" |
| UpdateActivation.CompletedIsReopened | appliance/lib/release_activation.py:104-112 | a run from admission to a completed record that its own handler reopens after releasing the checkpoint raised |
| UpdateActivation.CommittedForever | appliance/lib/release_activation.py:139-148 | a committed update is never rolled back, whatever recovery runs later |
| UpdateActivation.AcceptedNeverGoesBack | appliance/lib/release_policy.py:78-89 | the accepted sequence is monotone and moves only to a committed release |
| UpdateActivation.FlagPrecedesNewWriters | appliance/lib/release_activation.py:97-101 | services run on new code only after dataMayHaveChanged is durable |
| UpdateActivation.UserDataOverwrittenOnlyByRestore | appliance/lib/release_activation.py:144-147 | user data changes only by services' own writes or by one restore with writers stopped, old code back, the flag set and the checkpoint pinned |
| UpdateActivation.RestoresMonotone | appliance/lib/release_checkpoints.py:69-85 | at most one checkpoint restore ever commits |
| UpdateActivation.RestoredAtMostOnce | appliance/lib/release_checkpoints.py:71-73 | after it, nothing the resumed services write is overwritten |
| UpdateActivation.CheckpointKept | appliance/lib/release_checkpoints.py:36-39 | the checkpoint of an update never changes |
| UpdateActivation.SwitchPoint | appliance/lib/release_activation.py:81-100 | when the flag that lets new code run is saved, the checkpoint equals the present user data, though nothing compares them: services stay stopped from the checkpoint until then |
| UpdateActivation.RestoreGivesPreSwitchData | appliance/lib/release_checkpoints.py:74-85 | however many attempts were interrupted, the committed restore is exactly the data at the switch |
| UpdateCoordinator.LiftCode | appliance/lib/release_activation.py:92-94 | every stretch of the code transaction's run is a stretch of the update's run |
| UpdateCoordinator.LiftData | appliance/lib/release_checkpoints.py:82-85 | the same for the nested user-data transaction, counting its commits |
| UpdateCoordinator.Activation.Activate | appliance/lib/release_activation.py:56-112 | an update either completes with everything new and the release accepted, or some operation failed and recovery was attempted |
| UpdateCoordinator.Activation.StopAndCheckpoint | appliance/lib/release_activation.py:82-90 | writers stopped and a pinned checkpoint of the present user data before anything is prepared |
| UpdateCoordinator.Activation.RestoreFiles | appliance/lib/release_activation.py:139-148 | keeps a committed transaction, otherwise old code back and then, if new code may have run, the checkpoint |
| UpdateCoordinator.Activation.RestoreCheckpoint | appliance/lib/release_checkpoints.py:49-85 | ends with user data equal to the checkpoint, retried attempts undone first |
| UpdateCoordinator.Activation.AcceptRelease | appliance/lib/release_policy.py:78-89 | repeating acceptance of the same release succeeds, anything older is refused |
| UpdateCoordinator.Activation.RecoverLocked | appliance/lib/release_activation.py:150-170 | ends completed exactly when the code transaction had committed, rolled-back otherwise; fails only if something raised or the checkpoint is incomplete |
| UpdateCoordinator.Activation.RecoverFiles | appliance/lib/release_activation.py:118-137 | early boot: files consistent, nothing started, the record left for the later phase |
| UpdateCoordinator.Activation.Recover | appliance/lib/release_activation.py:114-116 | a recovery whose adapters all succeed ends terminal |
| RestoreCoordinator.TargetsChangeOnlyWhileStopped | appliance/lib/restore_service.py:53-65 | no target is renamed unless the same process stopped every writer and has started none since, and only behind a rollback archive of exactly the original contents |
| RestoreCoordinator.RollbackMatchesArchive | appliance/lib/restore_service.py:94-99 | over every run, with crashes, boots and service writes at any moment: a rolled-back restore holds, target by target, what the rollback archive recorded if and only if the target is not left hurt by its last write in flight |
| RestoreCoordinator.UnwrittenIsUnhurt | appliance/lib/restore_service.py:94-99 | in particular when no service wrote since the transaction began |
| RestoreCoordinator.HarmfulByKind | appliance/lib/restore_service.py:113-140 | in every run that keeps a target a file or a directory: a write in flight is harmful exactly where the original already is back, where nothing marks a new target as installed, where there is no staging location, and, for directories only, over an earlier rejected one |
| RestoreCoordinator.StuckByKind | appliance/lib/restore_service.py:113-140 | in such a run rollback cannot get past a target exactly when a directory meets an earlier rejected one or a target that was absent has no staging location |
| RestoreCoordinator.StuckStays | appliance/lib/restore_service.py:81-105 | from a stuck key on the restore never ends, however often recovery is started, until a service changes that target |
| RestoreCoordinator.TerminalOutcome | appliance/lib/restore_service.py:103-105 | completed means committed, rolled-back means undone |
| RestoreCoordinator.BootBeforeRecoveryBreaksRollback | appliance/lib/restore_service.py:81-104 | a run: power fails while an absent target is staged, a booted service creates it, the recovery that follows finishes and leaves it |
| RestoreCoordinator.BootBeforeStagingBlocksRecovery | appliance/lib/restore_service.py:81-104 | a run: power fails before an absent target's staging location is made, a booted service creates the target, and the recovery is stuck |
| RestoreCoordinator.Coordinator.Restore | appliance/lib/restore_service.py:42-79 | completes, or something failed and recovery was attempted |
| RestoreCoordinator.Coordinator.RecoverLocked | appliance/lib/restore_service.py:85-105 | completed exactly when the transaction had committed, rolled-back otherwise; fails only if something raised, or if a service wrote to a tree in flight and a key is stuck, a missing staging location included |
| RestoreCoordinator.Coordinator.UndoTargets | appliance/lib/restore_service.py:94-99 | each target, file or directory, ends as the archive has it if and only if its slots were recoverable when the rollback began |
| RestoreCoordinator.Coordinator.Recover | appliance/lib/restore_service.py:81-105 | from any state a crash left, whatever services booted and wrote since: ends terminal, forward exactly when committed, unless something raised or a key is stuck |
| BaselineMigration.TerminalOutcome | appliance/lib/release_baseline_install.py:107-120 | completed has every new file, rolled-back every original one, and neither is reopened |
| BaselineMigration.Migration.Install | appliance/lib/release_baseline_install.py:80-105 | completes with the given sources, or something failed |
| BaselineMigration.Migration.RecoverLocked | appliance/lib/release_baseline_install.py:107-120 | forward exactly when the transaction committed, back otherwise |
| BaselineMigration.Migration.Recover | appliance/lib/release_baseline_install.py:122-129 | an unfinished migration is only recovered early and with writers quiescent |
| Maintenance.UnfinishedNeverReplaced | appliance/lib/backup_service.py:71-78 | an unfinished record is only overwritten by its own operation, until it is terminal |
| Maintenance.ExactlyOneRecovery | appliance/lib/backup_service.py:57-65 | every unfinished record is taken over by exactly one recovery entry point |
| Maintenance.OperationsAreSerial | appliance/lib/backup_service.py:71-78 | when the journal names another operation than before, one was admitted in between over a terminal record that nobody held, and the earlier identity never comes back |
| Maintenance.MaintenanceJournal.Window | appliance/lib/backup_service.py:71-98 | refuses unfinished maintenance, resumes services whatever the body did, and otherwise leaves a record that recovery takes |
| Maintenance.MaintenanceJournal.Recover | appliance/lib/backup_service.py:57-69 | takes only its own kinds of record, resumes services, then says so |
| JournalClients.RunInv | appliance/lib/release_activation.py:60-62 | any number of updates, restores and baseline migrations interleaved step by step with each other and with everything else on the journal: a running one holds the lock and the journal shows its record, an unfinished one is what the journal shows |
| JournalClients.OneAtATime | appliance/lib/restore_service.py:43-46 | at no point are two of them running, or two unfinished, or one running beside an unfinished other one |
| JournalClients.FilesMoveForOneOperation | appliance/lib/release_baseline_install.py:81-94 | no file is moved for one operation unless its process holds the lock, the journal shows its record and every other operation is at rest |
| JournalClients.JointRefines | appliance/lib/backup_service.py:42-78 | such an interleaving is, state by state, one run of the shared journal in which every save is the lock holder's |
| JournalClients.NetworkRefines | appliance/lib/network_checkpoint_restore.py:104-166 | a network restore with its worker and its recovery is a run of the same shared journal |
| NetworkTransaction.StepKeepsAllOrNothing | appliance/lib/network_transaction.py:168-292 | every step but an outside edit keeps each file before or after, as its phase says |
| NetworkTransaction.NetworkAllOrNothing | appliance/lib/network_transaction.py:117-292 | without outside edits from the first look on, confirmed means all new, rolled-back all old, in between each file is one of the two |
| NetworkTransaction.RolledBackFilesAreOriginal | appliance/lib/network_transaction.py:168-187 | rolled-back restores bytes, mode and absence from before staging |
| NetworkTransaction.LookedThenUsed | appliance/lib/network_transaction.py:177-182 | a file that was as expected when a process looked still is when it is used, if and only if the last edit in between did not spoil it |
| NetworkTransaction.ConfirmRace | appliance/lib/network_transaction.py:272-278 | a file lacks its candidate at the confirming save if and only if the last edit since its check took it away |
| NetworkTransaction.ApplyRace | appliance/lib/network_transaction.py:239-248 | installing a candidate loses something else than the staged original if and only if the last edit between check and replacement put it there |
| NetworkTransaction.StageRace | appliance/lib/network_transaction.py:148-165 | the staged original is what the file holds unless the last edit since stage() read it changed it |
| NetworkTransaction.RestoreRace | appliance/lib/network_transaction.py:177-182 | putting a file back loses bytes that are neither before nor after if and only if the last edit between that file's check and its replacement put them there |
| NetworkTransaction.RestoreLosesEdit | appliance/lib/network_transaction.py:177-182 | a run in which that happens |
| NetworkTransaction.Transaction.StageChanges | appliance/lib/network_transaction.py:117-166 | stages exactly the requested changes over the originals it read, over an ended, cleaned transaction, touching no file |
| NetworkTransaction.Transaction.Restore | appliance/lib/network_transaction.py:168-187 | with others editing between any two steps: ends rolled-back or keeps the record for a retry; if nobody edits, touches no file from staged or on a conflict, otherwise puts all back and leaves other files alone |
| NetworkTransaction.Transaction.Tick | appliance/lib/network_transaction.py:226-255 | advances staged to pending, restores interrupted or expired changes, never confirms; if nobody edits, only over unchanged files |
| NetworkTransaction.Transaction.Confirm | appliance/lib/network_transaction.py:262-279 | confirms only the matching, unexpired, reachable pending change, intact if nobody edits meanwhile |
| NetworkTransaction.Transaction.Cancel | appliance/lib/network_transaction.py:286-292 | rolls the named pending change back |
| NetworkTransaction.Transaction.RecoverBoot | appliance/lib/network_transaction.py:209-219 | before networking starts, ends every pending change or fails |
| NetworkRestore.RunInv | appliance/lib/network_checkpoint_restore.py:87-196 | the two journals' joint invariant under any interleaving of coordinator and worker |
| NetworkRestore.JournalsAgree | appliance/lib/network_checkpoint_restore.py:160-165 | an owner's record is completed only if its network transaction was confirmed, rolled-back only if that rolled back or was never staged |
| NetworkRestore.ClosedStaysUnstaged | appliance/lib/network_checkpoint_restore.py:161-165 | an operation closed without a network transaction never stages one later |
| NetworkRestore.PinnedWhilePending | appliance/lib/network_checkpoint_restore.py:125-141 | pins stay held while the owned network transaction is pending |
| NetworkRestore.FinalizeExact | appliance/lib/network_checkpoint_restore.py:172-196 | a callback with a record read at any earlier point raises if and only if the maintenance journal still names its owner while a later network transaction is staged, and then that owner is closed; otherwise it releases exactly when nobody has |
| NetworkRestore.FreshNeverRaises | appliance/lib/network_transaction.py:189-196 | in particular a record read just now is always accepted |
| NetworkRestore.SameIdentitySameOwner | appliance/lib/network_transaction.py:198-202 | a record with the identity of an earlier one has its owner, so comparing identity and phase is enough |
| NetworkRestore.StaleCallbackRaises | appliance/lib/network_checkpoint_restore.py:190-193 | a run in which a stale callback raises |
| NetworkRestore.HistoryFixed | appliance/lib/network_checkpoint_restore.py:87-98 | what an owner staged, how that ended and how its record closed never changes |
| NetworkRestore.HandoffNeverMismatched | appliance/lib/network_checkpoint_restore.py:154-157 | an owned network transaction always belongs to a record that reached the handoff |
| NetworkRestore.LiftWorker | appliance/lib/network_transaction.py:221-255 | the worker's own run, at any time, is a stretch of the coupled run |
| NetworkRestore.NetworkCheckpointRestore.Start | appliance/lib/network_checkpoint_restore.py:104-146 | hands over with pins held, or ends released or unfinished; never half released |
| NetworkRestore.NetworkCheckpointRestore.RecoverLocked | appliance/lib/network_checkpoint_restore.py:148-166 | refuses while the owned transaction is pending, otherwise releases pins, receipt and record in that order |
| NetworkRestore.NetworkCheckpointRestore.Release | appliance/lib/network_checkpoint_restore.py:87-98 | the terminal record comes only after unpin and receipt |
| NetworkRestore.NetworkCheckpointRestore.FinalizeEnded | appliance/lib/network_transaction.py:189-202 | with a record read at any earlier point: acknowledges a record of the same identity and phase, only after its owner's own record is closed, and changes nothing when the callback raises |
| Retention.RetentionExact | appliance/lib/local_snapshots.py:47-54 | a checkpoint is a candidate if and only if it is unprotected and at least keep listed ones are newer |
| Retention.CandidatesOldestFirst | appliance/lib/local_snapshots.py:54-54 | candidates come oldest first, each once |
| Retention.ProtectedNeverCandidate | appliance/lib/local_snapshots.py:347-348 | a checkpoint just created is never a candidate, whatever its timestamp |
| Retention.SortedIsNewestFirst | appliance/lib/local_snapshots.py:52-52 | sorting by time and identifier gives a strict newest-first order |
| Snapshots.RunInv | appliance/lib/local_snapshots.py:187-349 | the store invariant at every crash point, power loss included |
| Snapshots.StoreIsSound | appliance/lib/local_snapshots.py:318-341 | a listed checkpoint has a durable read-only subvolume, an owned one is pinned before it is listed, and no pinned one has a deletion intent |
| Snapshots.PinnedCheckpointSurvives | appliance/lib/local_snapshots.py:243-299 | a pinned checkpoint keeps its metadata and data through every operation |
| Snapshots.DeletedBehindIntent | appliance/lib/local_snapshots.py:293-297 | data of a listed checkpoint is lost only behind a durable intent written while it was unpinned |
| Snapshots.PinnedRecordsExact | appliance/lib/local_snapshots.py:170-185 | listing a purpose's pins works if and only if no file is torn and every such pin has its record |
| Snapshots.OrphanPinBlocks | appliance/lib/local_snapshots.py:333-341 | a pin whose creator died blocks its purpose until that owner unpins |
| Snapshots.OrphanReachable | appliance/lib/local_snapshots.py:333-337 | a crash between pin and record reaches that state |
| Snapshots.TornBlocksRetention | appliance/lib/local_snapshots.py:76-92 | a torn metadata or pin file stays and no deletion is begun after it |
| Snapshots.RetentionProceedsExact | appliance/lib/local_snapshots.py:288-299 | from every reachable state, whatever a crash left half done, an unpinned listed checkpoint can still be deleted if and only if no metadata or pin file is torn |
| Snapshots.TornReachable | appliance/lib/local_snapshots.py:333-341 | two runs in which a creator that dies leaves a torn pin, or a torn metadata file |
| Snapshots.Snapshots.PinnedRecordsOf | appliance/lib/local_snapshots.py:170-185 | the listing loop computes exactly the specified set or raises |
| Snapshots.Snapshots.WritePinFile | appliance/lib/local_snapshots.py:187-202 | idempotent for the same purpose, refuses another one, never changes other pins |
| Snapshots.Snapshots.PinCheckpoint | appliance/lib/local_snapshots.py:204-211 | pins only a complete, listed checkpoint |
| Snapshots.Snapshots.UnpinOne | appliance/lib/local_snapshots.py:213-225 | removes exactly the matching pin |
| Snapshots.Snapshots.UnpinOwner | appliance/lib/local_snapshots.py:227-241 | removes exactly the owner's pins of that purpose |
| Snapshots.Snapshots.FinishDeletions | appliance/lib/local_snapshots.py:243-273 | completes every intent and nothing else; the pin conflict is unreachable |
| Snapshots.Snapshots.PruneLocked | appliance/lib/local_snapshots.py:288-299 | a finished prune leaves exactly the newest keep, protected and pinned; a stopped one removed a prefix of the candidates |
| Snapshots.Snapshots.Create | appliance/lib/local_snapshots.py:301-349 | a published checkpoint is complete, pinned for its owner and survives its own automatic pruning |
| PendingBackup.RunInv | appliance/lib/backup_pending.py:124-207 | the invariant of records, pins, archives and transfers in every interleaving |
| PendingBackup.CompletedMeansTransferred | appliance/lib/backup_pending.py:191-204 | uploaded and completed mean that exactly this checkpoint's data was transferred |
| PendingBackup.PendingBackupIsSafe | appliance/lib/backup_pending.py:156-207 | in every run whose late first writes are harmless: the pin is held until upload, unpinning and completed follow a durable uploaded, the archive goes after a durable completed, completed is final |
| PendingBackup.LateWriteExact | appliance/lib/backup_pending.py:135-153 | whatever follows it, a late first write never leads to a stranded record if and only if just before it the record is absent, or its pin is held and no retry that may release it has saved uploaded |
| PendingBackup.StrandedForever | appliance/lib/backup_pending.py:171-174 | an overwritten, unpinned record makes every retry raise forever |
| PendingBackup.OverlapStrands | appliance/lib/backup_pending.py:150-153 | a run in which recovery and a retry finish between a capture's checkpoint and its first write |
| PendingBackup.LiftCreate | appliance/lib/backup_pending.py:150-150 | the store's run during a capture is a stretch of the backup's run |
| PendingBackup.PendingBackup.RecoverPins | appliance/lib/backup_pending.py:124-140 | afterwards every pending-backup pin has its record, and none was overwritten |
| PendingBackup.PendingBackup.Retry | appliance/lib/backup_pending.py:156-207 | completes only after the transfer, with the pin released and the archive gone; a completed record is left alone |
| PendingBackup.PendingBackup.CaptureOwner | appliance/lib/backup_pending.py:142-154 | captures at most once per owner, refuses a completed one |
| HostJobs.WritesNeedTheLock | appliance/lib/host_jobs.py:389-427 | every record write is made by a holder of that job's lock, or with the lock free |
| HostJobs.FreeStaysFree | appliance/lib/host_jobs.py:404-421 | a lock once free stays free, so a reader never races a worker |
| HostJobs.AtMostOneLive | appliance/lib/host_jobs.py:379-396 | at most one worker is live and its record is active, when every failure report found its worker gone and the record not completed |
| HostJobs.OutcomeIsFinal | appliance/lib/host_jobs.py:301-312 | completed and rolled-back are final, under the same condition |
| HostJobs.LateFailureExact | appliance/lib/host_jobs.py:423-427 | in any run, live workers keep active records and completed records stay if and only if every failure report found its worker gone and the record not completed |
| HostJobs.UnspawnedIsReportable | appliance/lib/host_jobs.py:415-427 | a report made because the worker process could not be started meets that condition |
| HostJobs.LateFailureRunsTwo | appliance/lib/host_jobs.py:415-427 | a run with two live workers after a late failure report |
| HostJobs.FalseFailureExact | appliance/lib/host_jobs.py:250-262 | in any run, a dead update worker's record that reached the transaction, even one that changed the release, is called unchanged if and only if another operation replaced the maintenance record between its last entry and the reading; interrupted otherwise |
| HostJobs.ChangedHadEntered | appliance/lib/host_jobs.py:208-215 | only an update that wrote the maintenance record can have changed the installed release |
| HostJobs.NamedExact | appliance/lib/host_jobs.py:208-215 | the maintenance record names the update's job if and only if no other operation replaced it since |
| HostJobs.ReplacedJournalHidesUpdate | appliance/lib/host_jobs.py:250-260 | a run in which an update that committed the new release is reported as having changed nothing |
| HostJobs.JobStore.Read | appliance/lib/host_jobs.py:228-272 | settles an active record only when nobody holds its lock |
| HostJobs.JobStore.Submit | appliance/lib/host_jobs.py:379-434 | admits only when every record is settled and inactive; a failed start is reported, and only a report of a job at work or completed breaks the store's invariant |
| HostJobs.JobStore.RunWorker | appliance/lib/host_jobs.py:437-445 | among any steps of others, the worker's own final state is what remains |
| HostJobs.JobStore.ReconcileUpdate | appliance/lib/host_jobs.py:279-317 | settles exactly a matching, unlocked, undecided update |
| BootstrapSelector.SelectorIsBootable | appliance/lib/release_bootstrap.py:429-452 | the selector, once present, names an installed generation with its bundle, and all anchors exist |
| BootstrapSelector.SelectedOnlyIfEarned | appliance/lib/update_job.py:62-76 | the candidate of an update that did not complete is never selected on its account |
| BootstrapSelector.SelectorMoves | appliance/lib/release_bootstrap.py:382-390 | the selector moves only under the lock, with no maintenance unfinished |
| BootstrapSelector.StandsStillDuringUpdate | appliance/lib/update_job.py:66-76 | an unfinished operation leaves the selector alone |
| BootstrapSelector.FinishExact | appliance/lib/release_recovery.py:98-103 | from every reachable state with no update unfinished and nobody publishing, an uninterrupted finish ends with another selector if and only if the journal holds a completed update whose candidate is not the selected generation |
| BootstrapSelector.FinishUndoesInstaller | appliance/lib/release_recovery.py:98-103 | a run: a boot after a later installer run selects the older candidate again |
| BootstrapSelector.Bootstrap.InstallGeneration | appliance/lib/release_bootstrap.py:190-220 | a generation is complete or absent |
| BootstrapSelector.Bootstrap.PublishGeneration | appliance/lib/release_bootstrap.py:256-284 | one atomic switch, stale temporary links removed first |
| BootstrapSelector.Bootstrap.CommitCandidate | appliance/lib/release_bootstrap.py:374-395 | refuses during unfinished maintenance, otherwise selects the candidate |
| BootstrapSelector.Bootstrap.Install | appliance/lib/release_bootstrap.py:407-456 | anchors before selector |
| BootstrapSelector.Bootstrap.RunUpdate | appliance/lib/update_job.py:62-76 | selects the candidate only after the update completed |
| BootstrapSelector.Bootstrap.Finish | appliance/lib/release_recovery.py:85-103 | when nothing raises, the selector ends at the candidate of the completed update the journal then holds, or where it was |
| LinkGraph.WalkComposes | appliance/lib/backup_archive.py:98-116 | the loop over pending parts computes the compositional resolution of links |
| LinkGraph.ValidateLinkGraph | appliance/lib/backup_archive.py:90-116 | accepts if and only if every link resolves below its root within forty expansions or ends exactly at an allowed system link |
| LinkGraph.CheckLink | appliance/lib/backup_archive.py:95-116 | one link's loop, with its measure, equals the recursive resolution |
| LinkGraph.SafeLink | appliance/lib/backup_archive.py:75-87 | the lexical check is exactly resolution in a tree without links |
| LinkGraph.LinkConfined | appliance/lib/backup_archive.py:90-116 | POSIX resolution of any accepted link stays below its root, ends exactly at a system link, or fails |
| LinkGraph.NamesConfined | appliance/lib/backup_archive.py:267-271 | a pathname of plain names through an accepted archive never leaves its root |
| Archive.Validate | appliance/lib/backup_archive.py:194-272 | accepts if and only if members are distinct, match the manifest and form an acceptable tree |
| Archive.Stage | appliance/lib/backup_archive.py:285-344 | stages exactly a valid archive's tree; no creation fails or passes through a link |
| Archive.ParentsExist | appliance/lib/backup_archive.py:307-309 | every parent is a real directory by the time an entry is created |
| Archive.Create | appliance/lib/backup_archive.py:119-191 | succeeds if and only if every kept entry is acceptable and no file changed meanwhile, and then holds exactly the kept tree |
| Archive.BackUpAndStage | appliance/lib/backup_archive.py:119-344 | the round trip: what is staged is the source tree without the browser markers |
| Archive.SkippedDirectoryBlocks | appliance/lib/backup_archive.py:147-148 | a skipped browser directory with an entry makes the backup refuse |
| Netplan.Resolve | appliance/lib/network_config.py:50-64 | the one definition an interface maps to, or none |
| Netplan.Edit | appliance/lib/network_config.py:98-153 | succeeds if and only if one definition describes the interface and its routes are unambiguous; then that definition's IPv4 part is exactly what was asked, the rest of it and of the document stays |
| Netplan.EditTarget | appliance/lib/network_config.py:115-152 | IPv4 addresses, default route, name servers and DHCP overrides become what was asked; IPv6, other routes, IPv6 name servers and everything else stay in order |
| Netplan.EditIdempotent | appliance/lib/network_config.py:111-153 | editing again changes nothing |
| Netplan.EditTouchesOne | appliance/lib/network_config.py:113-115 | every other definition and the global settings stay |
| NetplanSources.EffectiveSources | appliance/lib/network_sources.py:10-19 | one file per name from its highest layer, in name order |
| NetplanSources.Rewrite | appliance/lib/network_sources.py:22-56 | changes only persistent origins; under any merge operation the files read back in the same order give every definition as before except the selected one, which is its complete new form; fails exactly when it must |
| NetplanSources.RewriteKeepsMeaning | appliance/lib/network_sources.py:22-29 | under any merge operation the merged document changes only in the selected definition, which becomes its new form |
| NetplanSources.OrderIsUnique | appliance/lib/network_sources.py:19-19 | the effective order is determined by the files |
| Displays.RenumberingKeepsFamilyAndOrder | provisioning/graphics/browser-session.py:158-169 | a renumbering maps each saved output to a connected one of its family, in order |
| Displays.AssignedOutputs | provisioning/graphics/browser-session.py:172-207 | injective, only connected outputs, administration placed whenever there is room or one screen, no view left out while a free output suits it, an intact layout kept |
| Displays.PlaceAdmin | provisioning/graphics/browser-session.py:184-194 | the administration view loses only when every output is taken |
| Displays.FillFree | provisioning/graphics/browser-session.py:196-206 | extends the assignment until nothing free suits a left-out view |
| Displays.Identities | provisioning/graphics/browser-session.py:214-216 | only an identity one screen alone has says where a view belongs |
| Displays.Plan | provisioning/graphics/browser-session.py:210-248 | one or two views or an error; each view at most once, in order, on distinct active screens, administration shown whenever a screen is there |

## Left out

- Bytes on disk: fsync order below "one rename is durable before the next", tar, zstd and gpg encodings, YAML
  parsing, and the commands docker, systemctl, btrfs, borg, netplan and openssl, which are adapters that
  succeed or raise.
- Digests, signatures and capability tokens are opaque values with equality; manifest and signature field
  checks are flat validation and not part of this model.
- Clocks: deadlines and boot identity are arbitrary answers. No liveness beyond "a recovery whose adapters all
  succeed ends terminal" is claimed.
- RestoreTransaction.Transaction.Rollback: services write, replace and remove whole files and directories; a target
  turned into a symbolic link or a mount point, or whose parent is removed, which the constructor or a rename
  refuses, is not described.
- RestoreCoordinator.RollbackMatchesArchive: the service manager may start the services at any moment except while
  the process that began the restore is still at work.
- PendingBackup.PendingBackup.CaptureOwner: one capture per owner is assumed, as its callers' fresh job identities
  give; two captures with one owner share a record file and an archive name, which this model does not describe.
- PendingBackup.PendingBackup.Retry: the class runs its steps without interruption; interleavings with other
  processes are covered by the lemmas about runs.
- JournalClients.OneAtATime: operation identities are random and taken to be fresh, and each operation is begun once.
- NetworkRestore.NetworkCheckpointRestore.Start: network transaction identities are random or a job's own and taken
  to be fresh.
- UpdateCoordinator.Activation.Activate: one update at a time; signature verification, source preparation and remote
  backup before the switch are adapters.
- NetplanSources.Rewrite: file names are numbered in their sort order, and documents are parsed values; writing and
  reading YAML back is taken to return the same document, and warnings are not modelled.
- Netplan.Edit: takes the validated request; the IPv4 arithmetic of `request` and the rejection of malformed
  addresses are left out.
- Archive.Create: sources are visited in any order, where the code sorts them; only the resulting tree is compared.
  Limits on sizes, counts and time are left out, here and in the next lines: they only add refusals.
- Archive.Validate: the same limits on sizes, counts and time.
- Archive.Stage: the same limits on sizes and time.
- Archive.BackUpAndStage: the same limits on sizes, counts and time, of both halves of the round trip.
- Displays.Plan: URLs, modes, resolutions and tabs of a view are left out.
- `network_config.plan` warnings, `confirmation_settings`, and `display_preview.py`, a smaller copy of the network
  transaction.
- Release download and assembly, baseline image inspection, Compose rendering, keypad flashing, TLS issuance, ISO
  storage planning, metrics, and everything under `setup/`.
