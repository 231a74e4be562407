# mini-router: a verified model

mini-router is a Go control program for a home router. This project models the parts of it whose value
lies in getting an interleaving, a reconciliation or a compilation exactly right, and proves what they
promise. `dafny verify dfyconfig.toml` checks the whole project.

**The change transaction** (`mr/apply.go`)

- `FlashStore`: the flash as renames, removals and syncs, with the set of contents each path may have
  after a power cut. `Snapshots`: archives, what a restore does with one, and the web password it spares.
- `CrashSafety`: a change as an operation list (claim, body, settle, bookkeeping); what a power cut at any
  point leaves, and what any chain of interrupted boots makes of it.
- `ApplyTransaction`: the class `Router`, whose methods are those of the source; each says which
  operations it issues, in order, and what the live files are in the end.
- `RejectedEdits`: what rollbacks and boots keep of the config files they replace, over cut boots, too.
- `TransactionSafety`: the two joined: an apply, a confirm or a rollback, cut anywhere, ends with the files
  of before or those of the change.
- `SettleProtocol`, `SettleSafety`, `SettleHistory`: appliers, timers, confirms, token confirms, web reverts,
  `mr rollback`, kills and power cycles, interleaved at every step, over files whose unsynced writes a power
  cut may lose; what every run keeps.
- `LockOutcomes`: who confirms a change and with which token, and what timers, web reverts and commands that
  waited for the lock do, over every run.
- `UndoneChanges`: what undoing a change goes back to over every run, and what a base revision does for that.
- `DurableVerdicts`: power cuts after a verdict, over every run. `HistoryPruning`: which snapshots the history
  keeps, and when that of an open change is always among them.
- `AcceptedRecord`: what `accepted-router.yaml` holds over every run. `SettleRaces`: runs of the code that
  show why the conditions of these theorems are there.

**Compilers**

- `WeekTime`, `TimeMatches`: weekly windows in local time to kernel time matches in UTC.
- `DomainNames`, `StringSort`, `Adblock`, `NftsetLines`: block lists and policy domains for an engine where only
  the most specific name counts.

**Diffs and paths**

- `LineDiff`: the line diff with its table. `TreeDiff`, `TreeDiffWalk`, `DiffLaws`: the change list of two
  config trees, the walk that writes it, and that it hides nothing. `DiffTruth`: that every line of it is true,
  and tells of every place where the trees differ.
- `QuotedText`, `ConfigPath`, `PathLaws`: quoted text, the path parser and printer, and `PATH=VALUE`.

**Reconcilers, a codec, a throttle, accounting, a validator**

- `RelaySync`, `LanRenumber`, `DialOrder`, `DnsName`, `LoginThrottle`, `Traffic`, `PortOverlap`.

Where the code and its documentation differ, the model follows the code. What came out of that:

- An accepted apply, and a confirm, removes the marker first and renames its staged copies after that.
  Claiming the marker takes no lock, so another apply can claim and stage in between, even while a confirm
  holds the lock; the rename then records the other apply's config (`SettleRaces.GapLosesRecord`,
  `SettleRaces.ConfirmGapLosesRecord`). The rename records the config kept exactly if the last step in the gap
  that staged or dropped a copy, if there is one, left that same config (`AcceptedRecord.RecordAfterGap`).
- An applier takes its snapshot before it claims the marker, and undoing a change goes back to what the
  snapshot saw (`UndoneChanges.UndoneIsBeforeIff`). If another change is kept in between, an apply that names
  no base revision (the console's; the web UI and its API name one) undoes that one, too
  (`SettleRaces.StaleSnapshotUndoesMore`). An apply with a base revision is withdrawn when router.yaml is
  another one at its claim; what remains is a snapshot that saw another router.yaml than the base, such as that
  of a change that is rolled back before the claim (`SettleRaces.BaseRevisionMissesUndoneChange`,
  `UndoneChanges.UndoneIsBaseIff`).
- Two explicit rollbacks of one change may run at once; the later one to finish removes whatever marker is
  there, also that of the next change (`SettleRaces.SecondRollbackUnmarksNextChange`). A web revert's rollback,
  which names its snapshot, may get the lock only after a console rollback has settled the change; it then
  undoes the next change that waits, with the old snapshot (`SettleRaces.LateRollbackUndoesNextChange`).
- `mr rollback` with no change to undo takes the last name in the history directory. Once there is an accepted
  or staged copy that is its name, which sorts after those of all snapshots; it is no archive, so the command
  fails and restores nothing (`ApplyTransaction.Router.RollbackCommand`).
- A live rollback keeps a per-WAN file that the snapshot has no content for when its service does not stop. So
  undoing a change leaves everything as its snapshot saw it but for such files, which are gone or as the change
  had left them (`UndoneChanges.UndoneIsSeen`, `UndoneChanges.KeptIsOfTheChange`); the boot step keeps none.
- An apply that has passed the check of the marker prunes the history before it claims. With a short history it
  so deletes the snapshot of a change that has claimed in the meantime: neither the timer nor the boot step can
  undo that change then, and the boot step abandons it (`SettleRaces.PrunedChangeIsAbandoned`). That
  cannot happen as long as the snapshots taken since its own, and one for each apply that was under way at its
  claim, are fewer than the history keeps (`HistoryPruning.RoomyRunsSettle`, `HistoryPruning.RoomAtClaim`).
- The web password survives a rollback exactly if the snapshot holds a secrets.yaml that is a map of strings
  (`CrashSafety.PasswordSurvives`). Without one, a first password set while a change is open goes with the
  file (`CrashSafety.FirstPasswordIsErased`, `SettleRaces.FirstPasswordIsLost`).
- A rollback and the boot step keep what they replace of router.yaml and secrets.yaml beside it, as *.rejected. A
  boot that is cut short after it has put secrets.yaml back, with the newer web password in it, makes the next
  boot keep that file as the rejected one; what the user had is gone, exactly unless the file put back is the
  archived one, what was kept already or the replaced one itself (`RejectedEdits.SecretsEditStaysIff`); what is
  kept of router.yaml stays (`RejectedEdits.RouterEditStays`).
  `mr rollback`, and so the web revert, keeps neither (`ApplyTransaction.Router.RollbackCommand`).
- The change list tells the order of list items by their names joined with NUL characters, so names that
  contain NUL can change places unseen (`DiffLaws.NulHidesOrder`). Planning and applying validate first and
  refuse control characters in such names; `mr doctor` lists the changes of a config that does not validate,
  too (mr/mod_sys_doctor.go:252-276).
- Relay prefix routes: a prefix that stays on its WAN device under another WAN name, or with another LAN
  address, loses its route in that run; otherwise the routes match (`RelaySync.Relay.Sync` states both directions).
- The reader of DNS names counts 255 octets without the root label, one more than section 3.1 of RFC 1035 allows
  (`DnsName.ReadsOneOctetTooMany`).

Assumptions: the flash keeps what was synced and renames are atomic; clocks do not go back, so a new snapshot
has the last name; snapshot names are distinct; process ids are not reused within a run.

## Model

| member | source | states |
|---|---|---|
| FlashStore.SyncedImage | mr/apply.go:470-497 | once everything is synced, a power cut leaves exactly the live contents |
| FlashStore.RunKeeps | mr/apply.go:470-497 | operations on other paths change neither what a path holds nor what it may hold after a power cut |
| Snapshots.SavedExactly | mr/mod_sys_backup.go:295-328 | an archive gives back, for each listed path, the content its source had, and nothing for other paths |
| Snapshots.RestoreEffect | mr/apply.go:363-429 | a restore leaves every path as the archive has it (a path listed but not archived is gone), whatever the state it starts from, the live web password kept |
| Snapshots.KeepPasswordTwice | mr/apply.go:456-468 | keeping the password is idempotent |
| CrashSafety.ClaimCut | mr/apply.go:961-992 | a power cut while a change is being claimed leaves an untouched router or one the boot step rolls back |
| CrashSafety.SettleCut | mr/apply.go:1004-1014 | a power cut while the marker is being removed leaves a change that is rolled back, or exactly the live files with no marker |
| CrashSafety.OpenStays | mr/apply.go:564-669 | while a change is open, nothing its owner writes touches a file outside the snapshot, the snapshot or another change's marker |
| CrashSafety.PowerCut | mr/apply.go:564-669 | a power cut at any operation of a change leaves an untouched router, one that is rolled back, or the committed files, the last only after the commit |
| CrashSafety.BootCut | mr/apply.go:1217-1253 | a boot that is itself cut short leaves a router that the next boot rolls back, or one that is rolled back already |
| CrashSafety.BootCompletes | mr/apply.go:1217-1253 | a boot that completes puts back every managed file, removes the marker and leaves everything synced |
| CrashSafety.CutBoots | mr/apply.go:1217-1253 | any chain of interrupted boots keeps a change being rolled back, or rolled back for good |
| CrashSafety.PasswordSurvives | mr/apply.go:456-468 | the web password on flash when a boot rollback starts is the one after it exactly if the snapshot does not list secrets.yaml or holds one that is a map of strings |
| CrashSafety.FirstPasswordIsErased | mr/apply.go:401-417 | with no secrets.yaml to save, the file is gone after the rollback, a password set since then with it |
| CrashSafety.CrashSafe | mr/apply.go:564-669 | a power cut at any operation, then any number of interrupted boots: the last boot leaves all managed files rolled back, untouched or committed, decided by whether the marker was on flash |
| ApplyTransaction.Router.WriteAtomic | mr/apply.go:470-497 | one rename puts the whole content, or nothing changes |
| ApplyTransaction.Router.ClaimPending | mr/apply.go:961-992 | claims exactly when there is no marker, and then leaves the record synced; else touches nothing |
| ApplyTransaction.Router.SetPending | mr/apply.go:994-1000 | replaces the marker by the given record and syncs it |
| ApplyTransaction.Router.ClearPending | mr/apply.go:1004-1014 | syncs everything before the marker goes; does nothing to another change's marker |
| ApplyTransaction.Router.StageAccepted | mr/apply.go:81-89 | the staged copies are the live config files, and nothing else changes |
| ApplyTransaction.Router.AcceptStaged | mr/apply.go:91-98 | each staged copy replaces the accepted one where there is one; no managed file or marker is touched |
| ApplyTransaction.Router.KeepRejected | mr/apply.go:107-116 | of router.yaml and secrets.yaml exactly those a restore would change are kept beside, with their live content; the other *.rejected file stays, and nothing else is written |
| ApplyTransaction.Router.DropStaged | mr/apply.go:100-103 | removes the staged copies only |
| ApplyTransaction.Router.Restore | mr/apply.go:363-429 | every path is put back as the snapshot has it, but per-WAN files whose service would not stop, which only a live restore keeps |
| ApplyTransaction.Router.Plan | mr/apply.go:165-221 | exactly the rendered files whose live content differs, each path once |
| ApplyTransaction.Router.OrphanPaths | mr/apply.go:695-738 | exactly the per-WAN files no WAN wants |
| ApplyTransaction.Router.AcceptedSources | mr/apply.go:62-77 | an edit in place is saved from the accepted copies, for router.yaml else from the applied one |
| ApplyTransaction.Router.CleanupOrphanWANFiles | mr/apply.go:679-693 | removes the orphans but those whose service would not stop |
| ApplyTransaction.Router.TakeSnapshot | mr/mod_sys_backup.go:295-328 | the archive holds each path as its source has it and is synced before anything else |
| ApplyTransaction.Router.Begin | mr/apply.go:591-625 | snapshot and claim: everything the apply will write or remove is covered, each file saved as it was before |
| ApplyTransaction.Router.PutInPlace | mr/apply.go:616-645 | writes only covered files; when all writes succeed the change is live and staged |
| ApplyTransaction.Router.Rollback | mr/apply.go:753-776 | restores, drops the staged copies and settles: the files are as before but for kept per-WAN files, and each config file it replaces is kept as *.rejected with the content it had |
| ApplyTransaction.Router.ApplyWith | mr/apply.go:564-669 | refused exactly with a marker there, invalid exactly when there is none and the config does not validate or render, nothing to do exactly when live files, services and candidate ask for nothing, stale exactly with another base revision; applied, awaiting and undone with the operations issued and the files in the end; an edit in place that is undone is kept as *.rejected |
| ApplyTransaction.Router.Confirm | mr/apply.go:1098-1139 | succeeds exactly on a pending (or unreadable) marker; then the marker is gone, no managed file changed and the staged copies are accepted |
| ApplyTransaction.Router.StartRevert | mr/apply.go:1045-1056 | marks exactly a pending change, of the given snapshot if one is given |
| ApplyTransaction.Router.RollbackIfUnconfirmed | mr/apply.go:1072-1078 | the timer undoes its own pending change, keeps the config files it replaces as *.rejected, and touches nothing else |
| ApplyTransaction.Router.RollbackCommand | mr/apply.go:1142-1211 | runs on any readable marker but that of a live applier, and leaves the files of before, no marker and the *.rejected files as they were; without one it puts the newest snapshot back, or touches nothing once accepted or staged copies are there |
| ApplyTransaction.Router.RollbackAtBoot | mr/apply.go:1217-1253 | issues exactly the boot operations the crash lemmas speak of; a config file it replaces is kept as *.rejected with the content it had |
| ApplyTransaction.SnapshotWellFormed | mr/apply.go:321-339 | a snapshot of managed paths restores each of them to what its source held |
| RejectedEdits.BootKeepsEdits | mr/apply.go:105-116 | after a boot that completes, each config file the snapshot holds and that was live and different is beside, as *.rejected, with its live content; else the *.rejected file is what it was |
| RejectedEdits.RouterEditStays | mr/apply.go:1217-1253 | over any chain of interrupted boots the router.yaml that the first one found is what is kept: no later one replaces it by the restored file |
| RejectedEdits.SecretsEditStaysIff | mr/apply.go:1217-1253 | over every chain of interrupted boots what is kept of secrets.yaml is what the first boot found, or what was kept already, exactly if the file it puts back, the live password in it, is the archived one or one of those two |
| TransactionSafety.RolledBackIsBefore | mr/apply.go:753-776 | rolling back brings the files of before, of an edit in place the config last accepted, the password aside |
| TransactionSafety.ApplySurvivesPowerCuts | mr/apply.go:564-669 | an apply of any outcome, cut after any operation and at any boots after: the files it left, or those of before, decided by the marker |
| TransactionSafety.AcceptedIsAllOrNothing | mr/apply.go:564-669 | an accepted candidate is wholly live after any power cuts, or everything is as before |
| TransactionSafety.UnderwaySettlesAsOneChange | mr/apply.go:1058-1070 | a change under way, pending or left by a killed apply, can be settled, and what settles it continues it to one change, so the crash lemmas cover both |
| TransactionSafety.ConfirmSurvivesPowerCuts | mr/apply.go:1098-1139 | a confirm cut anywhere: the change as it waited, or as before |
| TransactionSafety.RollbackSurvivesPowerCuts | mr/apply.go:1142-1211 | the rollback of a pending change, or of one that a killed apply left half done, cut anywhere: as before, or as that rollback left it, and no marker |
| SettleSafety.ExclusionStep | mr/apply.go:961-1139 | every step keeps: at most one process holds a change, in a state that fits the marker; whoever is under the lock acts on the marker it read, with nobody active |
| SettleSafety.LockReadsMarker | mr/apply.go:1034-1056 | what a process reads under the lock entitles it to act: nobody holds the change; LockOutcomes says who gets to act |
| SettleSafety.ExclusionClaimMarker | mr/apply.go:961-992 | claiming keeps exclusion |
| SettleSafety.ExclusionLockAndRead | mr/apply.go:1098-1127 | entering the critical section keeps exclusion |
| SettleSafety.ExclusionRemoveMarker | mr/apply.go:1004-1014 | removing the marker keeps exclusion |
| SettleHistory.InvStep | mr/apply.go:961-1211 | every step keeps the invariant that ties marker, claims, verdicts and files, and gives a verdict only with the files it promises |
| SettleHistory.InvCheckBase | mr/apply.go:612-619 | a change goes on to write only if its base revision is the router.yaml at its claim, and is withdrawn only if it is not |
| SettleHistory.InvDoAct | mr/apply.go:616-645 | each write of an applier keeps the files at what its progress says |
| SettleHistory.InvRestoreOne | mr/apply.go:363-429 | each file put back stays put back, and each one kept stays kept, while the rest of the restore runs |
| SettleHistory.InvKeepOne | mr/apply.go:404-417 | a live restore may keep a per-WAN file without archived content; it is as the change left it |
| SettleHistory.InvPowerCycle | mr/apply.go:1217-1253 | a power cycle at any state, with any of the unsynced writes lost, undoes the open change whole, and no other |
| SettleHistory.Settling | mr/apply.go:961-1139 | over every run: no two holders; every claimed change but the marker's has exactly one verdict, for ever; with it the files are as applied (kept), as in its snapshot but for the per-WAN files the rollback kept (undone), as in its snapshot (undone at boot) or as at its claim (withdrawn), the web password aside |
| SettleHistory.VerdictStays | mr/apply.go:1004-1014 | a verdict once given never changes |
| SettleHistory.MarkerFollowsCourse | mr/apply.go:961-1056 | the marker goes none, applying, pending, reverting, none and never from one change to another |
| SettleHistory.OldTimerIsHarmless | mr/apply.go:1072-1078 | the timer of a settled change ends without touching anything, whatever change is open |
| LockOutcomes.ConfirmedByItsToken | mr/api.go:169-199 | over every run, a change that a confirm keeps was pending, and that confirm was started by a session or with the very token the change was applied with; so a change without a token is confirmed by a session only |
| LockOutcomes.ConfirmGoesOnIff | mr/api.go:169-199 | over every run, a confirm that gets the lock goes on exactly if a change is pending and it is a session's or holds that change's token; else it ends and nothing changes |
| LockOutcomes.AskedIsConfirmed | mr/apply.go:1098-1127 | over every run, a change that asks for confirmation is kept by a confirm only |
| LockOutcomes.TimerActsIff | mr/apply.go:1072-1078 | over every run, a timer that gets the lock acts exactly if its own change is pending; else it ends and nothing changes |
| LockOutcomes.WebRevertActsIff | mr/apply.go:1045-1056 | the same for the web revert, and any pending change |
| LockOutcomes.CommandActsIff | mr/apply.go:1142-1204 | over every run, mr rollback acts on every marker but that of an applier still running, and without one only if it names a snapshot |
| UndoneChanges.UndoneIsSeen | mr/apply.go:363-429 | over every run an undone change leaves each covered file as its snapshot saw it, but the per-WAN files that a live rollback kept, and each other file as at its claim, or at boot as the claim could have lost it |
| UndoneChanges.UndoneIsBeforeIff | mr/apply.go:591-625 | over every run, file by file: undoing goes back to the claim exactly if the snapshot does not cover the file or saw it as it was at the claim, or, for a file the rollback kept, if that had been left as at the claim |
| UndoneChanges.KeptIsOfTheChange | mr/apply.go:404-417 | over every run a rollback keeps only per-WAN files its snapshot has no content for, gone or as the same one of the change's writes had left them |
| UndoneChanges.UndoneIsBaseIff | mr/apply.go:612-619 | for a change that got past the check of its base revision, undoing goes back to that base exactly if the snapshot saw it |
| UndoneChanges.KeptOnItsBase | mr/apply.go:612-619 | over every run, a change that names its base revision is kept only if that was the live router.yaml at its claim, and withdrawn only if it was not, with the files as they were |
| UndoneChanges.UndisturbedIsUndoneToBefore | mr/apply.go:591-625 | with no change open, no edit and no power cut between snapshot and claim, undoing a candidate goes back to the claim for every covered file that the rollback does not keep |
| DurableVerdicts.VerdictSurvives | mr/apply.go:1002-1014 | over every run: from the step that gives a change its verdict to the next claim, whatever power cuts and boots there are, each file is as the verdict left it or as it was edited since |
| HistoryPruning.PruneKeepsIff | mr/apply.go:341-360 | a new snapshot leaves an archive there exactly if fewer are newer than the config keeps, the new one counted |
| HistoryPruning.RoomyRunsSettle | mr/apply.go:321-360 | a run in which, while a change is open or about to be claimed, fewer snapshots are taken after its own than any of their configs keeps always keeps its archive, so all that Settling says holds of it |
| HistoryPruning.TakesWhileOpen | mr/apply.go:565-569 | while a change is open only applies that had started before its claim take snapshots, one each |
| HistoryPruning.RoomAtClaim | mr/apply.go:591-612 | the room a change needs is known at its claim: the snapshots taken since its own and the applies then under way |
| AcceptedRecord.KeptIsStaged | mr/apply.go:81-89 | over every run a change that is kept has its own config staged, or recorded already |
| AcceptedRecord.RecordAfterGap | mr/apply.go:1118-1120 | over every run: the rename after a kept change records its config exactly if the last step in between that staged or dropped a copy, if any, left that config |
| AcceptedRecord.RecordedStep | mr/apply.go:81-103 | every gapless step keeps: the record, or what the rename will make of it, is the config last kept |
| AcceptedRecord.AcceptedIsLastKept | mr/apply.go:62-103 | over every gapless run the record holds the config of the last kept change |
| AcceptedRecord.UndoneEditIsLastKept | mr/apply.go:591-625 | an edit in place that is undone leaves router.yaml at the config last kept when its snapshot was taken, whatever edits were live |
| SettleRaces.GapLosesRecord | mr/apply.go:660-662 | a run of an apply without confirmation after which the record holds the config of a change that is not settled |
| SettleRaces.ConfirmGapLosesRecord | mr/apply.go:1118-1120 | the same for a confirm, which holds the lock all the while |
| SettleRaces.StaleSnapshotUndoesMore | mr/apply.go:591-625 | a run in which undoing a change without base revision also undoes an earlier kept one |
| SettleRaces.BaseRevisionMissesUndoneChange | mr/apply.go:612-619 | a run in which the base revision matches and undoing the change puts back a config that had been rolled back |
| SettleRaces.SecondRollbackUnmarksNextChange | mr/apply.go:1176-1204 | a run in which a second rollback leaves the next applier without its marker |
| SettleRaces.LateRollbackUndoesNextChange | mr/apply.go:1164-1204 | a run in which a rollback that names its snapshot comes after its change is settled and undoes the next one, and an edit |
| SettleRaces.PrunedChangeIsAbandoned | mr/apply.go:321-360 | a run with a history of one in which a second apply prunes the archive of a claimed change, which neither its timer nor the boot step can undo then |
| SettleRaces.FirstPasswordIsLost | mr/api.go:473-500 | a run in which a first password is set while a change waits and is gone after that change's rollback |
| WeekTime.PieceIsExact | mr/mod_fw_time.go:102-158 | an hour range and a kernel weekday single out exactly the seconds of a piece within one UTC day and one kernel day |
| WeekTime.KernelDayByCount | mr/mod_fw_time.go:102-158 | the kernel's weekday, wrapped at the week, counts the kernel's days |
| TimeMatches.WindowByDay | mr/mod_fw_time.go:51-100 | a local time lies in a window that was read exactly when it lies in the window's span from some listed day, also over midnight and the week end |
| TimeMatches.EntryMeans | mr/mod_fw_time.go:51-100 | a schedule entry holds at a second of the UTC week exactly when its shifted spans cover it |
| TimeMatches.PrintedIsRead | mr/mod_fw.go:540-551 | the text of any start and end in hours and minutes, 24:00 as an end included, is read as exactly those seconds |
| TimeMatches.ReadIsPrinted | mr/mod_fw.go:540-551 | and a text that is read is the text of such times; no other is |
| TimeMatches.DayNames | mr/mod_fw.go:172-173 | the seven names stand for the days 0 to 6 in order, and nothing else does |
| TimeMatches.ReadAsMeant | mr/mod_fw_time.go:51-100 | a schedule entry as read covers a time exactly if it is in the window its text prints from a day it names |
| TimeMatches.Windows | mr/mod_fw_time.go:51-100 | the intervals of all entries cover exactly the scheduled seconds |
| TimeMatches.Merge | mr/mod_fw_time.go:90-110 | merging neither adds nor loses a second and leaves disjoint intervals |
| TimeMatches.Split | mr/mod_fw_time.go:102-135 | splitting at both day boundaries ends, covers the same seconds and yields pieces |
| TimeMatches.Emit | mr/mod_fw_time.go:135-158 | grouping by hour range adds no second |
| TimeMatches.FwTimeMatches | mr/mod_fw_time.go:51-158 | for every schedule, local offset and kernel offset, some expression matches exactly the seconds in the windows that the entries print, from the days they name |
| LineDiff.NoLongerCommon | mr/history.go:536-578 | no common subsequence is longer than the table's number |
| LineDiff.LongestCommon | mr/history.go:536-578 | and one has that length |
| LineDiff.Table | mr/history.go:536-578 | the table holds that number for every pair of tails |
| LineDiff.LineOps | mr/history.go:536-578 | dropping the added lines gives a, dropping the removed lines gives b; with the table as many lines are kept as any diff can |
| LineDiff.TrimmingIsFree | mr/history.go:489-526 | cutting common ends loses no optimality |
| LineDiff.SplitLosesNothing | mr/history.go:489-526 | the lines put together are the text |
| LineDiff.PiecesAreLines | mr/history.go:489-533 | the pieces are the lines of the text, the last one what is left behind the last newline; each is shown as a line |
| LineDiff.FileDiff | mr/history.go:489-526 | no diff exactly for equal texts; else the hunk patches old to new, with three lines of context behind it if there are as many, and up to three before, and is optimal unless too large for the table |
| TreeDiffWalk.DiffNode | mr/history.go:151-217 | appends exactly the lines of the tree diff, which DiffTruth says are true and DiffLaws complete |
| TreeDiffWalk.FindListId | mr/history.go:235-254 | the first of the four keys that names every item of both lists, no two alike |
| TreeDiffWalk.MapIndex | mr/yamledit.go:727-735 | the index gives each key its value, the last one counting |
| TreeDiffWalk.KeepThose | mr/history.go:220-232 | the elements of one list that are in the other, in order |
| DiffLaws.DiffHidesNothing | mr/history.go:151-254 | no line exactly when the trees are equal up to the order of mapping keys, if no item name holds a NUL |
| DiffLaws.JoinTells | mr/history.go:193-195 | names without NUL are told apart by their joined text |
| DiffLaws.NulHidesOrder | mr/history.go:193-195 | with any name n, the items n and n-NUL-n change places without a line |
| DiffTruth.EveryLineIsTrue | mr/history.go:151-217 | with places looked up in both trees: + is at a place where only the new tree has something, - where only the old one has, a change shows what either has there where there is no going further down (scalars, lists of scalars, values of two kinds), a new order the names common to both in the order of each |
| DiffTruth.EveryDifferenceIsTold | mr/history.go:151-217 | wherever the trees differ by more than the order of mapping keys, some line is at that place, above or below it |
| QuotedText.QuoteReads | mr/cfgpath.go:137-154 | a quoted text, whatever follows, reads back as that text up to its closing quote |
| QuotedText.UnhexHex | mr/cfgpath.go:137-154 | hexadecimal numbers read back |
| QuotedText.EscapesAre | mr/cfgpath.go:137-154 | what stands for a character: itself, a backslash and its letter, or its number in two, four or eight digits |
| ConfigPath.ParsePath | mr/cfgpath.go:41-114 | the steps the grammar gives, or its error |
| ConfigPath.FmtPath | mr/cfgpath.go:117-135 | the steps' texts one behind the other |
| PathLaws.KeyByHand | mr/cfgpath.go:84-108 | a bare key goes up to the next dot, bracket, quote, equals sign, space or tab |
| PathLaws.SelectorByHand | mr/cfgpath.go:52-83 | [key=value] selects the item with that value under the key |
| PathLaws.ItemByHand | mr/cfgpath.go:52-83 | [value] selects the item of that name |
| PathLaws.PrintedParses | mr/cfgpath.go:41-154 | a path parses back from its printed form exactly when it starts with a key and its selector keys are identifiers |
| PathLaws.ParsedPrints | mr/cfgpath.go:41-154 | every path that parses parses the same after printing |
| PathLaws.SplitAssign | mr/cfgpath.go:501-519 | splits at the first = outside brackets and quotes, or there is none |
| PathLaws.SplitsHere | mr/cfgpath.go:501-519 | behind a printed path that = is the first one, whatever the value |
| PathLaws.AssignmentSplits | mr/cfgpath.go:501-519 | so the split gives back exactly the printed path and the value |
| DomainNames.MostSpecific | mr/mod_dns_adblock.go:231-266 | of the configured names over a query, the one under all others |
| DomainNames.ParentIn | mr/mod_dns_adblock.go:233-266 | following parents finds a configured name exactly when the name ends in a dot and one |
| DomainNames.UnderIsSuffix | mr/mod_dns_adblock.go:231-266 | a name lies under another exactly if it is that name, or some text, a dot and that name |
| DomainNames.ChainIsUnder | mr/mod_dns_adblock.go:231-266 | the names met by following parents are exactly those it lies under |
| Adblock.BlocksExactly | mr/mod_dns_adblock.go:231-266 | a query is refused exactly when a listed name is it or a parent of it and no allowed name is |
| Adblock.BlockedApart | mr/mod_dns_adblock.go:231-266 | no blocked name lies under another |
| Adblock.AdblockBuild | mr/mod_dns_adblock.go:233-266 | the two lists refuse exactly what the block lists and exceptions mean (a name and all that ends in a dot and it), sorted, without repeats, disjoint |
| StringSort.LeqMeans | mr/mod_dns_adblock.go:233-266 | sorted is by the first character that differs, a beginning before what continues it |
| NftsetLines.KeyInjective | mr/mod_net_domains.go:134-193 | grouping by key text is grouping by the list of sets |
| NftsetLines.RefTextNames | mr/mod_net_domains.go:48-170 | the text of a set names its family and, in decimal, its policy |
| NftsetLines.KeyHoldsRefs | mr/mod_net_domains.go:150-170 | between its commas a key has the text of each set, in order |
| NftsetLines.FindOwners | mr/mod_net_domains.go:134-150 | the owners of a domain are exactly the policies that list it |
| NftsetLines.RefList | mr/mod_net_domains.go:150-170 | the sets of all policies that list a domain or a parent of it, in policy order, each once |
| NftsetLines.PackLines | mr/mod_net_domains.go:170-193 | a group's domains once each, in order; a line passes 1000 bytes only for a single domain |
| NftsetLines.PolicyNftsetLines | mr/mod_net_domains.go:134-193 | every domain not skipped is on exactly one line, beside all the sets its queries must fill |
| NftsetLines.NamesExactSets | mr/mod_net_domains.go:130-193 | the most specific line of a query names exactly the sets of the policies that list it or a name it ends in behind a dot, each once |
| NftsetLines.EveryListedQueryHasALine | mr/mod_net_domains.go:130-193 | a query has a line exactly when some policy lists it or a parent |
| DnsName.DnsReadName | mr/mod_dns_query.go:86-124 | reads inside the message and ends; succeeds exactly on names spelled with at most 64 pointers and 255 octets, with the labels and the offset behind the name |
| DnsName.PointerBits | mr/mod_dns_query.go:86-124 | a pointer is the 14 bits behind the two that mark it |
| DnsName.NameIsUnique | mr/mod_dns_query.go:86-124 | an offset spells at most one name |
| DnsName.DnsEncodeQuery | mr/mod_dns_query.go:64-83 | encodes exactly the names with labels of 1 to 63 octets and 254 in all, as a recursive query with that id, one question, of that name, type and class, and nothing else |
| DnsName.ReadsBackQuery | mr/mod_dns_query.go:64-124 | reading at offset 12 what was encoded gives the name and the offset of the type; the 16-bit fields are those of such a query |
| DnsName.LongLabelsAreRead | mr/mod_dns_query.go:86-124 | a name is read whenever its labels make up 255 octets, the root label not counted |
| DnsName.ReadsOneOctetTooMany | mr/mod_dns_query.go:86-124 | a message whose name has 256 octets with the root label and is accepted |
| RelaySync.Relay.Sync | mr/mod_net_ipv6_relay.go:469-641 | what is proxied, kept, counted and recorded, and that the kernel tables match the new record if they matched the old, the prefix routes exactly unless a prefix was renamed; a failed run changes neither record nor proxies |
| RelaySync.Relay.ServePrefixes | mr/mod_net_ipv6_relay.go:510-540 | the eligible hosts are exactly those heard in a served prefix, found free, neither local nor known on the WAN |
| RelaySync.Relay.Capped | mr/mod_net_ipv6_relay.go:541-547 | at most 64 distinct hosts; no host already proxied is pushed out |
| RelaySync.Relay.Grace | mr/mod_net_ipv6_relay.go:548-578 | silent hosts stay for three runs at most, if nothing else speaks against them, and lose their entry otherwise |
| RelaySync.Relay.SetRoutes | mr/mod_net_ipv6_relay.go:599-615 | host routes: those recorded before and not now go, those now and not before come |
| RelaySync.MissesCount | mr/mod_net_ipv6_relay.go:563-578 | a host silent for n runs and still proxied has n misses counted, three at most |
| RelaySync.ProxiesStaySound | mr/mod_net_ipv6_relay.go:469-641 | over every run: what is proxied lies in a prefix served there, was found free not long ago and is neither the router's own nor known on the WAN; a heard host stays; one silent for four runs is gone |
| LanRenumber.Plan | mr/mod_net_renumber.go:118-166 | next record and stale list of every WAN and bridge, exactly |
| LanRenumber.ByWan | mr/mod_net_renumber.go:51-69 | each address is filed under exactly the WANs whose delegated prefix holds it |
| LanRenumber.NothingIsLost | mr/mod_net_renumber.go:118-166 | over every run a recorded address stays recorded or is announced as stale, when no bridge advertises it |
| LanRenumber.NeverAnnouncesCurrent | mr/mod_net_renumber.go:118-166 | only recorded addresses are announced, never a currently advertised one; every advertised one is recorded |
| LanRenumber.RecordedAfter | mr/mod_net_renumber.go:118-166 | the next record of a WAN and bridge is what is advertised there now and nothing else, or what was recorded if that is nothing, unless the WAN is gone for good; only what was recorded there is dropped there |
| LanRenumber.AdvertisedIsRemembered | mr/mod_net_renumber.go:118-166 | an address advertised once is later recorded or was announced as stale |
| LanRenumber.VanishedIsKept | mr/mod_net_renumber.go:118-166 | with retiring off a WAN that vanished keeps its record and announces nothing |
| DialOrder.LateExactly | mr/mod_net_dial.go:193-207 | late are exactly the up WANs older than one before them; none exactly when the order holds |
| DialOrder.Dialer.DialLate | mr/mod_net_dial.go:193-207 | the late WANs in order |
| DialOrder.Dialer.DialDue | mr/mod_net_dial.go:254-263 | the late WANs whose cooldown is over, stamped now |
| DialOrder.Dialer.Restore | mr/mod_net_dial.go:275-332 | which WANs are redialled, stamped and with what result, for forced and automatic runs |
| DialOrder.PassAdvances | mr/mod_net_dial.go:275-332 | a pass over all late WANs moves the first late place on |
| DialOrder.OrderConverges | mr/mod_net_dial.go:275-332 | one pass fewer than there are WANs restores the order |
| DialOrder.OnePassIsNotEnough | mr/mod_net_dial.go:275-332 | of 10, 5, 12 one pass leaves a late WAN |
| DialOrder.RedialsAreSpaced | mr/mod_net_dial.go:254-263 | over every run of automatic restores no WAN is redialled twice within ten minutes |
| DialOrder.AllDueAfterGap | mr/mod_net_dial.go:254-263 | once their cooldown is over all late WANs are due |
| LoginThrottle.Throttle.Begin | mr/api_login.go:107-139 | outcome and new record of an attempt, and what of the file is kept |
| LoginThrottle.Throttle.Store | mr/api_login.go:56-102 | idle sources are forgotten and the 1024 seen last are kept |
| LoginThrottle.LocksDouble | mr/api_login.go:124-131 | the lock after n in a row lasts min(30 * 2^n, 3600) seconds for every n, though the 64-bit shift wraps |
| LoginThrottle.WaitsAreExact | mr/api_login.go:107-139 | after a denial, which changes nothing, and after a lock starts, every attempt is denied with exactly the seconds left, and granted once they are over |
| LoginThrottle.FourAreFree | mr/api_login.go:107-139 | without failures, or a quarter of an hour after the last attempt, the next four attempts are granted and start no lock |
| LoginThrottle.RateBound | mr/api_login.go:107-139 | at most 5 (T/30 + 1) + 4 (T/900 + 1) attempts are granted in any T seconds |
| LoginThrottle.StreakCosts | mr/api_login.go:107-139 | 5k attempts without a pause take at least the first k - 1 locks |
| LoginThrottle.ForgettingIsUnseen | mr/api_login.go:79-83 | over every run of the file each attempt fares as if no idle source were ever forgotten |
| LoginThrottle.FileRateBound | mr/api_login.go:56-139 | over every run of the file, a source that does not log in is granted at most 5 (T/30 + 1) + 4 (T/900 + 1) attempts in any T seconds |
| LoginThrottle.FileStreakCosts | mr/api_login.go:56-139 | over every run of the file, 5k granted attempts without a pause take at least the first k - 1 locks |
| Traffic.Poll | mr/mod_mon_ct.go:381-429 | each device gets the bytes of its own flows; all devices and the rest make up the bytes of all flows |
| Traffic.NeverOverCredited | mr/mod_mon_ct.go:381-429 | over every run no flow is credited more than the kernel counted, and exactly that when nothing was cut or reused |
| Traffic.DeviceSides | mr/mod_mon_ct.go:381-429 | a device is credited as sent and as received never more than the kernel counted of its flows in that direction, and exactly that when nothing was cut or reused |
| Traffic.SumByKeys | mr/mod_mon_ct.go:381-429 | a poll's bytes are the sum of what it credits to each tuple |
| Traffic.RunConserves | mr/mod_mon_ct.go:381-429 | over every run the credits of all devices and the rest never exceed what the kernel counted of all tuples, and equal it when nothing was cut or reused |
| Traffic.Month.Account | mr/mod_mon_traffic.go:87-103 | a device's total grows by its credits; only a device without bytes or beyond the limit is left out |
| Traffic.MonthIsSum | mr/mod_mon_traffic.go:87-103 | over every run from an empty month a device's total is exactly the sum of its credits; a device without one had no bytes as long as there was room |
| Traffic.MonthConserves | mr/mod_mon_traffic.go:87-103 | a month's totals together never exceed what the kernel counted while it was polled |
| PortOverlap.CheckOverlaps | mr/mod_fw.go:347-405 | reports exactly the clashes of a forward with a later claim |
| PortOverlap.SilentIsUncontested | mr/mod_fw.go:347-405 | when it is silent no WAN, protocol and port is taken by two forwards, or by a forward and an open port |
| PortOverlap.ClashIsContested | mr/mod_fw.go:347-405 | and every clash it reports is a WAN, protocol and port taken twice |

## Left out

- The change transaction: services, runlevel links, the firewall load and the checks after an apply decide only which way a method goes; nftables.nft, leases and other files that hooks rewrite are not managed files; list snapshots and `undoLists`, `mr rollback OLDSNAP` without a web revert before it, dry runs and the change log are not modelled.
- Unreadable or failing disks inside a restore, and a kill between the removal of the marker, or its setting aside, and the sync of its directory.
- The settling protocol models `mr set` and setting the web password as one step each, and one config file's staged and accepted copy; a base revision is the text it stands for.
- SettleHistory.Settling: assumes that an explicit rollback starts only while no other rollback of the change runs, and one that names its snapshot only while the marker is that change's, because the code excludes neither; SettleRaces.SecondRollbackUnmarksNextChange and SettleRaces.LateRollbackUndoesNextChange show what happens then. It also assumes that pruning spares the archive of the open change and of the one about to be claimed; HistoryPruning.RoomyRunsSettle says when it does, and SettleRaces.PrunedChangeIsAbandoned shows what happens otherwise.
- SettleHistory.InvKeepOne: which services would not stop is not part of the settling protocol, so a live rollback may keep each per-WAN file that has no archived content, also when its service has stopped for another of its files.
- SettleHistory.InvStep: a bare `mr rollback` without a marker ends without effect, as it does once accepted or staged copies are there; that it restores the newest snapshot before the first accepted change is modelled by ApplyTransaction.Router.RollbackCommand only.
- AcceptedRecord.AcceptedIsLastKept: assumes that nothing is staged or dropped, and nobody is killed, between the removal of the marker and the rename, because the code leaves that gap; AcceptedRecord.RecordAfterGap says exactly what the rename records then.
- LockOutcomes.ConfirmedByItsToken: when the one-time token runs out, and that it is taken from the LAN only (mr/api.go:170-186), are not modelled; a confirm turned away for that ends like a killed one.
- Time zones: the offset of local time is an input of the time matches.
- LineDiff: the printed header, and the masking of secrets before the diff.
- Tree diff: the text of its lines (values on one line, cut at 60 characters); collection tags, which canonical trees do not vary; duplicate keys.
- Quoted text: characters are Unicode scalar values; bytes that are not UTF-8, and octal and \x escapes from 0x80 on, are not modelled.
- Config paths: looking a path up in a tree and editing the tree.
- Block lists: downloading and parsing lists, their header and the size limit.
- DNS: answers and their records, and their sockets.
- IPv6 relay: probing, and reading the kernel's tables; proxies are kept in no particular order; the kernel is the set of entries the commands set, a route being a destination and a device.
- LAN renumbering: reading addresses and leases, lifetimes, and the devices beside the record.
- Dial order: waiting for a session, and the time of a scheduled restore.
- Login throttle: an unusable file, password checks, and runs in which a source's record is dropped because more than 1024 others are newer.
- Traffic: rates, WAN counters, the change of the month, hash collisions of flow keys and the wrap of 64-bit byte counters.
- Port overlaps: the text of ports and port lists, which come as ranges, and the wording of reports.
