# Sparkplane: a verified model

Sparkplane runs inference engines on a small appliance. This project models the parts of it
where a crash, a repeated call or an unlucky order of events could do lasting damage, and
proves what they guarantee.

**The appliance migration** (`Durable`, `Files`, `Layout`, `History`, `World`, `Relocation`,
`Storage`, `Publication`, `Cutover`, `Journal`, `Fence`, `Snapshot`, `CachePlan`, `Host`,
`Runner`, `Cli`).
A journal drives eight steps that fence traffic, stop the legacy services, take an inventory,
move data, accounts and release files, start the new services and qualify them. A commit is
the point of no return; before it, a rollback undoes every step. The model is a state machine
over disk, services, firewall table and permit. Every external operation may be the last one
that a process completes, and a power loss may bring back any version of the disk that was
not yet synced. `World.Inv` relates what is running to *every* such version. All methods keep
it at every exit, so it holds at every crash point; `Commands.Lifetime` runs arbitrary
histories of commands, crashes, reboots, service activity and units that stop.

**Accounting** (`Analytics`, `Economics`). Daily rollups of requests against recomputation
from the requests themselves, and the cost figures derived from them.

**Generated client files** (`Texts`, `Lines`, `Assignments`, `GeneratedFiles`, `Providers`).
Ownership receipts for files that a coding client also edits.

**Smaller machines** (`Encoder`, `Answers`, `Responses`; `Containers`; `Images`). The response
loop that may continue a generation once, the accounting of containers, and the image budget of
a request.

## Reading the model

- An operation ends `Done`, `Refused` (a check of the program failed) or `Stopped` (the
  environment failed it, or the process died). `Stopped` implies that the budget of successful
  operations is used up, and every migration method states how many operations it takes at
  most. With a larger budget it is therefore not `Stopped`: a contract that also excludes
  `Refused` says that the operation succeeds whenever nothing outside fails.
  `Commands.RecoverCommand` and `Commands.Resume` spell this out as an equivalence.
- `Disk` keeps the present contents and all versions since the last directory sync. Metadata
  changes become durable in the order in which they were made. The code depends on that: where
  a repeated move finds its work done, it verifies the identity and does not sync again
  (`src/migration/storage.rs:120-124`, `src/migration/storage.rs:155-158`).
- Inode and SHA-256 digest of a file are one value, and different contents have different
  digests. Root and work directory are on one filesystem, as the preflight checks.
- While the program waits, running services may write: the legacy services in their data
  directory, the new ones to the database files and the emergency journal. Each version of the
  disk carries in `left` the tree that the legacy services last left; nothing but their own
  writes changes it. `recording` says whether the transaction has taken its snapshot and
  whether a legacy unit ran since.
- Units may stop by themselves between commands, and a start that fails may have started any
  of its units. A health check fails if the agent unit does not run; if it runs, the check is an
  operation that may fail.
- Unit files enabled or disabled by systemctl are unsynced writes. The firewall table and the
  permit do not survive a reboot; guards do.
- The new cache keys of different engines differ (`World.DistinctTargets`). Nothing in the
  program checks this; `CachePlan.GoesThroughIff` proves that the cache moves go through, and
  can be taken back, if and only if it holds of the collected ones.
- Instance ids differ: they are a primary key (`src/spark/state.rs:38`), read row by row and
  compared with the document (`src/migration/appliance.rs:298`).
  `Containers.AccountedForIff` proves that this is exactly what the count comparison needs.

## What turned out not to hold

- *`--recover` restores service.* It does so from every level at which a step has begun and
  the legacy agent runs or will be started. From level 0 (nothing begun, or everything already
  undone but the directory not yet renamed) it seals the appliance, installs the guards and
  leaves both: `Commands.RecoverCommand` states both cases, and
  `Commands.SealedWithoutTransaction` that no unit starts at the next boot. The message of the
  runner says that traffic remains fenced after any failed step; the code follows that here too.
- *`--recover` is always accepted before the commit.* With only the first two steps begun,
  nothing starts the legacy agent, and the health check before the fence comes down refuses.
  `Commands.OtherwiseThereIsHope` gives the exact condition,
  `Commands.PowerLossBeforeTheStopIsHopeless` reaches it by every power loss that keeps one or
  two begun steps and the guard of the legacy agent, which is there from the completed first
  step on. `Commands.RecoverCommand` succeeds if and only if recovery is not `Hopeless`.
- *Whatever cache moves the snapshot accepts can be carried out or taken back.* Two existing
  caches with one target are accepted, the second move is refused, and so is every rollback
  from there (`CachePlan.SharedTargetLocksOutRecovery`). It holds if and only if the targets
  differ (`CachePlan.GoesThroughIff`).
- *A client may keep its own settings in a generated profile.* True after a completed
  publication if and only if the published text has no foreign line
  (`GeneratedFiles.SettingsToleratedIff`). In the middle of an interrupted publication it is
  true only if the profile had no such settings yet, or if the new text is the one it started
  from (`GeneratedFiles.SettingsToleratedMidwayIff`).

## Model

| member | source | states |
|---|---|---|
| Files.MoveConserves | src/migration/relocation.rs:94-130 | an identity-bound move loses, copies and replaces nothing: the same entries in as many places |
| Files.MoveThere | src/migration/relocation.rs:94-130 | an entry in one of its two places is never refused, ends at the destination, nothing else changes, and moving back restores the tree |
| Layout.PreparedIsRecoverable | src/migration/storage.rs:27-88 | the state that the snapshot leaves is one that recovery accepts |
| Layout.MigratedIsRecoverable | src/migration/host.rs:291-298 | so is the completed relocation, whatever the new services made of the live files |
| Layout.HomeIsTheOriginalTree | src/migration/host.rs:342-350 | with every recorded entry home and the rest framed, the tree below the root is exactly the recorded one |
| History.BegunIsPrefix | src/migration/journal.rs:107-117 | a valid history has begun exactly the steps below its level, pending one included |
| History.NothingAfterOpening | src/migration/runner.rs:16-29 | in an orderly log nothing is started or undone once traffic was opened |
| History.StaysOutstanding | src/migration/journal.rs:169-214 | a started step leaves the outstanding set only through its own completed undo |
| History.UndoneInReverse | src/migration/journal.rs:169-189 | before the undo of a step begins, every later step that had started has completed its own undo |
| World.ReachableOldServiceIsWholeAndUncommitted | src/migration/host.rs:123-145 | a reachable legacy agent: on every version a power loss may leave, the tree below the root is exactly what the legacy services last left, no original is in a backup, there is no commit; after a snapshot the tree is the recorded one up to their own writes; no new agent runs |
| World.ReachableNewServiceIsCommitted | src/migration/host.rs:368-374 | a reachable new agent: on every such version the commit, and a migrated tree |
| World.NothingReachableWhileFenced | src/migration/fence.rs:43-75 | from the completed fence until commit or its undo no agent is reachable, whatever dies or reboots |
| World.OpenedIsForever | src/migration/journal.rs:156-167 | after traffic was opened every version on disk is committed and no step is undone any more |
| World.RebootKeeps | src/migration/fence.rs:14-22 | power loss at any moment, to any version, and the boot that follows keep the invariant |
| World.ServiceStepKeeps | src/migration/host.rs:299-305 | so does any write of the running services |
| Relocation.MoveBound | src/migration/relocation.rs:94-130 | refused exactly if the identity is not in place and the destination not free; every version is the tree before or after |
| StorageMoves.PreparedIsActivating | src/migration/storage.rs:112-141 | an uninterrupted activation starts in a layout that an interrupted one may be in too |
| StorageMoves.ActivatingIsRecoverable | src/migration/storage.rs:112-192 | every layout that an interrupted activation can leave can be restored |
| StorageMoves.CutoverIsUnique | src/migration/storage.rs:112-141 | the final layout does not depend on where earlier attempts died |
| StorageMoves.BackUpOriginals | src/migration/storage.rs:118-128 | afterwards every original database file is in the backup, under its identity |
| StorageMoves.MoveCaches | src/migration/storage.rs:135-138 | afterwards every cache is under its new key and nothing else has moved |
| StorageMoves.SwapJournal | src/migration/emergency.rs:39-62 | the emergency journal is replaced by the candidate, the original is in the backup |
| StorageMoves.CutOverDatabase | src/migration/storage.rs:112-134 | originals aside, candidate live, data directory under its new name |
| StorageMoves.Activate | src/migration/storage.rs:112-141 | from wherever an earlier attempt died: never refused, ends in the final layout within a bounded number of operations, every version restorable, conserved and framed |
| StorageMoves.RestorePlace | src/migration/storage.rs:167-190 | one file back home: whatever is live goes to quarantine, the original returns |
| StorageMoves.RestoreCaches | src/migration/storage.rs:150-160 | every cache back under its old key, nothing else moved |
| StorageMoves.RestoreData | src/migration/storage.rs:149-166 | the data directory is back under its old name |
| StorageMoves.RestoreDatabase | src/migration/storage.rs:167-190 | every database file is back under its original identity, or absent if there was none |
| StorageMoves.Restore | src/migration/storage.rs:143-192 | from any layout an interrupted activation, restoration or new service can leave: never refused, everything home, within a bounded number of operations |
| PublicationMoves.Publish | src/migration/publication.rs:53-65 | never refused from any split of staged and published assets; ends with all published, within a bounded number of operations |
| PublicationMoves.Unpublish | src/migration/publication.rs:67-93 | the inverse, in reverse order, from any split |
| PublicationMoves.RenameIdentity | src/migration/host.rs:154-183 | both accounts carry the requested name and their recorded number, from any mixture |
| RelocationStep.Relocate | src/migration/host.rs:291-298 | the whole step: never refused, bounded, every version recoverable, conserved and framed; completed means migrated, with the converted database and journal live |
| RelocationStep.Unrelocate | src/migration/host.rs:342-350 | a left inverse of every partial relocation, restartable: never refused, and completed means exactly the recorded tree below the root |
| JournalFile.SavingKeeps | src/migration/journal.rs:224-240 | an interrupted save leaves only versions that fit, if the saved state fits |
| JournalFile.Journal.Save | src/migration/journal.rs:224-240 | completed: the state is the only version; failed: the journal is poisoned and each version is the old one or the new one |
| JournalFile.Journal.Begin | src/migration/journal.rs:202-214 | refused exactly on poison, commit, rollback, a pending step or the wrong step; otherwise the intent is saved |
| JournalFile.Journal.Finish | src/migration/journal.rs:191-200 | refused exactly on poison, rollback or without the durable intent |
| JournalFile.Journal.Commit | src/migration/journal.rs:156-167 | refused exactly on poison, unless all steps are completed, none pending and no rollback runs |
| JournalFile.Journal.BeginRollback | src/migration/journal.rs:169-176 | refused exactly on poison or commit |
| JournalFile.Journal.RecordUndone | src/migration/journal.rs:177-186 | the pending step goes first, then the completed ones from the end |
| JournalFile.Journal.EndRollback | src/migration/journal.rs:187-189 | only the rollback mark changes |
| JournalFile.FoundFits | src/migration/journal.rs:101-117 | whatever a crash left, `open` accepts it and re-saving it disturbs nothing: recovery is never locked out |
| JournalFile.Open | src/migration/journal.rs:54-126 | refused exactly for a foreign identity or an invalid history; what was read is durable before it is used |
| FenceActions.InstallGuards | src/migration/fence.rs:43-62 | completed: all four units guarded and durable; interrupted: the invariant still holds |
| FenceActions.RemoveGuards | src/migration/fence.rs:64-75 | all guards gone, only where no boot could then start the wrong side |
| FenceActions.RestoreFence | src/migration/host.rs:123-131 | guards before table before permit: completed means guarded, sealed and permitted |
| FenceActions.ReleaseFence | src/migration/host.rs:133-145 | completed means table, guards and permit gone; interrupted anywhere it stays safe |
| SnapshotStep.CacheKeyIff | src/migration/storage.rs:21-24 | a cache key is the prefix and 64 hexadecimal digits of either case |
| SnapshotStep.CollectCaches | src/migration/storage.rs:63-80 | the collected moves are those whose source exists, each source once, under the target of its first entry in the plan and its identity, with free targets |
| SnapshotStep.CollectedKeysAreDistinct | src/migration/storage.rs:63-80 | with distinct targets no key of one move occurs in another |
| CachePlan.GoesThroughIff | src/migration/storage.rs:135-160 | every cache move is accepted if and only if the targets differ; then the moves can be taken back from wherever they stopped; otherwise they stop at the first repeated target and cannot be taken back |
| CachePlan.SharedTargetLocksOutRecovery | src/migration/storage.rs:63-80 | two existing caches planned for one key: no check of the collecting loop refuses them, and what it collects stops for good |
| SnapshotStep.InventoryIsPrepared | src/migration/storage.rs:81-87 | the inventory describes the tree it was taken from |
| SnapshotStep.TakeInventory | src/migration/storage.rs:27-88 | an inventory that describes the tree: every cache of the plan that exists, and which converted file replaces which original; refused only if a file is not as expected or a cache move is bad |
| SnapshotStep.Prepare | src/migration/host.rs:261-285 | completed: inventory and candidates are durable, the converted database waits for the database and the converted journal for the journal, and the tree is remembered as the origin |
| HostActions.StartUnits | src/migration/host.rs:299-305 | guarded units start only with the permit, and only the side that the journal allows; a failed start may leave any of them running |
| HostActions.ApplyFenceTraffic | src/migration/host.rs:221-227 | refused if a table exists, changing nothing; completed means guarded, fenced and permitted |
| HostActions.ApplyDrain | src/migration/host.rs:228-244 | completed means sealed, with the legacy agent healthy |
| HostActions.ApplyStopLegacyServices | src/migration/host.rs:245-260 | completed means that nothing runs |
| HostActions.ApplySnapshot | src/migration/host.rs:261-285 | completed means that the inventory is durable before anything moves, with the given converted files in their roles |
| HostActions.ApplyRelocate | src/migration/host.rs:291-298 | never refused; completed means migrated, with the converted files of the inventory live |
| HostActions.ApplyActivate | src/migration/host.rs:299-305 | completed means that the new agent runs behind the fence |
| HostActions.ApplyQualify | src/migration/host.rs:306-330 | never refused while the new agent runs |
| HostActions.UndoActivate | src/migration/host.rs:338-341 | completed means that nothing runs |
| HostActions.UndoRelocate | src/migration/host.rs:342-350 | never refused, since the inventory is on disk; completed means the recorded tree |
| HostActions.UndoStopLegacyServices | src/migration/host.rs:356-359 | completed means that the legacy agent runs behind the fence, over the tree it had |
| HostActions.UndoFenceTraffic | src/migration/host.rs:360-363 | refused exactly if the legacy agent does not run; completed means reachable, unguarded and without permit |
| Runner.RecordIntent | src/migration/runner.rs:18-19 | a step starts only after its intent is durable and everything before it is in place |
| Runner.RunStep | src/migration/runner.rs:18-24 | one turn: begun, applied, finished, with the next step ready; the transaction stays the same one, only legacy services write before the snapshot, the inventory names the given files; refused only by a standing table, a stopped legacy agent or an obstructed snapshot; bounded |
| Runner.RunToCommit | src/migration/runner.rs:16-26 | completed: all steps in order, then a durable commit, still fenced, new agent running; the same refusals; bounded |
| Runner.OpenTraffic | src/migration/host.rs:368-374 | only after the commit: old side disabled and new side enabled before any guard goes; never refused; completed means the new agent is reachable |
| Runner.UndoLast | src/migration/journal.rs:177-186 | the last begun step is undone and then recorded; refused exactly at the fence without a running legacy agent |
| Runner.UndoneStepsHadStarted | src/migration/journal.rs:177-186 | only the pending step is ever undone without having started |
| Runner.Rewind | src/migration/journal.rs:177-186 | the loop undoes all steps backwards within a bounded number of operations; refused exactly if nothing runs or will start the legacy agent; the legacy services meet the tree they had left |
| Runner.Recover | src/migration/journal.rs:169-189 | exact refusal; completed: no step outstanding, fresh journal, legacy agent reachable over the tree its services had left, unless nothing had begun; bounded |
| Runner.RecordedTreeIsMet | src/migration/host.rs:342-350 | a recovery after the snapshot, however many were interrupted before: the services meet the recorded tree up to what they wrote since, and exactly it if none of them ran since |
| Commands.Stage | src/migration/cli.rs:323-353 | staging is one rename: afterwards a complete transaction is on disk, before it none; services that write meanwhile do not spoil the plan |
| Commands.Migrate | src/migration/cli.rs:242-364 | refused without effect if a transaction, a destination or a table exists; otherwise refused only if the legacy agent is down or the snapshot is obstructed; completed means reachable and marked, with the given identity, release, keys and converted files: all assets published, data, accounts and every existing cache of the plan under their new names, every original kept in the backup; bounded |
| Commands.MigratedIsDelivered | src/migration/storage.rs:112-141 | the invariant after an opening amounts to just that, compared with the recorded tree |
| Commands.Withdraw | src/migration/cli.rs:205-217 | fence restored, rolled back, directory put aside; the legacy services meet the tree they had left; bounded |
| Commands.Archive | src/migration/cli.rs:212-216 | one rename ends the transaction; guards stay, and the tree stays but for what the services write meanwhile |
| Commands.RecoverCommand | src/migration/cli.rs:167-217 | with enough operations completed if and only if not hopeless; completed from level 1 on means reachable over the tree the legacy services had left, from level 0 sealed and guarded |
| Commands.OtherwiseThereIsHope | src/migration/host.rs:360-363 | without a handoff recovery before the commit is hopeless if and only if one or two steps are begun and the legacy agent does not run |
| Commands.PowerLossBeforeTheStopIsHopeless | src/migration/host.rs:356-363 | every power loss that keeps one or two begun steps and the guard of the legacy agent, or the completed first step, leads there, with any handoff |
| Commands.CheckpointIsRestored | src/migration/cli.rs:191-198 | where a handoff is allowed, every step from the snapshot on has been undone, the tree is what the legacy services left, and after a snapshot the recorded one up to their writes |
| Commands.SealedWithoutTransaction | src/migration/cli.rs:205-217 | after a recovery from level 0 nothing starts at boot and a new migration is refused |
| Commands.Resume | src/migration/cli.rs:218-239 | with enough operations completed if and only if committed and, once traffic was opened, the new agent runs; completed means reachable and marked |
| Commands.Happen | src/migration/cli.rs:154-364 | every command, power loss, service write and stopping unit keeps the invariant and an opening |
| Commands.Lifetime | src/migration/cli.rs:154-364 | over whole histories: the invariant, and once traffic was opened every version is committed |
| Commands.Retries | src/migration/cli.rs:205-217 | through any number of recoveries killed anywhere, power losses, service writes and stopping units after a snapshot: every version below it, or with no transaction left, is the recorded tree up to legacy writes; what the services left is exactly the recorded tree until one of them runs |
| Commands.LegacyApplianceIsSound | src/migration/appliance.rs:148-171 | the invariant holds before the first migration |
| Analytics.SumReplaced | src/spark/analytics.rs:260-275 | changing one request moves every total by the difference of its shares |
| Analytics.BeginBalances | src/spark/analytics.rs:256-257 | beginning a request keeps every daily row equal to recomputation |
| Analytics.RecordKeeps | src/spark/analytics.rs:269-273 | so does recording one, counter by counter |
| Analytics.RecomputedInterrupted | src/spark/analytics.rs:82-93 | closing all open requests moves recomputation exactly as the restart moves the rollup |
| Analytics.InterruptBalances | src/spark/analytics.rs:82-93 | the restart keeps the balance, also for requests already expired |
| Analytics.CleanupBalances | src/spark/analytics.rs:670-674 | expiry keeps the balance of all daily rows that stay |
| Analytics.ExpiryKeeps | src/spark/analytics.rs:670-674 | the history of requests after an expiry: counted for 365 days, kept for 90 |
| Analytics.RecordingKeeps | src/spark/analytics.rs:260-275 | a recording changes one entry of the history, the kept open request with that id |
| Analytics.RestartKeeps | src/spark/analytics.rs:82-93 | a restart closes every open request of the history, kept or expired |
| Analytics.Panel.Begin | src/spark/analytics.rs:238-259 | both tables or neither; refused exactly for a known id; the daily row of its group counts one more request, unknown and pending |
| Analytics.Panel.Record | src/spark/analytics.rs:260-275 | the first call for an open request stores exactly the given counts, outcome, error flag and times, cut at 63 bits, and moves each counter of its daily row as they say; repeats and unknown ids change nothing |
| Analytics.Panel.InterruptPending | src/spark/analytics.rs:82-93 | every open request is closed as interrupted with an error; what was pending in a daily row has failed with an error, nothing else changes |
| Analytics.Panel.Cleanup | src/spark/analytics.rs:670-674 | requests go after 90 days, daily rows and the history behind them after 365; the rest is unchanged |
| Analytics.BalancedIsSane | src/spark/analytics.rs:260-275 | pending, failed, unknown and long-context counts of a daily row never exceed what they are part of |
| Analytics.SummaryIsSane | src/spark/analytics.rs:327-374 | nor do those of the totals over any filter |
| Analytics.Summarize | src/spark/analytics.rs:327-374 | totals read from the daily rows equal the totals over the single requests that the filter admits, and are sane |
| Analytics.GroupHasRequest | src/spark/analytics.rs:238-259 | every daily row counts some request of its group |
| Analytics.ImportBalances | src/spark/analytics.rs:72-73 | seeding from older data starts balanced |
| Analytics.Replay | src/spark/sessions.rs:198-245 | over any sequence of begins, records, restarts and expiries the tables are those of the history that the statements alone define, and every daily row equals recomputation from it |
| Economics.CostIsDefined | src/spark/analytics.rs:568-598 | no step of the cost overflows; it is missing exactly if nothing is known, the tariff breaks elsewhere or the amount does not fit |
| Economics.ModelCostIsDefined | src/spark/analytics.rs:384-401 | the same of the totals of a model over any filter, whose sanity follows from the requests |
| Economics.TotalsPriceTheRequests | src/spark/analytics.rs:568-598 | before rounding, pricing the totals is pricing every request by its own tariff |
| Economics.SplittingCostsAtMostOne | src/spark/analytics.rs:384-401 | splitting usage changes the sum of costs by at most one unit |
| Economics.Equivalent | src/spark/analytics.rs:384-401 | a figure if and only if every model has one and the sum fits, and then the sum |
| Economics.Headline | src/spark/analytics.rs:376-401 | from the daily rows: exactly the models with a request that the query covers are priced, each once, and the figure is the sum of their costs, or none if one is missing |
| Economics.HeadlineIsClose | src/spark/analytics.rs:384-401 | the figure is what pricing every single request gives, less than one unit below per model |
| Texts.EncodedIsDecoded | src/generated_files.rs:346-349 | which can be read back, character by character |
| Texts.Utf8IsEncodedLength | src/generated_files.rs:129-133 | sizes are those of the UTF-8 encoding |
| ForeignLines.WithoutForeignAssignments | src/generated_files.rs:346-357 | the loop computes the filtered text |
| ForeignLines.KeptJoins | src/generated_files.rs:346-357 | the filter distributes over text that ends with a line |
| ForeignLines.KeptTwice | src/generated_files.rs:346-357 | the filter is idempotent |
| ForeignLines.DroppedLinesVanish | src/generated_files.rs:346-373 | a foreign line at any line boundary leaves no trace in the filtered text |
| Assignments.AssignmentIsForeignIff | src/generated_files.rs:359-373 | an assignment, however spaced, is foreign exactly if its key is a word of letters, digits and underscores other than the nine generated ones |
| Assignments.ForeignIff | src/generated_files.rs:359-373 | every line is judged by that alone |
| Assignments.OtherLinesStay | src/generated_files.rs:359-366 | blank lines, comments, table headers and lines that start with the sign are not foreign |
| Assignments.GeneratedAssignmentsStay | src/generated_files.rs:24-34 | an assignment to a generated key is not foreign, with or without spaces around the sign |
| Assignments.ProfileIsKept | src/spark/client.rs:213-217 | a profile of generated assignments, blank lines, comments and table headers is its own filtered text |
| GeneratedFiles.Claimed | src/generated_files.rs:144-161 | the loop goes through exactly if both files are absent, equal or owned; it claims old and new digests |
| GeneratedFiles.Publish | src/generated_files.rs:129-168 | exact refusal, without effect; with enough operations completed exactly if publishable; every version has each file old or new with a receipt that says so; completed means the payload alone is owned |
| GeneratedFiles.HalfwayIsOwned | src/generated_files.rs:162-167 | every intermediate state is owned, so a later publication or removal is accepted |
| GeneratedFiles.Remove | src/generated_files.rs:304-330 | exact refusal before the first deletion; with enough operations completed exactly if owned; completed means empty |
| GeneratedFiles.RemovingIsOwned | src/generated_files.rs:319-329 | every intermediate state of a removal is owned |
| GeneratedFiles.AddedLineIsOwnSetting | src/generated_files.rs:332-339 | adding a foreign line at a line boundary is an edit of the client's own settings |
| GeneratedFiles.SettingsToleratedIff | src/generated_files.rs:332-339 | all such edits stay owned if and only if the published text has no foreign line |
| GeneratedFiles.SettingsToleratedMidwayIff | src/generated_files.rs:144-161 | during an interrupted publication if and only if the profile had no foreign line or was made from the new text |
| GeneratedFiles.GeneratedProfileToleratesSettings | src/generated_files.rs:332-339 | so such a profile can be launched with, and tolerates every setting that the client adds |
| GeneratedFiles.ChangeAcceptedIff | src/generated_files.rs:144-161 | after a publication and one changed file the next publication is accepted exactly if the change is none, already the new text, or confined to foreign lines of the profile |
| GeneratedFiles.Use | src/generated_files.rs:129-168 | over launches and removals that die anywhere, power losses and polite client edits, in the middle of a publication too, nothing is ever refused, and what is not killed completes |
| Providers.ValidNameIff | src/generated_files.rs:182-186 | a provider name is the prefix and a word of at most 245 characters |
| Providers.ValidIncomingIff | src/generated_files.rs:196-219 | one to 128 tables with valid names, and no field but the seven listed |
| Providers.ListedClaimableIff | src/generated_files.rs:262-278 | a listed provider may be replaced by another table exactly if it is owned |
| Providers.Gather | src/generated_files.rs:258-282 | the loop goes through exactly if every table may be replaced; ledger and document are those of the specification |
| Providers.PublishProvider | src/generated_files.rs:172-302 | unacceptable input changes nothing; a concurrent change is never overwritten; with enough operations completed exactly otherwise, and then the merged document and a ledger with one digest per table |
| Providers.OwnershipSurvives | src/generated_files.rs:262-301 | at every crash point a provider that was owned is owned |
| Providers.RetryIsAcceptable | src/generated_files.rs:225-301 | and a repeated publication is acceptable |
| Providers.PendingIsLegible | src/generated_files.rs:232-245 | every ledger written has one or two digests per entry and at most 128 entries |
| Providers.OthersAreUntouched | src/generated_files.rs:258-301 | other providers and the rest of the document are unchanged in every version |
| Providers.UserTablesAreSafe | src/generated_files.rs:262-278 | a table that is neither owned nor equal is never replaced |
| ResponseEncoder.RecoveryRequest | src/spark/gateway.rs:1279-1300 | a continuation only for a reasoning-only stop with known usage, once, and within the remaining token budget |
| ResponseEncoder.AcceptedContinues | src/spark/gateway.rs:945-967 | accepted events continue the numbering; only the end adds an ending, and that comes last |
| Answers.EncodesMore | src/spark/gateway.rs:945-967 | an event is rejected exactly if it exceeds the byte limit; accepted, the encoder holds reasoning, text, tool calls and reason of all events so far |
| Answers.DoneIff | src/spark/gateway.rs:1236-1249 | the end is accepted exactly if every tool call has id, name and parsable arguments and the answer is not reasoning alone |
| Answers.RequestIff | src/spark/gateway.rs:1279-1300 | a continuation is requested exactly if the first stream stopped inside its reasoning with known usage and the request leaves room |
| Responses.Generation.Fail | src/spark/agent.rs:1731-1742 | one failure event, reported once, upstream released |
| Responses.Generation.Next | src/spark/agent.rs:1744-1826 | delivers in order and ends only after the ending; each call makes progress |
| Responses.Generation.Continue | src/spark/agent.rs:1762-1788 | at most one continuation; the usage of the first attempt is kept |
| Responses.Generation.RelayUsage | src/spark/agent.rs:1796-1808 | the reported usage is the saturating sum with the first attempt |
| Responses.Generation.Finish | src/spark/agent.rs:1809-1825 | always terminal; success exactly if the encoder accepts the end |
| Responses.Drain | src/spark/agent.rs:1744-1840 | for every upstream behaviour: success if and only if the streams together bring an acceptable answer to its end, a second stream if and only if the first stopped inside its reasoning with room left; the document then holds exactly what was said and the usage of all streams; at most two streams, consecutive numbers, one ending and that last, success and failure reported once and never both |
| Containers.VerifiedIsLabelled | src/migration/container.rs:90-146 | a verified container carries the label of its instance |
| Containers.ExactIff | src/migration/container.rs:88-118 | ids and digests are hexadecimal with their prefix and length, the engine name a short word |
| Containers.VerifiedIff | src/migration/container.rs:84-146 | a container is verified for an instance exactly if its identity is well formed and image, name and every label are those of the instance, running, with an allowed restart policy |
| Containers.DecimalIsValue | src/migration/container.rs:130-135 | a generation written into a name or label is that number |
| Containers.MatchIsBijection | src/migration/appliance.rs:422-425 | with distinct instances and equal numbers the match is one to one and onto |
| Containers.AccountableIff | src/migration/appliance.rs:378-416 | an instance is accounted for exactly if one container carries its label, and that one is exact, runs it and has an allowed restart policy |
| Containers.Account | src/migration/appliance.rs:378-425 | accounts if and only if each instance has exactly one labelled container, verified and running, and the numbers agree |
| Containers.AccountedForIff | src/migration/appliance.rs:422-425 | once accounted, every container belongs to an instance if and only if instance ids differ |
| Containers.AccountingIsComplete | src/migration/appliance.rs:378-425 | then every container belongs to an instance and runs it |
| Containers.Apply | src/migration/recovery.rs:18-60 | applied exactly if the host agrees, the numbers agree and every active instance has an approved, restarted replacement that the inventory verifies; all or nothing; only the container changes |
| Containers.HandoffIsComplete | src/migration/recovery.rs:18-60 | after a handoff every listed container belongs to exactly one instance |
| Containers.HandoffRuns | src/migration/recovery.rs:18-60 | after a handoff an instance runs as before, in a later generation |
| Images.LengthChecksAreSafe | src/spark/gateway_images.rs:232-234 | the checks on the text length reject no image within the byte limit |
| Images.CappedWriter.Write | src/spark/gateway_images.rs:345-357 | never more than the limit; a refused piece leaves no trace but the mark |
| Images.Encode | src/spark/gateway_images.rs:359-394 | succeeds exactly if the whole output fits, although it stops at the first piece that does not |
| Images.FindFit | src/spark/gateway_images.rs:310-337 | the first encoding, in order of size and format, that fits: all before it are too long, and without a result all are, down to one pixel or the last round, or an encoder broke |
| Images.ShareIsLeft | src/spark/gateway_images.rs:116-118 | a frame still to come always finds its whole share |
| Images.SharesFit | src/spark/gateway_images.rs:116-118 | the shares fit together; a frame gets the byte limit, or one byte more for each would not fit |
| Images.AttemptsAre | src/spark/gateway_images.rs:310-325 | the formats tried, in order |
| Images.DecodeImage | src/spark/gateway.rs:800-852 | exact acceptance of the strict check and its effect on the budget |
| Images.Retain | src/spark/gateway_images.rs:289-338 | the strict check never refuses what was prepared |
| Images.PrepareImage | src/spark/gateway_images.rs:214-338 | what becomes of a frame depends on the others only through the pixel count |
| Images.PrepareImages | src/spark/gateway_images.rs:102-212 | goes through if and only if the pixels together and every frame on its own fit; total bytes within the profile, text length known per frame |
| Images.WithinPolicyIsKept | src/spark/gateway_images.rs:289-291 | a frame within the profile and its share goes on unchanged |
| Images.AloneIsWithinPolicy | src/spark/gateway_images.rs:292-337 | any other ends within both or is refused |
| Images.FaultyFrameIsRefused | src/spark/gateway_images.rs:222-288 | a single faulty frame stops the request |
| Images.TextGoesThroughIff | src/spark/gateway_images.rs:41-81 | without images the limits decide |
| Images.NormalizeImages | src/spark/gateway_images.rs:72-212 | goes through if and only if limits, upload size, profile, count, pixels, every frame on its own and the rewritten body of 8 MiB fit |
| Images.OrderDoesNotMatter | src/spark/gateway_images.rs:102-120 | in any order the same requests go through |

## Left out

- Containers and networks inside the migration steps: stopping, removing and restoring them, and the qualification measurements, are operations that succeed or fail; only their identities are modelled, separately.
- Symbolic links, ownership, modes and devices of files: refusals on them appear as an entry that cannot be read, or not at all.
- The startup drop-in of fence.rs, `daemon-reload` and temporary files.
- FenceActions.InstallGuards: refuses nothing; a foreign file in the place of a guard is not modelled, since units carry a guard or none.
- FenceActions.RemoveGuards: refuses nothing, for the same reason.
- FenceActions.RestoreFence: refuses nothing; a foreign permit file is not modelled.
- Signatures, host identity, schema strings and expiry in `dispatch` and `Approval::verify`: one identity number stands for all of them.
- HostActions.ApplyDrain: the connection count and the five-minute deadline are one operation that may fail.
- HostActions.ApplyStopLegacyServices: a source or a configuration digest that changed, and the stopping of containers, are one operation that may fail.
- HostActions.ApplyQualify: health, the comparison with the baseline and the checks of the cleanup are one operation that may fail.
- HostActions.UndoActivate: an unaccounted container, and the removal of containers and networks, are one operation that may fail.
- Runner.OpenTraffic: the health of the new agent is an operation that may fail; what it measures is not modelled.
- Commands.RecoverCommand: the receipt of a handoff and its signature are not modelled; the check of the replaced containers is (Containers.Apply).
- SnapshotStep.Prepare: the contents of the converted database and journal are parameters.
- Analytics.Panel.Begin: the lookup of model, session and generation is done by the caller of the model; days are numbers.
- Analytics.Panel.Record: totals are unbounded integers; a sum above 63 bits, which SQLite would turn into a float, is not modelled.
- Economics.Headline: without the saturating count of unpriced requests and the list of comparisons, cut at 200.
- GeneratedFiles.Use: client edits are the tolerated ones of SettingsToleratedIff and SettingsToleratedMidwayIff; another edit is refused by Publish and Remove.
- Providers.PublishProvider: TOML text is a map of tables and a remainder; size and syntax of the output are a parameter.
- Responses.Generation.Next: the text of progress events, how many of them a piece of the answer gives, and output indices are left out; an observer is always present.
- Containers.Apply: the syntax of model repository and commit.
- Images.NormalizeImages: decoding and resizing are parameters, and so is the length of the request around the frames; message roles, data URIs and the projection of older images are not modelled.
- Other queries of the panel (health buckets, sessions, audit, paging) would add only easy members.
- The reconcile loop and its restart limit, HTTP routing, authentication, the command line, benchmarks and scripts.
- Nothing was executed; the model is checked by proof alone.
