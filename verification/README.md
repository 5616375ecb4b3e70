# codeagent-sync, verified

codeagent-sync keeps the configuration of Claude Code and Codex the same on
several machines. Every machine compares each entry three ways (its disk, a
shared object store, and what it recorded at the last sync), changes its disk,
and uploads with conditional writes. This project models that engine and the
code it rests on, and proves what the design promises of it: for every run,
every interleaving, every file.

Run `dafny verify dfyconfig.toml`.

## What is modelled

| file | of the program |
|---|---|
| Structured.dfy | the item-by-item three-way merge, its fingerprints and its retries |
| Plan.dfy | one key: the decision, the structured merge, what each action does here and in the store |
| Engine.dfy | the store and one machine's engine as objects, a round as their methods |
| Round.dfy, Outcomes.dfy | uncontended rounds: agreement and quiescence, and what becomes of every combination of contents, when the user is asked and when a round waits |
| Crash.dfy, Converge.dfy | crash recovery, convergence of any number of machines |
| Protocol.dfy, Safety.dfy | any number of machines in any interleaving of their steps, with edits, crashes, lost acknowledgements, conflicts settled by the user and vanishing objects; a history of every stored version |
| Progress.dfy | the protocol's steps do what a round does, and settle every conflict |
| Private.dfy, PrivateRuns.dfy, PrivateSteps.dfy | items held back or hidden on a machine, over whole runs and run by run |
| Layout.dfy | cancelled layout conflicts and the order of the disk actions |
| Backup.dfy | what a run records before it changes a path, and undo |
| Json.dfy, Toml.dfy, TomlText.dfy, TomlPlain.dfy | writing synced items into a file that also holds other things, and reading the text back |
| HomePath.dfy, HomeForms.dfy, HomeTail.dfy, HomePosix.dfy, HomeTokens.dfy, HomeAcross.dfy, HomeWindows.dfy | home directories in synced text, on POSIX and Windows |
| WebDav.dfy | listing a collection tree by Depth: infinity or by a walk |
| Hooks.dfy, Notice.dfy | installing the hooks, and what they tell the user once |

Methods follow the program where it changes things step by step (the engine,
the store, the backup set, the notice files are classes); each is proved equal
to a function of the old state, and the theorems are about those functions.

Where the code does less than a reader of its documentation may expect, the
exact condition is proved:

- A link that stands in the place of a structured file reads as a file without
  items. A merge may replace it with nothing set aside
  (`Safety.StructuredLinkIsReplaced`, with the instance
  `Safety.StructuredLinkLost`), and one that is deleted is forgotten rather
  than deleted or restored (`Round.RoundAgrees`).
- On a file system without an execute bit, a crash after the disk was written
  loses the bit that only the unsaved state knew, and one after a link was
  uploaded in the place of a structured file leaves that file's old base
  (`Crash.InterruptedRunRecovers`).
- A merge retried after a lost race is the direct merge exactly when the newer
  remote version keeps what the first merge took from the older one
  (`Structured.RetriedMergeIsDirect`).
- The portable form of a text is not stable on Windows for homes such as
  `C:\Users\c` (`HomeWindows.StableExactly`).
- Applying a file's own items changes it when `.claude.json` has no
  `mcpServers` (`Json.ServersGetPut`) and when `config.toml` has no item or an
  unfinished last line (`Toml.GetPut`).
- Removing the hooks does not undo installing them where an event of theirs
  held an empty list (`Hooks.RemoveUndoesInstall`), and installing twice moves
  such events unless they already stand where they would go
  (`Hooks.InstallTwiceExactly`, with the instance `Hooks.InstallTwiceMoves`).
- Undo may fail where a path was saved inside one saved earlier
  (`Backup.UndoSucceedsExactly`).
- With hidden items that differ from the synced ones, the recorded fingerprint
  is not the one the next scan shows (`Private.HeldNeverLookDeleted`).

## Model

| member | source | states |
|---|---|---|
| `Structured.BuildIndex` | internal/structured/structured.go:121-127 | the index of items by name, a later item replacing an earlier one |
| `Structured.Merge3` | internal/structured/structured.go:88-119 | the two loops compute the merged list and the conflicts, item by item |
| `Structured.MergeIsThreeWay` | internal/structured/structured.go:81-119 | every name gets the value of the one side that changed it, and no name appears twice |
| `Structured.ConflictsExactly` | internal/structured/structured.go:94-112 | a name is reported exactly when base, local and remote differ pairwise and the remote is not preferred |
| `Structured.ConflictsOnce` | internal/structured/structured.go:94-112 | and only once |
| `Structured.NoConflictsMeans` | internal/structured/structured.go:94-112 | nothing is reported exactly when no name differs pairwise on the three sides |
| `Structured.MergeIsSymmetric` | internal/structured/structured.go:81-119 | without conflicts, swapping the two machines gives the same values |
| `Structured.MergeIsAFixedPoint` | internal/structured/structured.go:81-119 | merging a conflict-free result again, with or as either side, changes nothing |
| `Structured.MergeKeepsOrder` | internal/structured/structured.go:86-118 | local order first, remote additions after it, each in its own order |
| `Structured.MergedAsWritten` | internal/structured/structured.go:88-119 | every item of a merge stands as one side wrote it, as this machine did wherever both say the same |
| `Structured.LastCounts` | internal/structured/structured.go:121-127 | of items with the same name the last one counts |
| `Structured.RetriedMergeIsDirect` | internal/engine/apply.go:45-58 | a merge of the merge with a newer remote has the values and conflicts of the direct merge if and only if the newer remote keeps what the first merge took from the older one |
| `Structured.FingerprintIdentifies` | internal/structured/structured.go:70-79 | equal fingerprints mean the same value for every name, and conversely |
| `Plan.MergePlanned` | internal/engine/structured.go:124-163 | a merge that is carried out has no conflict and no name twice, against the base or, at a first sync, against nothing; that it is carried out whenever it can be: `Outcomes.MergeIsCarriedOut` |
| `Plan.SettleSays` | internal/engine/structured.go:148-155 | a merge becomes a download exactly when the result is the remote's, an upload only when it is the local one's |
| `Plan.PlanKeyRests` | internal/engine/structured.go:124-182 | every planned action, after merging and protection, overwrites only what is synced, set aside, or absorbed in the result, and a structured file is never deleted |
| `Round.PlanGrounded` | internal/engine/apply.go:159-201 | with nobody else writing, every planned upload meets its condition |
| `Round.NothingPlanned` | internal/engine/plan.go:82-83 | nothing is planned if and only if neither side changed since the recorded state |
| `Round.ForgottenLink` | internal/engine/structured.go:171-182 | exactly when an object is forgotten although it is still there: a link deleted at a structured key |
| `Round.PlanLands` | internal/engine/apply.go:43-91 | an action carried out alone keeps state, disk and store sound and, unless left to the user, brings them in step |
| `Round.RoundAgrees` | internal/engine/apply.go:26-94 | after an uncontended round that asked nothing, disk and store hold the same, if and only if no structured link was deleted |
| `Round.Quiescent` | internal/engine/plan.go:69-71 | in step, the next round decides nothing, or one record when the write's ETag was not reported; neither side changes and nothing is left to decide |
| `Outcomes.SameMeans` | internal/engine/plan.go:164-177 | comparing hashes comes to comparing contents: bytes, items, link targets, and the execute bit where there is one |
| `Outcomes.NothingToDo` | internal/engine/plan.go:76-162 | nothing is decided about an entry if and only if its content is as it was synced and the listing names the very version, by an ETag that was reported |
| `Outcomes.NeverSynced` | internal/engine/plan.go:76-162 | nothing is decided about a key never synced if and only if it is neither here nor listed |
| `Outcomes.FetchedExactly` | internal/engine/engine.go:268-327 | which objects are read: those the state does not name, and those of structured files deleted here |
| `Outcomes.PendingExactly` | internal/engine/plan.go:103-126 | a key waits for the user if and only if, at a first sync that may not upload, something here was never synced and the store has nothing or a tombstone |
| `Outcomes.FirstUpload` | internal/engine/plan.go:103-126 | such a key is left alone on both sides; every other one that only this machine has is uploaded at once |
| `Outcomes.OneSideChanged` | internal/engine/plan.go:76-138 | a side that alone changed is taken over by the other, deletions included |
| `Outcomes.BothSidesChanged` | internal/engine/plan.go:76-138 | of two changed sides, an entry wins over a deletion, equal ones are taken as synced, a first sync brings the stored one and sets this machine's aside, and else both stay and the user is asked |
| `Outcomes.DownloadIsWritten` | internal/engine/apply.go:211-286 | what comes here is written as stored, but for a bit the file system does not have; the state keeps the bit and names the version |
| `Outcomes.UploadsKeepTheBit` | internal/engine/apply.go:159-207 | an upload carries the execute bit of the file, or the bit last synced where the file system has none |
| `Outcomes.BitComesThrough` | internal/engine/apply.go:159-286 | so an executable file that was downloaded and edited where there is no bit is executable when it is uploaded |
| `Outcomes.OneRoundIsEnough` | internal/engine/apply.go:43-93 | where ETags are reported, one round that asks nothing leaves the next one nothing to decide, but for a deleted structured link |
| `Outcomes.ConflictExactly` | internal/engine/structured.go:124-163 | of a structured file changed on both sides to different contents, the user is asked if and only if it was synced before and some item differs pairwise on base, disk and object |
| `Outcomes.AskedExactly` | internal/engine/structured.go:124-163 | of any key: if and only if an entry that was synced was changed here and there, is not the same, and is no structured file whose changes touch different items |
| `Outcomes.MergeIsCarriedOut` | internal/engine/structured.go:124-163 | whenever the user is not asked, disk and object both end with every item as the side that changed it has it; at a first sync the stored items win and a file that changes is set aside |
| `Outcomes.LostMergeIsRetried` | internal/engine/apply.go:45-58 | a merge whose upload lost its race to a version that kept what it had taken over ends in the next round as the merge of the original file with that version |
| `Outcomes.StructuredStays` | internal/engine/structured.go:165-182 | no round deletes a structured file, here or in the store |
| `Outcomes.DeletedHereComesBack` | internal/engine/structured.go:165-182 | one deleted here comes back from the store |
| `Outcomes.DeletedThereComesBack` | internal/engine/structured.go:165-182 | one deleted elsewhere is stored again, unless it waits for the user |
| `Outcomes.StructuredGoesOver` | internal/engine/plan.go:76-138 | one changed on one side only goes to the other |
| `Outcomes.GoneHasNoBase` | internal/engine/apply.go:61-122 | what is gone or never synced leaves no base behind |
| `Crash.Recognized` | internal/engine/plan.go:98-99 | content both sides already share is only recorded, whatever the saved state says |
| `Crash.InterruptedRunRecovers` | internal/engine/apply.go:43-93 | stopped before or after the disk change or the upload of a key, the next round reaches the disk, object, state and base of the uninterrupted one; the state except for the execute bit exactly where the file system has none, the base except exactly where a link took the place of a structured file |
| `Crash.InterruptedRunsRecover` | internal/engine/apply.go:26-94 | so for a whole run, whatever it had done with each key by then |
| `Crash.RoundKeepsBase` | internal/engine/apply.go:106-122 | the base kept for merges stays what the state says was synced |
| `Converge.CleanRound` | internal/engine/plan.go:76-138 | a machine with no change of its own stores nothing in its round |
| `Converge.FleetConverges` | internal/engine/engine.go:146-181 | any number of machines syncing in turn: after one pass that asked nothing, a second stores nothing, all hold the same entry, and a third at most records an ETag |
| `Engine.MemStore.Put` | internal/storage/memstore/memstore.go:46-67 | a write fails exactly when its If-Match or If-None-Match condition does, and then changes nothing; else it stores under a new ETag |
| `Engine.MemStore.Get` | internal/storage/memstore/memstore.go:69-80 | the stored object with its ETag, or not found |
| `Engine.MemStore.List` | internal/storage/memstore/memstore.go:96-110 | exactly the stored keys with the prefix, each with its ETag |
| `Engine.MemStore.constructor` | internal/storage/memstore/memstore.go:42-44 | an empty store |
| `Engine.Machine.constructor` | internal/engine/state.go:55-76 | a machine that never synced |
| `Engine.Machine.FetchAll` | internal/engine/engine.go:268-318 | reads exactly the objects a decision depends on |
| `Engine.Machine.PlanAll` | internal/engine/engine.go:341-437 | the loop over disk, listing and state decides every key, filtered by the run's direction |
| `Engine.Machine.ApplyAll` | internal/engine/apply.go:43-78 | the disk part of a run, key by key, touches no other key |
| `Engine.Machine.UploadOne` | internal/engine/apply.go:159-207 | one conditional write and the state it leaves; a lost race changes nothing |
| `Engine.Machine.UploadAll` | internal/engine/apply.go:126-156 | the uploads in any order; a retry is asked for exactly when one lost its race |
| `Engine.Machine.PlanRound` | internal/engine/engine.go:183-235 | listing, reading and deciding together choose each key's action, and tell the keys that wait and those in conflict; when a key waits: `Outcomes.PendingExactly` |
| `Engine.Machine.Sync` | internal/engine/engine.go:183-242 | the whole round changes every key on both sides as the per-key round says, every object written gets a new ETag, a retry is asked for exactly when an upload is refused, and the machine is settled unless something waits or it only pulled; it reports exactly the keys that wait and, unless it only pushes, exactly those in conflict, told by disk, state, base and store; a pull leaves the store as it is and a push the disk; from a machine in order no upload is refused, it stays in order, and a round in both directions leaves disk, state and store in step for every key that asked nothing, but for a deleted structured link |
| `Engine.OneWayDoesTheRest` | internal/engine/engine.go:519-529 | a run in one direction does for a key what one in both directions does, or nothing, exactly where that would change the other side |
| `Engine.OrderStartsAndStays` | internal/engine/state.go:55-76 | a key never synced is in order, and what other machines write keeps a key in order |
| `Safety.NoLostUpdate` | internal/engine/apply.go:195-199 | in every reachable state, every version replaced the one right before it, its writer had read or written that one, and had it as last synced, or it was a deletion, or every item in which it differs from the list the writer merged against is kept, or the user decided; that list, fixed when the write was planned, is what an earlier version says, or empty |
| `Safety.VersionsFormOneChain` | internal/engine/plan.go:76-138 | the versions of a key form one chain as long as nobody outside removes the object |
| `Safety.NoEditDestroyed` | internal/engine/apply.go:211-286 | whatever step of whatever run changes a machine's entry, the old content is a stored version, was set aside, or every item changed since this machine's own base, deletions included, is in what replaced it; and that base is what a stored version says |
| `Safety.StructuredLinkIsReplaced` | internal/engine/structured.go:124-163 | exactly when a link in the place of a structured file is replaced without a copy |
| `Safety.StructuredLinkLost` | internal/engine/structured.go:124-163 | an instance of that |
| `Safety.StepKeeps` | internal/engine/apply.go:26-94 | every step of every machine keeps the protocol's invariant |
| `Safety.RunHolds` | internal/engine/engine.go:146-181 | so it holds in every reachable state |
| `Safety.PutKeeps` | internal/engine/apply.go:159-207 | a stored, perhaps unacknowledged upload keeps it |
| `Safety.ApplyLocalKeeps` | internal/engine/apply.go:43-78 | the local part of a run, for any subset of the keys, keeps it |
| `Safety.ResolveKeepKeeps` | internal/engine/resolve.go:79-97 | settling a conflict with this machine's version keeps it |
| `Safety.ResolveTakeKeeps` | internal/engine/resolve.go:98-112 | settling it with the other version keeps it |
| `Safety.ResolveKeepPublishes` | internal/engine/resolve.go:79-97 | settling with this machine's version leaves its disk alone and stores what is on it, in the place of the version that was read; the state describes both and the base, if saved, is what was stored |
| `Safety.ResolveTakeBrings` | internal/engine/resolve.go:98-112 | settling with the other version writes what was read and stores nothing; the state describes that version and names its ETag |
| `Progress.ReachableIsSound` | internal/engine/engine.go:146-181 | in every reachable state every key of every machine is as the theorems on rounds ask |
| `Progress.RoundInSteps` | internal/engine/engine.go:183-242 | from there the steps of one machine, nobody else writing, lead to what the per-key round says |
| `Progress.ConflictIsSettled` | internal/engine/resolve.go:23-112 | every conflict a round would report can be settled either way in two steps, after which disk and store hold the same and nothing is left to decide |
| `Progress.OnlyDifferencesAreSettled` | internal/engine/resolve.go:74-77 | settling is refused where nothing differs |
| `Progress.StopsAfterLocalPart` | internal/engine/apply.go:26-94 | a run of the protocol that stops after its local part leaves a key as it was or as an interrupted run of Crash with its file written |
| `Progress.StopsAfterPut` | internal/engine/apply.go:126-207 | one that stops after a write was stored, acknowledged or not, leaves it as an interrupted run with its object stored, which the next round completes |
| `Progress.StepsTouch` | internal/engine/apply.go:26-94 | which steps may change a store, a saved state and a base; no step drops what was set aside |
| `Private.HeldNames` | internal/structured/structured.go:139-154 | held are exactly the items that cannot be used here and those nested below one, each with the reason of such an item |
| `Private.Pin` | internal/structured/hidden.go:53-69 | hidden items as last synced, the others as they are here |
| `Private.WithHeld` | internal/engine/structured.go:93-119 | held items absent from the file are taken from the base |
| `Private.ScanSays` | internal/engine/structured.go:66-119 | what a scan says about a name: the base's value for hidden and for held absent items, the file's own otherwise |
| `Private.WriteStructured` | internal/engine/structured.go:214-272 | the file written, the items recorded and the names held |
| `Private.WrittenSays` | internal/structured/hidden.go:35-47 | writing leaves hidden and held names as the file has them and gives all others the synced value |
| `Private.HeldNeverLookDeleted` | internal/engine/structured.go:252-271 | the next scan gives the recorded fingerprint if and only if no hidden item differs from its synced version |
| `PrivateRuns.PlanUploads` | internal/engine/structured.go:124-163 | for a name the machine does not speak for, every upload carries the value of the version it replaces |
| `PrivateRuns.StepKeeps` | internal/engine/apply.go:211-286 | the base says what the version named by the state says, whoever takes the step |
| `PrivateRuns.HiddenNeverCross` | internal/engine/structured.go:63-83 | in any interleaving, a stored upload leaves every hidden item, and every one held back here, as the live version it replaces has it |
| `PrivateRuns.HiddenStaysHere` | internal/structured/hidden.go:30-47 | no download or merge changes a hidden value on this machine |
| `PrivateRuns.HeldItemsStay` | internal/engine/structured.go:90-119 | through every step that leaves the item alone, downloads and merges of other changes to its file included, a held item stays held, and every upload on the way carries it as last synced; only a change of the item, its release or giving up the file ends it |
| `PrivateRuns.HeldFromDownload` | internal/engine/structured.go:214-272 | a download that holds an item back starts that |
| `PrivateRuns.ReleasedIsWritten` | internal/engine/structured.go:184-210 | an item that can be used now is written into the file as last synced, by a run with nothing else to do |
| `PrivateSteps.RunWrites` | internal/engine/structured.go:214-272 | a run writes all synced items into the file but the hidden and the held ones, which stay as they are there |
| `PrivateSteps.OwnChangesStay` | internal/engine/structured.go:124-163 | no run undoes a change of an item made here since the last sync, releases included |
| `PrivateSteps.HeldStaysBack` | internal/engine/structured.go:87-119 | whatever a run uploads, an item held back and absent here stays in the store as it is |
| `PrivateSteps.DownloadedLooksSynced` | internal/engine/apply.go:211-286 | after a download the file looks as synced if and only if its hidden items are as the synced ones |
| `PrivateSteps.UploadedLooksSynced` | internal/engine/apply.go:159-207 | an upload stores what the scan showed, and the file then looks as synced |
| `PrivateSteps.MergedLooksSynced` | internal/engine/apply.go:159-286 | a merge stores what was merged, and the file then looks as synced if and only if its hidden items do |
| `PrivateSteps.RecordedLooksSynced` | internal/engine/apply.go:104-122 | recorded content looks as synced, and recording an absence drops base and held names |
| `Layout.FinalLayout` | internal/engine/plan.go:184-200 | what would lie at each key after the plan |
| `Layout.CancelBelow` | internal/engine/plan.go:204-209 | the climb over one key's ancestors records it with every occupied one |
| `Layout.LayoutConflicts` | internal/engine/plan.go:184-212 | a key is cancelled if and only if its final entry and another's would be nested; it is explained by an entry it would lie in, or by itself where one would lie in it |
| `Layout.CancelledExactly` | internal/engine/plan.go:184-212 | told by the entries the run would leave: written live ones, and those here it does not remove |
| `Layout.EntryKeysHave` | internal/engine/plan.go:204-209 | the climb ends above the keys of entries, which name a version, a root and a path |
| `Layout.LessIsBytewise` | internal/engine/plan.go:230-239 | keys are ordered by their first different bytes |
| `Layout.SortForApply` | internal/engine/plan.go:217-240 | a permutation in which no action comes after one it belongs before |
| `Layout.OneSortedOrder` | internal/engine/plan.go:217-240 | whatever order the actions come in, the sorted order is one and the same |
| `Layout.PlanSteps` | internal/engine/engine.go:419-436 | the steps of a run are exactly the uncancelled, allowed actions, sorted |
| `Layout.PlannerKeepsPromises` | internal/engine/plan.go:76-138 | every action of the planner writes a live entry or removes an existing one |
| `Layout.NeverCancelled` | internal/engine/plan.go:196-198 | no removal is ever cancelled |
| `Layout.TreeAtEveryStep` | internal/engine/plan.go:179-240 | from a disk that is a tree, every prefix of a run leaves a tree, in every direction of syncing |
| `Layout.RunLeaves` | internal/engine/engine.go:419-436 | in the end each key holds the result of its own action, or what it held if it had none, was cancelled or goes the other way |
| `Layout.OrderOfSteps` | internal/engine/plan.go:214-240 | removals precede writes, inner removals outer ones, files links, and all else comes last; files go by their keys |
| `Backup.BackupSet.Save` | internal/engine/backup.go:68-101 | records what the path holds, or fails and records nothing |
| `Backup.BackupSet.RestoreAll` | internal/engine/backup.go:216-229 | the backward loop restores every saved path up to the first that fails |
| `Backup.RestoredAsSaved` | internal/engine/backup.go:231-243 | a restored path and everything below it is what it was, all else untouched |
| `Backup.RestoreUndoes` | internal/engine/backup.go:216-243 | from any disk that differs only at or below saved paths, a complete restore gives the disk before the first save |
| `Backup.UndoIsExact` | internal/engine/backup.go:197-229 | undo inverts any interleaving of saves and changes, nested paths included |
| `Backup.UndoSucceedsExactly` | internal/engine/backup.go:216-229 | every run that saves given paths can be undone if and only if no path was saved inside one saved before it |
| `Backup.UndoWorksBack` | internal/engine/backup.go:192-229 | undoing run after run, newest first, gives the disk before the first run |
| `Backup.FindBackup` | internal/engine/backup.go:270-291 | the newest set not undone, or the named one, or why there is none |
| `Backup.Undo` | internal/engine/backup.go:197-213 | only a set whose paths were all put back is marked as undone |
| `Json.MergeMembers` | internal/structured/json.go:132-155 | the two loops compute the merged members; their texts: `Json.TextsFollowValues` |
| `Json.PutGet` | internal/structured/json.go:132-155 | reading back gives the file's value for the names kept and the synced one for all others |
| `Json.GetPut` | internal/structured/json.go:132-155 | writing a file's own items changes nothing, not even the text |
| `Json.UnchangedStay` | internal/structured/json.go:140-149 | a member kept or unchanged stays as written |
| `Json.MembersKeepOrder` | internal/structured/json.go:130-155 | the file's order first, new names after it in the synced order |
| `Json.TextsFollowValues` | internal/structured/json.go:101-155 | every member written is one of the file as it was, kept or with the synced value, or has the synced value and its indented text |
| `Json.TextsSayValues` | internal/structured/json.go:101-155 | so reading the text of every member gives its value |
| `Json.FailsExactly` | internal/structured/json.go:194-257 | reading fails exactly on a first mcpServers that is no object, writing on any |
| `Json.Project` | internal/structured/json.go:194-209 | the members of mcpServers, none without it, an error if it is no object |
| `Json.Apply` | internal/structured/json.go:218-257 | merged servers in the place of the last mcpServers, or at the end; an error if one is no object |
| `Json.OthersStay` | internal/structured/json.go:250-257 | every other top-level member stays, in place |
| `Json.ServersPutGet` | internal/structured/json.go:218-257 | with one mcpServers at most (section 4 of RFC 8259), reading back the servers gives own values for the names kept and synced ones for the others |
| `Json.ServersGetPut` | internal/structured/json.go:218-257 | writing the own servers changes nothing if and only if the file has mcpServers |
| `Toml.ReadExprs` | internal/structured/toml.go:74-141 | the loop with its two cursors groups expressions into items and their fields |
| `Toml.SplitToml` | internal/structured/toml.go:74-164 | the items with their texts and fields; an error exactly when a name is defined twice |
| `Toml.ItemsAreTheFile` | internal/structured/toml.go:147-158 | the texts of the items joined are the file, comments included |
| `Toml.SplitArranged` | internal/structured/toml.go:74-164 | top-level keys come before tables, texts are whole lines, fields lie inside in order |
| `Toml.ProjectText` | internal/structured/toml.go:192-204 | an item's text without the keys of this machine |
| `Toml.Project` | internal/structured/toml.go:215-233 | the synced items, or the first whose value cannot be read |
| `Toml.PutOwnFields` | internal/structured/toml.go:325-342 | this machine's keys put after the header |
| `Toml.OwnFieldsComeOff` | internal/structured/toml.go:192-204 | taking them off again gives the synced text |
| `Toml.OwnFieldsStay` | internal/structured/toml.go:325-342 | they stand in the written text as they were |
| `Toml.Apply` | internal/structured/toml.go:249-284 | the loops write kept, unchanged, rewritten and new items, top-level keys first |
| `Toml.ApplyOwn` | internal/structured/toml.go:249-284 | applying a file's own items gives the file with its last line ended, or nothing if it has no item |
| `Toml.GetPut` | internal/structured/toml.go:249-284 | so nothing changes if and only if the file is empty, or has an item and ends its last line |
| `Toml.LocalSaysOf` | internal/structured/toml.go:267-279 | what reading the written text comes to for an item of the file |
| `TomlText.SplitsInto` | internal/structured/toml.go:74-164 | texts put together split into their items again, each with the comments that wait below the item before it |
| `TomlText.TextIsAccepted` | internal/structured/toml.go:249-284 | the text put together has every expression on lines of its own and defines no name twice |
| `TomlText.PutGetText` | internal/structured/toml.go:249-284 | reading the text that was written: nothing for what is not synced, own values for the names kept, synced values for all others |
| `TomlText.Render` | internal/structured/toml.go:235-245 | the loop puts the items together, top-level keys first |
| `TomlText.ParseRendered` | internal/structured/toml.go:215-247 | what one machine renders, another parses to the same values, with no item lost or added |
| `Toml.UnsyncedStays` | internal/structured/toml.go:37-50 | every part that belongs to this machine is written as it was, in order |
| `TomlPlain.SyncedExactly` | internal/structured/toml.go:37-50 | which items are synced: all but trusted projects, the Desktop app, approved hooks and approved MCP tools |
| `TomlPlain.OneKeyLine` | internal/structured/toml.go:52-54 | of a marketplace, all lines but its update bookkeeping |
| `TomlPlain.CommentsAreKept` | internal/structured/toml.go:299-323 | comments above an item stay unless the synced version brings its own |
| `TomlPlain.TablesOpenWithABracket` | internal/structured/toml.go:356-368 | an item is a table exactly when its first line below blank and comment lines opens with a bracket |
| `TomlPlain.OwnKeysGoBelowTheHeader` | internal/structured/toml.go:325-355 | this machine's keys stand right below the header line |
| `TomlPlain.OwnKeysComeFirst` | internal/structured/toml.go:325-355 | and first where there is none |
| `TomlPlain.NewTablesStandApart` | internal/structured/toml.go:249-284 | a table new to the file stands below a blank line, or first |
| `TomlPlain.EachIsWrittenFrom` | internal/structured/toml.go:249-284 | everything written is an item of the file as it is, or has the text of the synced one, and stands among the tables exactly when that is one |
| `TomlPlain.RenderedIs` | internal/structured/toml.go:235-245 | the synced form is the texts of all top-level keys and then of all tables, each with its last line ended |
| `TomlPlain.HeaderStarts` | internal/structured/toml.go:74-141 | a header starts an item, told from the table of the same name if it is one of an array |
| `TomlPlain.BlocksAreOneItem` | internal/structured/toml.go:74-141 | blocks of one array that follow each other are one item, whatever keys and comments lie between |
| `TomlPlain.KeysStayInside` | internal/structured/toml.go:74-141 | keys below a header are its fields and start no item |
| `TomlPlain.TopLevelKeys` | internal/structured/toml.go:74-141 | before any table every key is an item |
| `HomePath.Index` | internal/homepath/homepath.go:195-209 | the first match from a position on, or none |
| `HomePath.Replace` | internal/homepath/homepath.go:172-193 | the cursor loop replaces every match that is a whole path component |
| `HomePath.ToPortable` | internal/homepath/homepath.go:117-122 | the forms are replaced one after the other |
| `HomePath.ToLocal` | internal/homepath/homepath.go:127-153 | the cursor loop expands every placeholder, on POSIX with the rest of its path; what that rest becomes: `HomeTail.WindowsPathResolves` |
| `HomePath.AppendPosixTail` | internal/homepath/homepath.go:216-235 | the loop over the path after a Windows placeholder computes the expanded rest and its length |
| `HomeTail.WindowsPathResolves` | internal/homepath/homepath.go:216-246 | components that follow a Windows placeholder, joined by backslashes, follow the home on a POSIX machine, joined by slashes, up to the first character that ends a path |
| `HomeTail.EscapedPathResolves` | internal/homepath/homepath.go:216-246 | the same for escaped text, where separators are doubled, a space does not end a path and a lone backslash does |
| `HomePath.New` | internal/homepath/homepath.go:68-92 | the spellings of a home directory, longest first, and what placeholders expand to |
| `HomeForms.KnownExactly` | internal/homepath/homepath.go:68-92 | known are exactly the spellings of the home directory and of every alias |
| `HomeForms.SortedLongestFirst` | internal/homepath/homepath.go:68-92 | longer spellings are looked for first, and none is lost |
| `HomeForms.ValidExactly` | internal/homepath/homepath.go:172-268 | a home is recognized by equal bytes, on Windows in either case, with no name byte before or after |
| `HomeForms.HomeIsReplaced` | internal/homepath/homepath.go:172-193 | where a home first stands as a whole it becomes the placeholder |
| `HomeForms.OtherTextStays` | internal/homepath/homepath.go:172-193 | a text in which it stands nowhere is unchanged |
| `HomeForms.WindowsSpellings` | internal/homepath/homepath.go:94-115 | the four spellings of a drive-letter home, and what the three placeholders expand to |
| `HomeForms.SeparatorsDoNotMatter` | internal/homepath/homepath.go:94-115 | however its separators are written, and whatever separators end it |
| `HomePosix.NewPosix` | internal/homepath/homepath.go:68-92 | a POSIX machine without aliases has one spelling, or none at the root |
| `HomePosix.RoundTrip` | internal/homepath/homepath.go:117-153 | for every home, text without the placeholder prefix returns byte for byte |
| `HomeTokens.PassOnText` | internal/homepath/homepath.go:172-193 | replacing in a text is replacing in the document behind it, where matches are literal or whole homes |
| `HomeTokens.ExpandDoc` | internal/homepath/homepath.go:127-153 | expanding a portable text expands exactly its homes |
| `HomeTokens.RunComesFrom` | internal/homepath/homepath.go:172-193 | a pass creates no literal text that was not there |
| `HomeAcross.SecondMachineAgrees` | internal/homepath/homepath.go:117-153 | a second machine gives back the first one's portable form, unless its own home stands in the text |
| `HomeWindows.NewWindows` | internal/homepath/homepath.go:98-115 | a drive-letter home has four spellings, the escaped one first |
| `HomeWindows.FormMatches` | internal/homepath/homepath.go:172-209 | in an expanded document a spelling matches only itself, whole |
| `HomeWindows.PortableFormIsStable` | internal/homepath/homepath.go:117-153 | making portable, expanding and making portable again changes nothing |
| `HomeWindows.StableExactly` | internal/homepath/homepath.go:98-153 | that holds for every text if and only if the home does not end in its drive letter |
| `HomeWindows.NotStableOnCounterexample` | internal/homepath/homepath.go:172-193 | the text on which it fails otherwise |
| `WebDav.ListRecursive` | internal/storage/webdav/webdav.go:288-326 | on any finite server the walk ends, asks each reachable collection once, lists what they answer, and fails exactly when one of them does |
| `WebDav.ReadResponses` | internal/storage/webdav/webdav.go:312-323 | objects are listed and collections queued, in order |
| `WebDav.CollectObjects` | internal/storage/webdav/webdav.go:365-378 | the objects of an answer, without collections and what lies outside |
| `WebDav.WalkCoversTree` | internal/storage/webdav/webdav.go:288-326 | on a tree, self references included, the collections asked are those at or below the start |
| `WebDav.WalkListsAll` | internal/storage/webdav/webdav.go:288-326 | and each object below it is listed exactly once |
| `WebDav.WalkEqualsInfinity` | internal/storage/webdav/webdav.go:286-378 | as a multiset, what the infinite answer lists |
| `WebDav.List` | internal/storage/webdav/webdav.go:239-273 | every object with the prefix, exactly once, from a server that answers Depth: infinity and from one that refuses it; another error of the first request is reported |
| `WebDav.StartsAt` | internal/storage/webdav/webdav.go:239-246 | a listing starts at the directory of its prefix |
| `WebDav.OneMoreResponse` | internal/storage/webdav/webdav.go:312-378 | an entry of an answer adds its object with its ETag and size, or its collection, and nothing if it lies outside |
| `Hooks.WithoutGroups` | internal/hooks/hooks.go:362-382 | an event's groups without our handlers, and whether any had one |
| `Hooks.WithoutEvents` | internal/hooks/hooks.go:355-392 | the events without them, or the first that is no list of groups |
| `Hooks.Install` | internal/hooks/hooks.go:134-158 | the file with our hooks, each at the end of its event |
| `Hooks.Remove` | internal/hooks/hooks.go:161-161 | the file without them |
| `Hooks.RemovedIsClean` | internal/hooks/hooks.go:353-392 | nothing of ours is left, and removing again changes nothing |
| `Hooks.OursAreOurs` | internal/hooks/hooks.go:40-44 | the hooks added hold nothing but our handlers, one an event |
| `Hooks.OursWritten` | internal/hooks/hooks.go:39-44 | the three hooks, their events and the one matcher |
| `Hooks.OursComeLast` | internal/hooks/hooks.go:134-158 | after an installation each is the last group of its event |
| `Hooks.NothingOfOursLeft` | internal/hooks/hooks.go:353-392 | after a removal no handler of ours is in any group |
| `Hooks.FailsExactly` | internal/hooks/hooks.go:269-314 | a file is refused exactly when its hooks are no object or hold an event that is no list |
| `Hooks.RemovedFileHas` | internal/hooks/hooks.go:282-314 | what is left of the hooks stands where they stood; without any left the member goes |
| `Hooks.RemoveUndoesInstall` | internal/hooks/hooks.go:134-161 | removing after installing is removing, if and only if no event of ours was left with an empty list |
| `Hooks.InstallTwice` | internal/hooks/hooks.go:134-158 | installing twice is installing once where no event of ours was left with an empty list |
| `Hooks.InstallTwiceExactly` | internal/hooks/hooks.go:134-158 | where the events have distinct names: if and only if those left with an empty list come last, in the order of our hooks and before every hook that has no event |
| `Hooks.RemovalKeepsDistinct` | internal/hooks/hooks.go:353-392 | taking ours out leaves the names of the events distinct |
| `Hooks.InstallTwiceMoves` | internal/hooks/hooks.go:134-158 | with an empty list, it can move the event |
| `Hooks.RemoveUndoesInstallInFiles` | internal/hooks/hooks.go:282-314 | the same of whole files |
| `Hooks.RemoveKeepsOthers` | internal/hooks/hooks.go:353-392 | the handlers that are not ours, in every group that has one or has none of ours, with the group's other members and its event, are the same in content and order after ours are taken out |
| `Hooks.ForeignEventsStay` | internal/hooks/hooks.go:355-392 | an event without handlers of ours stays as it is |
| `Hooks.InstallKeepsOthers` | internal/hooks/hooks.go:133-158 | and after they are put in; every other member of the file too |
| `Hooks.InstalledAre` | internal/hooks/hooks.go:164-183 | after an installation exactly the events of ours are reported |
| `Notice.NoticeFiles.QueueNotice` | cmd/codeagent-sync/notice.go:172-212 | the loops queue and forget as specified |
| `Notice.NoticeFiles.TakeNotice` | cmd/codeagent-sync/notice.go:217-246 | the text of everything queued; lasting items are told, the queue is empty |
| `Notice.QueueStep` | cmd/codeagent-sync/notice.go:172-212 | queued IDs stay distinct and untold; queued are the one-shot items waiting or found and the lasting ones found and not told |
| `Notice.TakeStep` | cmd/codeagent-sync/notice.go:217-246 | telling keeps that and remembers every lasting item told |
| `Notice.QueuedExactly` | cmd/codeagent-sync/notice.go:139-212 | queued are the recorded and notice items waiting or found, and of the others those found and not told |
| `Notice.RememberedExactly` | cmd/codeagent-sync/notice.go:147-162 | what was told is forgotten when it is not found: an error after two days, what is pending after a sync, all else at once |
| `Notice.MarkedExactly` | cmd/codeagent-sync/notice.go:217-246 | telling empties the queue and marks exactly the lasting items with the time |
| `Notice.LinesSnoc` | cmd/codeagent-sync/notice.go:217-246 | every item is told on a line of its own |
| `Notice.AlwaysTidy` | cmd/codeagent-sync/notice.go:172-246 | so over every sequence of steps |
| `Notice.ToldOnce` | cmd/codeagent-sync/notice.go:151-162 | a lasting item is told again only after a step that did not find it and was allowed to forget it |
| `Notice.OneShotsWait` | cmd/codeagent-sync/notice.go:139-145 | a one-shot item is queued if and only if a step found it since the queue was last told |
| `Notice.OneShotNeverDropped` | cmd/codeagent-sync/notice.go:182-187 | a queued one-shot item, text and all, waits until it is told |

## Left out

- Encryption, compression, hashing and the envelope: stored objects are their contents, fingerprints are free of collisions, and sealing never fails.
- Fresh ETags: every write gets an ETag no earlier write had. The memory store derives ETags from the payload, which encryption makes different for every write.
- The S3, R2 and GCS clients, HTTP, XML parsing, retries, the size limit of an answer and pagination: only the conditional store's contract is modelled.
- The grammars of JSON, YAML and TOML, the rendering of JSON and YAML, and the check that a merged config.toml parses: the model starts from parsed members or from the parser's expressions with their places, and takes canonical values as given.
- The registry format (YAML decisions), whose items merge like those of the other formats.
- Real file systems: symlink resolution (a link above a saved path counts as a file there), permissions, litter, empty directories, managed copies, the disk changes of absorbOldCopies, locks and modification times.
- Keys and paths are clean, as their validation guarantees; names that are invalid or collide on a platform are skipped before the model starts.
- The scan of a disk and the changes made from it count as one moment with respect to the user's edits; edits between the changes and the uploads are modelled.
- Parallel reads and uploads: their keys are distinct, so they are modelled in any sequential order.
- The retry loop around a round: a lost race is modelled as one more round.
- Backup IDs, pruning of backups and of set-aside copies: what was set aside is a log that only grows.
- Safety, Converge and Engine take the home translation as exact and no item as held or hidden; HomePath and Private treat those. Resolve uses neither, as in the code.
- PrivateRuns leaves out crashes and links at a structured key, and takes the base as saved.
- Which names a hiding rule matches, and which items cannot be used on a machine: given as predicates.
- Engine.MemStore.List: the order of the listing, which nothing depends on.
- Engine.Machine.FetchAll: objects that vanish between the listing and the read, which Safety treats, and objects that cannot be opened.
- Engine.Machine.PlanAll: releases, skipped keys and layout conflicts, which PrivateRuns and Layout treat.
- Engine.Machine.ApplyAll: changes of the disk that fail; Crash treats a run that stops.
- Private.WriteStructured: every format is written by the member merge of JSON, and the home translation is exact; Toml and HomePath treat those.
- Toml.Apply: the final check that the merged text parses as a whole.
- TomlText.PutGetText: what the parser reports of each written item alone is given, and that of texts put together it reports the same further down; an item new to a file counts as synced whatever its name says, because the synced form holds nothing else.
- Aliases of a home directory in the round trips, and the test that a file is text.
- Whether a handler runs our command, and the text of the handlers: given with the parsed handler.
- The library's stable sort is modelled as an insertion sort on a sequence: the update in place is not captured.
- Maps are walked in any order; a list sorted only for display (held names) is not sorted here.
- The command line, prompts, the doctor, the inventory, updates, sharing and the launcher.
- Dry runs, and the copies of a conflict's other version that are kept for display.
- Undo of an interrupted run: its manifest is not written, so there is none to undo.
