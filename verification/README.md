# Verified models of the parts of the bot that keep state under failure and interleaving

Each module models one component of the repository and proves what the component is for. `dafny verify dfyconfig.toml`
checks the whole project.

- **Resource installation** (`FileTree`, `ResourceInstall`, `ResourcePlan`, `ResourceHistory`). A plan of file replacements is applied file
  by file with backups and identity checks and compensated in reverse on any failure. The file tree is a map from path
  to content; every step can fail, and other processes may change the tree between any two steps (each check together
  with the replacement that follows it is one step).
- **Caches that must agree with the database** (`GroupPolicyCache`, `GroupSettings`). Writes commit, their publication
  or invalidation runs later, may fail or be lost, and readers are suspended in the middle of a query.
- **Accounts** (`AccountLedger`, `AssetLocks`). Balances, log rows and reservations change in transactions that complete
  or leave nothing behind; the row locks of those transactions are taken in one order.
- **Policies** (`ModuleCodec`, `PolicyStore`). Shared policies are copied into each bound account as an encoded string
  that is later searched by substring.
- **Runtime protocols** (`LowPriorityWriter`, `LowPriorityWorker`, `ProxyGenerations`, `MutationCoordinator`,
  `OneBotSendQueue`). A bounded lossy queue and the worker that empties it, reference-counted connection pools, a
  mutation lock with quiescing, and paced sending with draining.

`Wrappers`, `Lists` and `Text` hold what the models share.

## How the models are built

Where the source changes an object in place, a class has the source's fields, and each method is one stretch of code
between two suspension points. Its `ensures` ties the new state to a function of the old one. The same functions make
up the steps of a system that also contains the suspended tasks (`Sys`, `Step`, `Do`, `Run`); a step that is not
enabled does nothing, so a statement about `Run` is one about every interleaving. The theorems are about `Run`.
Lemmas named `...AreOperations` and `...IsOperation` say when each step can be taken and what it does to the parts of the system.

## What does not hold

These promises are not kept by the code in every case. For each the model shows the case and states the condition under
which the promise is kept.

- A load of the group policies (`start`) clears stale marks that were set while it was reading, so a write whose
  publication failed meanwhile is not served (`GroupPolicyCache.LoadCanLoseMark`; exact condition
  `GroupPolicyCache.LoadKeepsIffSafe`).
- If the last journal record of a rollback cannot be written, the error that names the conflicts is lost and the
  journal's own error is raised instead (`ResourceInstall.Transaction.Rollback`: the conflicts reach the caller exactly
  when that record is written; on a full disk, with anything applied, they never do).
- A module name with a comma at an end does not survive encoding (`ModuleCodec.RoundTripIffStorable`), and a stored
  string that decodes to one is repaired again by the next reconcile (`PolicyStore.SecondReconcileRepairs`).
- Booking gold that is spent under the GET handle, by `reduce_gold` or by committing a reservation made under it, breaks
  the balance law (exact for every call: `AccountLedger.KeepsIffBooked`).
- `commit` or `release` inside an outer asset transaction sets the flags of the reservation although that transaction may
  still roll back (`AccountLedger.FlagsCanBeWrong`; exact condition `AccountLedger.FlagsAgreeIffOuterCommits`).
- A protected installation may ask about a file that nobody edited, once a later installation has recorded other
  content, or nothing, for it (`ResourceHistory.FillOnlyMakesItAsk`; exact condition `ResourceHistory.AskedAboutUnedited`), and may
  overwrite an edit whose content a later fill-only installation has recorded (`ResourceHistory.FillOnlyExposesEdit`;
  exact condition `ResourceHistory.SafeIffNotRecorded`).
- The worker of the low-priority writers sleeps past a deadline when another task's flush fails after it has written a batch
  and leaves records that are due after a shorter pause than the one the worker sleeps through
  (`LowPriorityWorker.LateFailureIsForgotten`), or, for a writer whose batches are smaller than what triggers a flush, when
  its first batch fails (`LowPriorityWorker.SmallBatchIsForgotten`). Exact condition: `LowPriorityWorker.EndKeepsIff`, over
  every run `LowPriorityWorker.RunIsPunctualIff`.
- The blocked-module test answers for a name up to its first comma, so for a shorter name that may not be in the list
  (`ModuleCodec.CommaNameAnswersForShorter`; exact: `ModuleCodec.SubstringTestAnswersFirstParts`).
- Reopening the mutation coordinator while a `quiesce` waits can let it return True with a body running (exact condition
  `MutationCoordinator.QuiesceReturnsQuietIff`, a run `MutationCoordinator.ReopenedQuiesce`).
- Calling `start` while the send queue's `stop` waits can let `stop` return with calls pending (exact condition
  `OneBotSendQueue.StopDrainsIff`, a run `OneBotSendQueue.StartedWhileStopping`), or, if it times out, leaves a service
  that admits calls and drops all of them (`OneBotSendQueue.OpenButClosed`). Of two overlapping `stop`s the earlier one
  always times out (`OneBotSendQueue.SupersededStopTimesOut`).
- A `stop` that times out does not drop every call that has not begun to send, as its documentation has it: one that pauses
  with the lock is still sent (`OneBotSendQueue.SentAfterStop`; exact condition `OneBotSendQueue.ClosedSendsIff`).

## Model

| member | source | states |
|---|---|---|
| `ResourceInstall.Transaction.Install` | zhenxun/services/resource_install.py:273-358 | apply, then commit, else compensate: alone on the file system either every planned path holds its new content or files and directories are exactly as before; with other writers only content the plan saw is replaced, only content put there is undone, every applied path is undone or a named conflict, and the directories made are those listed, of which alone some are removed; without faults it succeeds |
| `ResourceInstall.Transaction.ApplyPlanned` | zhenxun/services/resource_install.py:275-312 | however it stops, the writes are exactly the first changes of the plan, each over the content the plan saw, and every state left is a prefix of the plan |
| `ResourceInstall.Transaction.ApplyChange` | zhenxun/services/resource_install.py:275-306 | one turn replaces the target at most once, only while it holds what the plan saw, and a turn that fails before the replacement changes no file |
| `ResourceInstall.Transaction.Publish` | zhenxun/services/resource_install.py:295-304 | the candidate is checked after copying and the target once more before it is replaced |
| `ResourceInstall.Transaction.BackUp` | zhenxun/services/resource_install.py:277-286 | on success the backup holds exactly the content the plan saw, whoever else writes |
| `ResourceInstall.Transaction.Parents` | zhenxun/services/resource_install.py:262-271 | makes and lists successive levels of the way to the parent, down to the parent unless it fails, whoever else writes; alone, exactly the missing ones |
| `ResourceInstall.Transaction.MakeDirectory` | zhenxun/services/resource_install.py:268-271 | a directory is listed exactly when it was made |
| `ResourceInstall.Transaction.Rollback` | zhenxun/services/resource_install.py:319-350 | reverse compensation: it touches a path only while it holds exactly what the transaction wrote, every applied path is restored or a conflict, the conflicts are named in the error exactly when the last record can be written, so not on a full disk; undisturbed, exactly the paths that no longer hold what was written or lack a sound backup are named, all other applied ones are put back and nothing else changes, and after an undisturbed apply it restores files and directories |
| `ResourceInstall.Transaction.UndoEntries` | zhenxun/services/resource_install.py:321-340 | every undone entry put back the recorded content, every other applied entry is a conflict; undisturbed, an entry is put back exactly when its path and its backup are sound, whatever happened to the entries before it |
| `ResourceInstall.Transaction.Undo` | zhenxun/services/resource_install.py:326-336 | one compensation, refused when target or backup is not what was recorded |
| `ResourceInstall.Transaction.RemoveDirectories` | zhenxun/services/resource_install.py:341-345 | whoever else writes, it removes no directory but those listed, newest first; alone and without faults all of them |
| `ResourceInstall.LastMadeIsEmpty` | zhenxun/services/resource_install.py:341-345 | once the files are back, the newest directory made is empty, so its removal cannot fail |
| `ResourceInstall.AfterAt` | zhenxun/services/resource_install.py:250-254 | what a prefix of the plan leaves at each path: the new content of the changes done, the old content elsewhere |
| `ResourceInstall.UndoStep` | zhenxun/services/resource_install.py:321-338 | putting back the newest change leads to the state before it |
| `ResourceInstall.PrefixKeepsMarkersBehind` | zhenxun/services/resource_install.py:237-254 | after any prefix of a plan with version files last, a version or state file shows its new content only if every payload file does |
| `ResourceInstall.StagesKeepMarkersBehind` | zhenxun/services/resource_install.py:275-338 | the same at every state an installation or its compensation leaves behind |
| `FileTree.Tree.Rmdir` | zhenxun/services/resource_install.py:341-345 | a directory that still holds something is never removed |
| `ResourcePlan.InstallPackage` | zhenxun/services/resource_install.py:198-358 | planning and installing end to end: refused, for the first reason, without a write, or the overlay plus the state document and nothing else, or unchanged; version files follow payload at every state |
| `ResourcePlan.MakePlan` | zhenxun/services/resource_install.py:211-254 | a plan is made exactly when the package is valid, nothing stands in the way, no confirmation is due, and the candidate could be copied and is valid; it is complete, in order, and can be carried out; otherwise the first reason is given |
| `ResourcePlan.Check` | zhenxun/services/resource_install.py:211-254 | the refusals of the planner: it refuses exactly when the request is not acceptable, with the reason that comes first, and names the first listed file that stands on a directory or, without such, the first one that was edited |
| `ResourcePlan.WithStateIsComplete` | zhenxun/services/resource_install.py:237-254 | the planned changes turn the target into the fill-only or overwrite overlay plus the state document, which comes last |
| `ResourcePlan.PlannedEffect` | zhenxun/services/resource_install.py:177-195 | each destination ends as the overlay wants it, every other path is unchanged |
| `ResourcePlan.PlannedShape` | zhenxun/services/resource_install.py:237-249 | the plan names each path once, only with content that differs, version files after payload |
| `ResourcePlan.Sorted` | zhenxun/services/resource_install.py:239-241 | the sort by key is a permutation in order |
| `ResourcePlan.DestinationsAreApart` | zhenxun/services/resource_install.py:188-190 | for an accepted request no destination is a directory, below a file or above another destination |
| `ResourceHistory.AskedAboutUnedited` | zhenxun/services/resource_install.py:213-231 | over every run of overwriting, fill-only and protected installations and of edits by others: a protected installation asks about a file left alone since an installation put it there exactly when the last recorded package lacks it or records other content, and its own content differs too, git standing in for an empty record |
| `ResourceHistory.OwnFilesNeedNoConfirmation` | zhenxun/services/resource_install.py:218-225 | in particular never about a file that the last installation itself put there |
| `ResourceHistory.FillOnlyMakesItAsk` | zhenxun/services/resource_install.py:213-254 | a run in which a file nobody edited is asked about, because a fill-only installation recorded its own content for it |
| `ResourceHistory.WhatIsOverwritten` | zhenxun/services/resource_install.py:213-231 | of the files that are there an accepted protected installation changes exactly those that its package has with other content and whose content is what the record, or git for lack of one, has |
| `ResourceHistory.EditsSurvive` | zhenxun/services/resource_install.py:213-231 | over every such run an accepted protected installation keeps every file that differs from what the package of the last installation, of whatever kind, has for it |
| `ResourceHistory.SafeIffNotRecorded` | zhenxun/services/resource_install.py:213-231 | a file is safe from every protected installation exactly when no package with it can be installed there, or the state document is unreadable, or records something and not this content |
| `ResourceHistory.FillOnlyExposesEdit` | zhenxun/services/resource_install.py:213-254 | a run in which an edit is overwritten without asking, because a fill-only installation recorded the same content |
| `ResourceHistory.PutStays` | zhenxun/services/resource_install.py:275-306 | over every such run a file that an installation put there and nobody edited holds that content |
| `ResourceHistory.LastIsRecorded` | zhenxun/services/resource_install.py:250-254 | the state document records the package of the last installation, fill-only ones included |
| `ResourceHistory.EventAt` | zhenxun/services/resource_install.py:177-195 | what one event of such a run makes of each path: what is wanted, the edit, or nothing |
| `ResourceHistory.InstalledByIsInstalled` | zhenxun/services/resource_install.py:237-254 | what an installation that got through leaves is what the plan makes of the files |
| `GroupPolicyCache.BotGroupPolicyService.Accept` | zhenxun/services/bot_group_policy.py:114-135 | a row replaces the cached policy unless its revision is older; an absent row only removes a policy without a revision |
| `GroupPolicyCache.BotGroupPolicyService.RefreshResume` | zhenxun/services/bot_group_policy.py:163-173 | a refresh from an older epoch is dropped; in the same epoch the stale mark of its key goes exactly when no mark was set since it began, a row that is not older is taken, and no other key changes |
| `GroupPolicyCache.BotGroupPolicyService.Publish` | zhenxun/services/bot_group_policy.py:507-526 | a publication accepts the committed row, and leaves the key stale when it fails or is lost |
| `GroupPolicyCache.BotGroupPolicyService.StartFinish` | zhenxun/services/bot_group_policy.py:52-61 | a load accepts every row it read, unmarking its key |
| `GroupPolicyCache.ServesLastCommitted` | zhenxun/services/bot_group_policy.py:81-112 | over every interleaving in which loads resume safely: a key that is neither stale nor awaiting publication serves the last committed row, and no blocks when there is none |
| `GroupPolicyCache.RefreshServes` | zhenxun/services/bot_group_policy.py:163-173 | in every reachable state: a refresh that nothing disturbs ends with its key served as last committed, whatever was stale before, and no other key changed |
| `GroupPolicyCache.PublicationServes` | zhenxun/services/bot_group_policy.py:507-526 | a delivered publication makes its row served at once, a refused or lost one makes the key unavailable |
| `GroupPolicyCache.LoadServes` | zhenxun/services/bot_group_policy.py:46-63 | after a load that nothing disturbs every key is served as last committed |
| `GroupPolicyCache.RunKeeps` | zhenxun/services/bot_group_policy.py:114-173 | commits, aborts, publications, marks, refreshes and loads keep the cache in agreement with the database |
| `GroupPolicyCache.RevisionsGrow` | zhenxun/services/bot_group_policy.py:114-135 | over every run that stays within one epoch a cached revision never decreases and is never dropped |
| `GroupPolicyCache.LoadKeepsIffSafe` | zhenxun/services/bot_group_policy.py:46-63 | a load that resumes keeps the agreement exactly when no key it is about to unmark has moved on unseen |
| `GroupPolicyCache.QuietLoadIsSafe` | zhenxun/services/bot_group_policy.py:46-63 | what a caller can check: a load is safe when nothing is marked stale as it resumes |
| `GroupPolicyCache.LoadCanLoseMark` | zhenxun/services/bot_group_policy.py:46-63 | a run in which a load clears the mark of a write whose publication failed, so that an old row is served |
| `GroupPolicyCache.CommitKeeps` | zhenxun/services/bot_group_policy.py:449-500 | a committed write, before its publication, keeps the agreement |
| `GroupPolicyCache.PublishKeeps` | zhenxun/services/bot_group_policy.py:507-526 | so does its publication, whichever way it ends |
| `GroupPolicyCache.ResumeKeeps` | zhenxun/services/bot_group_policy.py:163-173 | so does a refresh that resumes with an old answer |
| `GroupSettings.AcceptedIsCurrent` | zhenxun/services/group_settings_service.py:403-492 | over every interleaving of writes, invalidations, failures and slow readers: once no invalidation of a view is outstanding, a cached view that a reader would take has for each key the value of the exact row, else, without an exact row, of the legacy row, else the default |
| `GroupSettings.MergedAt` | zhenxun/services/group_settings_service.py:477-480 | a row overrides the defaults key by key |
| `GroupSettings.ReadIsCached` | zhenxun/services/group_settings_service.py:403-492 | a reader that nothing disturbs leaves its view cached and accepted, with exactly these values, and no other view changed |
| `GroupSettings.RunKeeps` | zhenxun/services/group_settings_service.py:55-57 | every step keeps the cache entries and the readers still allowed to store in agreement with the rows |
| `GroupSettings.WritesStayInTheirView` | zhenxun/services/group_settings_service.py:208-259 | a transaction changes only the rows it writes to; scoped writes never change a legacy row |
| `GroupSettings.MutatedByKey` | zhenxun/services/group_settings_service.py:262-339 | what each of the four writes leaves of each key, when it changes something, and when the row goes |
| `GroupSettings.LastWriteDecides` | zhenxun/services/group_settings_service.py:193-339 | in a transaction the last write that names a key in a view decides its value |
| `GroupSettings.UnnamedKeysStay` | zhenxun/services/group_settings_service.py:193-339 | a key that no write names keeps its value |
| `GroupSettings.ResetUndoesSet` | zhenxun/services/group_settings_service.py:290-339 | resetting a key the exact row did not have before it was set gives back the rows as they were |
| `GroupSettings.GroupSettingsService.Mutate` | zhenxun/services/group_settings_service.py:193-259 | reads and changes only the exact row: the key set has the value, the others keep theirs; an empty result deletes the row |
| `GroupSettings.GroupSettingsService.Fill` | zhenxun/services/group_settings_service.py:481-492 | a reader stores only if no invalidation began since it asked and the defaults are the same |
| `GroupSettings.WriteKeeps` | zhenxun/services/group_settings_service.py:175-191 | a transaction of writes with its deferred invalidations keeps the agreement |
| `GroupSettings.FillKeeps` | zhenxun/services/group_settings_service.py:481-492 | a reader that queried before a commit and stores after it cannot leave a stale view |
| `AccountLedger.RunIsBounded` | zhenxun/models/user_console.py:70-353 | over every run of transactions, committed or aborted, and purges, under whatever handles: gold stays in 0..2^31-1 and no reservation is settled twice |
| `AccountLedger.RunIsSound` | zhenxun/models/user_console.py:217-353 | over every run of transactions, committed or aborted, and purges, with spend handles other than GET, also: gold plus open reservations equals 100 plus credits minus debits |
| `AccountLedger.CallKeeps` | zhenxun/models/user_console.py:217-353 | each accepted call keeps all of that for every account |
| `AccountLedger.TransactionsAreWhole` | zhenxun/models/user_console.py:217-353 | a transaction does what its calls do, or, refused or aborted, nothing but create the accounts it locks |
| `AccountLedger.CallsAreMadeInOrder` | zhenxun/models/user_console.py:217-353 | its calls are made one after the other on locked accounts only, and the first refusal is its own |
| `AccountLedger.KeepsIffBooked` | zhenxun/models/user_console.py:70-353 | the condition on handles is exact for every call: from a balanced account an accepted call leaves it unbalanced exactly when it spends under GET or commits a reservation made under GET |
| `AccountLedger.CommitBalance` | zhenxun/models/user_console.py:81-109 | committing an open reservation keeps the balance law if and only if the reservation was not made under GET |
| `AccountLedger.ReleaseBalance` | zhenxun/models/user_console.py:81-109 | releasing one keeps the law whatever the handle |
| `AccountLedger.FinishBalance` | zhenxun/models/user_console.py:87-109 | settling trades a reservation for a log row or a refund; an accepted settlement breaks the law exactly when it commits a reservation made under GET |
| `AccountLedger.SettledIsFinal` | zhenxun/models/user_console.py:81-109 | over every run a settled reservation keeps its state until it is purged |
| `AccountLedger.PurgedAre` | zhenxun/models/asset_operation.py:24-38 | exactly the settled operations whose retention time is over are removed, and no balance or log row changes |
| `AccountLedger.SettlingAgainChangesNothing` | zhenxun/models/user_console.py:81-115 | settling a settled reservation, either way, changes no row |
| `AccountLedger.Accounts.SetGold` | zhenxun/models/user_console.py:219-236 | in range it sets exactly this balance and logs the difference, as earned or as taken; out of range, or interrupted, it changes nothing but the creation of the account |
| `AccountLedger.Accounts.AddGold` | zhenxun/models/user_console.py:240-265 | a positive amount that fits the range is added in full with one GET row of that amount, no other account or operation changes; otherwise, or interrupted, nothing but the creation of the account, with the reason |
| `AccountLedger.Accounts.ReduceGold` | zhenxun/models/user_console.py:269-307 | a positive amount that is there is taken in full with one row of that amount; otherwise, or interrupted, nothing but the creation of the account, with the reason |
| `AccountLedger.Accounts.ReserveGold` | zhenxun/models/user_console.py:310-353 | a positive amount that is there is taken and held back under a new operation of that amount, without a log row; an amount that is not positive does not even open the account |
| `AccountLedger.GoldReservation.FinishAccount` | zhenxun/models/user_console.py:70-109 | called on its own: committing adds one log row of the reserved amount, releasing gives the amount back, each only while the reservation is open; exactly when it is refused; the local flags change only when the transaction is through and then agree with the stored state |
| `AccountLedger.FlagsAgreeIffOuterCommits` | zhenxun/models/user_console.py:70-109 | called inside an outer asset transaction: the flags, set before that transaction is through, agree with the rows in the end if and only if it commits |
| `AccountLedger.FlagsCanBeWrong` | zhenxun/models/user_console.py:70-109 | a run in which they do not: the outer transaction fails after the reservation was committed in it |
| `LowPriorityWriter.Writer.Append` | zhenxun/services/low_priority_writer.py:99-117 | appends, dropping the oldest when full; unless it asks to wake the worker the writer is due at the same times as before |
| `LowPriorityWriter.Writer.TakeBatch` | zhenxun/services/low_priority_writer.py:258-263 | takes the oldest records up to the batch size, in order |
| `LowPriorityWriter.Writer.RestoreBatch` | zhenxun/services/low_priority_writer.py:266-277 | puts back the newest part of a failed batch that fits and counts the rest as dropped |
| `LowPriorityWriter.Writer.MarkUncertainTimeout` | zhenxun/services/low_priority_writer.py:304-316 | a batch with unknown outcome is given up and counted, and the writer backs off |
| `LowPriorityWriter.Writer.MarkFailure` | zhenxun/services/low_priority_writer.py:288-295 | one more failure in a row and the pause that goes with it |
| `LowPriorityWriter.BackoffDoublesUpToLimit` | zhenxun/services/low_priority_writer.py:290-293 | the first failure pauses for the base, each further one doubles the pause, up to the limit |
| `LowPriorityWriter.DueAtIsFirst` | zhenxun/services/low_priority_writer.py:157-180 | a writer is due from the first moment past its backoff at which enough waits or its interval is over |
| `LowPriorityWriter.Writer.FlushBatch` | zhenxun/services/low_priority_writer.py:229-250 | one batch, with records arriving meanwhile: it goes on exactly after a successful write of a full batch or of all that waited; nothing is lost uncounted, written records are appended in order of arrival and never twice |
| `LowPriorityWriter.Writer.Flush` | zhenxun/services/low_priority_writer.py:215-255 | a whole flush under every schedule of arrivals and outcomes: it does nothing exactly when nothing waits, or it is not forced and the tasks are paused, the writer backs off or no item is allowed; when the writes succeed it ends with nothing waiting, or, not forced, with max_items_per_cycle written; what waited and is not dropped has then been written; without force fewer than max_items_per_cycle + batch_size records are written |
| `LowPriorityWriter.NextWait` | zhenxun/services/low_priority_writer.py:157-180 | exact wake-up: no writer is due before it, one is due at it, none waits when it is None |
| `LowPriorityWriter.Writer.Settle` | zhenxun/services/low_priority_writer.py:229-250 | what the end of a write makes of the batch, the counters and the times that decide when the writer is due |
| `LowPriorityWorker.RunIsPunctualIff` | zhenxun/services/low_priority_writer.py:99-301 | from the start, over every interleaving of appends, pauses, failing writes and flushes by other tasks under the flush lock: whenever no other flush is under way the sleeping worker is woken or wakes up no later than when the first writer is due, if and only if no flush of another task ended overtaking it |
| `LowPriorityWorker.EndKeepsIff` | zhenxun/services/low_priority_writer.py:229-250 | when that is: the flush had written a batch already, or fails for a writer with batches smaller than the trigger, and leaves records due, by the pause of its failure and by size or interval, before the worker wakes up |
| `LowPriorityWorker.SteadyWritersArePunctual` | zhenxun/services/low_priority_writer.py:99-301 | for configurations like all registered ones no deadline is missed as long as other tasks force their flushes and none fails after it has written a batch |
| `LowPriorityWorker.WorkerAloneIsPunctual` | zhenxun/services/low_priority_writer.py:99-250 | nor when only the worker flushes, whatever the configurations and whichever writes fail |
| `LowPriorityWorker.StepKeeps` | zhenxun/services/low_priority_writer.py:99-301 | every step that does not end a flush overtaking the worker keeps it in time for what waits and, until another task has written its first batch, for what would wait if that batch came back |
| `LowPriorityWorker.LateFailureIsForgotten` | zhenxun/services/low_priority_writer.py:183-250 | a run in which a deadline is missed by 30 seconds: after two failures of the worker another task writes one record and fails on the next |
| `LowPriorityWorker.SmallBatchIsForgotten` | zhenxun/services/low_priority_writer.py:183-250 | a run for a batch size below the trigger size in which the first batch of another task fails |
| `LowPriorityWorker.SleepsUntilTriggered` | zhenxun/services/low_priority_writer.py:99-117 | before its wake-up time a worker that was not woken goes on sleeping until appends reach the trigger size |
| `ModuleCodec.RoundTripIffStorable` | zhenxun/services/plugin_policy.py:62-67 | decoding an encoded list gives back its sorted unique normal form exactly when every name is free of `<` and has no comma at an end |
| `ModuleCodec.SubstringTestIsExact` | zhenxun/models/bot_console.py:319-333 | for names without `<` and comma, `<name,` occurs in the encoded string exactly when the name is in the list |
| `ModuleCodec.SubstringTestAnswersFirstParts` | zhenxun/models/bot_console.py:319-333 | with commas in the stored names: `<name,` occurs exactly when some stored name up to its first comma is the name |
| `ModuleCodec.OccursInOneName` | zhenxun/models/bot_console.py:319-333 | for any stored names: `<name,` occurs in the encoded string exactly when it occurs within one stored name |
| `ModuleCodec.CommaNameAnswersForShorter` | zhenxun/models/bot_console.py:319-333 | a list of one name with a comma for which the test answers for a shorter name that is not in it |
| `ModuleCodec.NormalizeIsIdempotent` | zhenxun/services/plugin_policy.py:62-63 | the normal form is reached in one step |
| `ModuleCodec.NormalizeAt` | zhenxun/services/plugin_policy.py:62-63 | the normal form holds exactly the stripped names that are not empty |
| `ModuleCodec.SplitJoin` | zhenxun/models/bot_console.py:201-204 | splitting a joined string gives back its pieces |
| `ModuleCodec.DecodeAt` | zhenxun/services/plugin_policy.py:66-67 | what decoding reads back from stored names |
| `ModuleCodec.DecodedHasNoMark` | zhenxun/services/plugin_policy.py:66-67 | no decoded name holds a `<`, whatever was stored |
| `ModuleCodec.StripFacts` | zhenxun/models/bot_console.py:202 | stripping leaves a bare piece, and the string itself exactly when it is bare |
| `ModuleCodec.SpacesAre` | zhenxun/services/plugin_policy.py:62-63 | the characters that `strip` removes, by code point |
| `Text.SortedSet` | zhenxun/services/plugin_policy.py:62-63 | `sorted(set(...))`: strictly ascending, same elements |
| `Text.AscendingIsCanonical` | zhenxun/services/plugin_policy.py:62-63 | a set of strings has one such enumeration, so the encoding of a set is unique |
| `Text.BeforeIsLexicographic` | zhenxun/services/plugin_policy.py:62-63 | the order of strings: the first difference decides, and a proper beginning comes first |
| `PolicyStore.RunKeeps` | zhenxun/services/plugin_policy.py:846-1376 | over every run of management operations every bound account carries the encoding of its policy, once it did or once a reconcile has run |
| `PolicyStore.DoKeeps` | zhenxun/services/plugin_policy.py:846-1088 | each operation keeps that, and reconcile establishes it |
| `PolicyStore.ReconcileEstablishes` | zhenxun/services/plugin_policy.py:1330-1376 | after reconcile every bound account carries the encoding of its policy, whatever was stored before |
| `PolicyStore.SecondReconcileRepairs` | zhenxun/services/plugin_policy.py:1330-1376 | a second reconcile repairs an account exactly when it has no policy and names it carries do not survive storage; with well-formed names it repairs nothing |
| `PolicyStore.SomeAccountIsRepairedTwice` | zhenxun/services/plugin_policy.py:1330-1376 | such an account: a stored name with a space before a comma |
| `PolicyStore.BlockTestAnswersForPolicy` | zhenxun/models/bot_console.py:319-333 | on a bound account the blocked-plugin test answers for the list of its policy |
| `PolicyStore.SwitchTakesEffect` | zhenxun/services/plugin_policy.py:1266-1328 | switching modules of either kind for everybody takes effect on every account, bound or not, and for no other module |
| `PolicyStore.SwitchKeeps` | zhenxun/services/plugin_policy.py:1266-1328 | switching for everybody leaves policies and copies equal even if they were not |
| `PolicyStore.BoundAccountsShowThePolicy` | zhenxun/services/plugin_policy.py:1067-1081 | a bound account shows the lists and revision of its policy, its own revision one further; no other account changes |
| `PolicyStore.DetachedAccountsShowTheLists` | zhenxun/services/plugin_policy.py:1172-1186 | an account that is written to directly is independent and shows the lists, one revision further; no other account changes |
| `PolicyStore.ReplacedAccountsShowThePolicy` | zhenxun/services/plugin_policy.py:986-1006 | replacing a policy shows its lists and revision on exactly the accounts bound to it, each one revision further; no other policy, binding or row changes |
| `PolicyStore.SwitchRaises` | zhenxun/services/plugin_policy.py:1266-1328 | switching for everybody raises the revision of every account by one |
| `PolicyStore.SwitchedPolicyIs` | zhenxun/services/plugin_policy.py:1266-1328 | and of every policy, whose list of that kind gains or loses exactly the chosen modules |
| `PolicyStore.ReconciledRow` | zhenxun/services/plugin_policy.py:1330-1376 | reconcile leaves in each row the encoding of the expected lists, one revision further exactly when it was repaired |
| `PolicyStore.EncodingSettles` | zhenxun/services/plugin_policy.py:102-103 | a stored string encodes stably exactly when its names are storable |
| `PolicyStore.PluginPolicyService.Materialize` | zhenxun/services/plugin_policy.py:802-825 | writes the encodings and raises the revision of one row, creating it at 1 |
| `PolicyStore.PluginPolicyService.UpdateAccount` | zhenxun/services/plugin_policy.py:846-878 | checks in order, then makes the account independent with the validated lists, or changes nothing |
| `PolicyStore.UpdateAccountAccepts` | zhenxun/services/plugin_policy.py:855-869 | an account update is accepted exactly for a known account that is as the caller saw it and modules that are in the catalog or that the account had already |
| `PolicyStore.PluginPolicyService.CreatePolicy` | zhenxun/services/plugin_policy.py:880-952 | checks in order, then adds the policy and binds the targets to it, or changes nothing |
| `PolicyStore.CreatedNamesAreDistinct` | zhenxun/services/plugin_policy.py:893-940 | a created policy keeps all names distinct up to case, starts at revision 1 and carries normalised lists |
| `PolicyStore.SourceListsAreAccepted` | zhenxun/services/plugin_policy.py:900-920 | the lists of a source account are never refused, whatever the catalog has become |
| `PolicyStore.CreateAccepts` | zhenxun/services/plugin_policy.py:893-927 | a policy is created exactly with a name that is free up to case, for known targets that are as the caller saw them, from catalog modules or from a known account as the caller saw it |
| `PolicyStore.CreateRefuses` | zhenxun/services/plugin_policy.py:880-927 | and which refusal comes first |
| `PolicyStore.CreatedPolicyIs` | zhenxun/services/plugin_policy.py:893-940 | a created policy has the stripped name, revision 1 and the normalised lists of the request, or those of the source account |
| `PolicyStore.PluginPolicyService.UpdatePolicy` | zhenxun/services/plugin_policy.py:954-1009 | checks in order, then replaces the policy and every copy of it, or changes nothing |
| `PolicyStore.ReplacedNamesAreDistinct` | zhenxun/services/plugin_policy.py:965-1000 | a replaced policy keeps all names distinct up to case, one revision further |
| `PolicyStore.UpdatedPolicyIs` | zhenxun/services/plugin_policy.py:986-1000 | an accepted update stores the stripped name, the plugins asked for as plugins and the tasks asked for as tasks, one revision further |
| `PolicyStore.UpdatePolicyAccepts` | zhenxun/services/plugin_policy.py:965-990 | an update is accepted exactly for a policy as the caller saw it, a name no other policy has up to case, and modules that are in the catalog or that the policy had already; else the first reason |
| `PolicyStore.PluginPolicyService.DeletePolicy` | zhenxun/services/plugin_policy.py:1011-1026 | removes a policy only while no account is bound to it |
| `PolicyStore.DeleteAccepts` | zhenxun/services/plugin_policy.py:1012-1026 | a deletion is accepted exactly for a policy as the caller saw it that no account is bound to |
| `PolicyStore.CreatedAndDeletedAre` | zhenxun/services/plugin_policy.py:928-1026 | creating and deleting change one policy and no account |
| `PolicyStore.PluginPolicyService.BindAccounts` | zhenxun/services/plugin_policy.py:1028-1088 | checks in order, then binds the targets and copies the lists to them, or changes nothing |
| `PolicyStore.PluginPolicyService.CopyAccount` | zhenxun/services/plugin_policy.py:1143-1188 | checks in order, then copies the lists of the source to every other target, or changes nothing |
| `PolicyStore.CopyAccepts` | zhenxun/services/plugin_policy.py:1152-1163 | copying is accepted exactly for a known source as the caller saw it and known targets, all as the caller saw them but for the source itself |
| `PolicyStore.PluginPolicyService.MutateAll` | zhenxun/services/plugin_policy.py:1266-1328 | switches modules in every policy, every copy and every independent account, or changes nothing |
| `PolicyStore.PluginPolicyService.Reconcile` | zhenxun/services/plugin_policy.py:1330-1376 | repairs exactly the accounts that need it and lists each once, or changes nothing |
| `ProxyGenerations.RunKeeps` | zhenxun/services/network_proxy.py:293-306 | over every interleaving `users` equals live scopes plus unclosed leased streams, and a generation is gone only when it has no user and no pool |
| `ProxyGenerations.IdleForever` | zhenxun/services/network_proxy.py:293-306 | a generation that is not current and has no user never gains a user or a pool again |
| `ProxyGenerations.ReapClosesOnlyIdle` | zhenxun/services/network_proxy.py:411-428 | reap closes only pools of retired generations without scopes, streams or requests |
| `ProxyGenerations.ReapDropsOnlyEmpty` | zhenxun/services/network_proxy.py:411-428 | a generation is dropped only with an empty pool map |
| `ProxyGenerations.ShutdownIsFinal` | zhenxun/services/network_proxy.py:503-530 | once shutdown has gone through, no generation has a user or a pool, whatever runs afterwards |
| `ProxyGenerations.UseKeeps` | zhenxun/services/network_proxy.py:430-456 | scopes, requests and streams keep the counts and the pools in order |
| `ProxyGenerations.UsesAreOperations` | zhenxun/services/network_proxy.py:430-456 | a scope is on the generation of the live surrounding one, else on the current one, a request opens its pool there, and a stream stays there until it is closed |
| `ProxyGenerations.ReapKeeps` | zhenxun/services/network_proxy.py:411-428 | so does each step of a reaping task |
| `ProxyGenerations.ReapGoesOn` | zhenxun/services/network_proxy.py:411-428 | a reap in progress can always take its next step: it visits the retired generations in order, skips those in use, pops a pool exactly when it closed, and stops at one that does not |
| `ProxyGenerations.EndKeeps` | zhenxun/services/network_proxy.py:503-530 | so does each step of a shutdown |
| `ProxyGenerations.ShutdownGoesOn` | zhenxun/services/network_proxy.py:503-530 | so does a shutdown, over all generations, once nobody uses any |
| `ProxyGenerations.PublishKeeps` | zhenxun/services/network_proxy.py:368-375 | so does publishing |
| `ProxyGenerations.ProxyRuntime.Reap` | zhenxun/services/network_proxy.py:411-428 | undisturbed, reap drops exactly the idle retired generations, in order, until a transport does not close |
| `ProxyGenerations.ProxyRuntime.EnterScope` | zhenxun/services/network_proxy.py:430-448 | a scope joins the generation of a live surrounding scope, else the current one; the task that opened the surrounding scope enters it again without another user |
| `ProxyGenerations.ProxyRuntime.PoolFor` | zhenxun/services/network_proxy.py:600-607 | a key keeps its transport; a new one is added to the generation of the scope |
| `ProxyGenerations.ProxyRuntime.Publish` | zhenxun/services/network_proxy.py:368-375 | a new generation retires the current one; nothing is published while stopping |
| `MutationCoordinator.AtMostOneBody` | zhenxun/services/runtime_mutation.py:158-198 | over all task interleavings at most one operation body runs |
| `MutationCoordinator.InheritedContextIsRefused` | zhenxun/services/runtime_mutation.py:68-77 | a task is refused as cross-task exactly when it was spawned, however deep, inside the running operation; it never waits for that operation |
| `MutationCoordinator.QuiesceMakesQuiet` | zhenxun/services/runtime_mutation.py:140-149 | quiesce returns True with no body running, unless the coordinator was reopened while it waited |
| `MutationCoordinator.QuietUntilReopened` | zhenxun/services/runtime_mutation.py:140-156 | from then on no body starts until reopen |
| `MutationCoordinator.QuiesceReturnsQuietIff` | zhenxun/services/runtime_mutation.py:140-156 | in every reachable state: a waiting quiesce can only return True with no body running, however the run goes on until the next reopen, if and only if the coordinator is not open and, once its event has fired, no body runs |
| `MutationCoordinator.ReopenedQuiesce` | zhenxun/services/runtime_mutation.py:140-156 | a run in which that fails: reopen comes after the last body has ended and before quiesce returns |
| `MutationCoordinator.QuiesceAsksToStop` | zhenxun/services/runtime_mutation.py:131-142 | while quiesce waits and nobody reopens, the running body has been asked to stop |
| `MutationCoordinator.WaitersAreServed` | zhenxun/services/runtime_mutation.py:176-198 | with tasks waiting, a body runs or the first waiter has been woken |
| `MutationCoordinator.RunKeeps` | zhenxun/services/runtime_mutation.py:158-198 | lock, owner, transaction, context and idle event always tell the same story |
| `MutationCoordinator.RuntimeMutationCoordinator.CheckEnter` | zhenxun/services/runtime_mutation.py:68-77 | the refusals, in order, each with exactly its condition |
| `MutationCoordinator.RuntimeMutationCoordinator.Operation` | zhenxun/services/runtime_mutation.py:158-182 | enters, re-enters, waits or is refused, with the state that goes with it |
| `MutationCoordinator.RuntimeMutationCoordinator.Resume` | zhenxun/services/runtime_mutation.py:176-183 | a woken waiter looks at the state again before it starts |
| `MutationCoordinator.RuntimeMutationCoordinator.EndBody` | zhenxun/services/runtime_mutation.py:190-198 | the end of a body clears everything, gives the context back and wakes the next waiter |
| `MutationCoordinator.BodyLeavesNoTrace` | zhenxun/services/runtime_mutation.py:158-198 | a body on a free lock leaves nothing behind but the used token |
| `MutationCoordinator.GivenUpIsGone` | zhenxun/services/runtime_mutation.py:176-183 | a cancelled waiter is gone, the others keep their places, and a free lock wakes the first |
| `AssetLocks.NoCycle` | zhenxun/services/asset_transaction.py:44-80 | in no reachable state do transactions wait for each other in a circle |
| `AssetLocks.SomebodyCanGoOn` | zhenxun/services/asset_transaction.py:44-80 | every transaction runs its body, can take its next row, or waits through others for one that can |
| `AssetLocks.BodiesAreApart` | zhenxun/services/asset_transaction.py:44-80 | two asset bodies never run on a common account |
| `AssetLocks.NestedTakesNoLock` | zhenxun/services/asset_transaction.py:55-61 | entering again inside a transaction changes nothing: it is refused, or its accounts are locked by this task |
| `AssetLocks.InheritedScopeTakesNoLock` | zhenxun/services/asset_transaction.py:56-57 | a task that inherited a scope holds no row and can start no transaction |
| `AssetLocks.IdentityComesFirst` | zhenxun/services/business_identity.py:447-469 | whoever holds an account row and needs an identity row has the identity row |
| `AssetLocks.PlanIsOrdered` | zhenxun/services/asset_transaction.py:53 | identity first, then accounts in sorted order |
| `AssetLocks.PlanHolds` | zhenxun/services/asset_transaction.py:53 | a plan is the identity row, if there is an identity, and exactly the accounts asked for, each once |
| `AssetLocks.LockIsOperation` | zhenxun/services/asset_transaction.py:62-80 | with its last row a transaction opens its scope, which names exactly the accounts of its plan |
| `AssetLocks.AssetTransactions.Enter` | zhenxun/services/asset_transaction.py:44-80 | exactly which entries are nested, refused or outermost; an outermost transaction holds exactly its plan, locked in order; a nested, refused or stale one leaves no lock |
| `AssetLocks.AssetTransactions.ValidateBusinessWrite` | zhenxun/services/business_identity.py:447-469 | the identity row is locked before any account row |
| `AssetLocks.AssetTransactions.LockAccounts` | zhenxun/services/asset_transaction.py:67-75 | locks each account once, in order |
| `OneBotSendQueue.PendingIsExact` | zhenxun/adapters/onebot_managed.py:88-103 | `_pending` counts the unfinished calls over current and forgotten queues; each queue counts its own and holds at most 500 |
| `OneBotSendQueue.SendsArePaced` | zhenxun/adapters/onebot_managed.py:92-100 | each queue sends one call at a time in arrival order, each at least 0.05 s after the one before ended |
| `OneBotSendQueue.BegunPausesForTheRest` | zhenxun/adapters/onebot_managed.py:92-97 | whoever gets the lock pauses exactly for what is left of the interval |
| `OneBotSendQueue.StopDrains` | zhenxun/adapters/onebot_managed.py:118-130 | stop returns without timing out only when nothing is pending, unless start was called while it waited |
| `OneBotSendQueue.DrainedUntilStarted` | zhenxun/adapters/onebot_managed.py:82-83 | after that nothing is admitted until start |
| `OneBotSendQueue.StopDrainsIff` | zhenxun/adapters/onebot_managed.py:68-130 | in every reachable state: a waiting stop can only return without timing out with nothing pending, however the run goes on until the next start, if and only if nothing is pending once its event has fired and calls are refused or dropped, or its event was replaced |
| `OneBotSendQueue.StartedWhileStopping` | zhenxun/adapters/onebot_managed.py:113-130 | a run in which that fails: start is called after the last call has ended and before stop returns |
| `OneBotSendQueue.ClosedSendsNoMore` | zhenxun/adapters/onebot_managed.py:92-93 | after a stop has timed out, no call that is still in line is sent until start |
| `OneBotSendQueue.ClosedSendsIff` | zhenxun/adapters/onebot_managed.py:92-98 | exactly those: a call that pauses with the lock, or is being sent, is still sent |
| `OneBotSendQueue.SentAfterStop` | zhenxun/adapters/onebot_managed.py:92-98 | a run in which a call begins to send after stop has waited for its three seconds: the call before it ends just before the timeout |
| `OneBotSendQueue.OpenButClosed` | zhenxun/adapters/onebot_managed.py:113-130 | a run that leaves the service admitting calls and dropping all of them |
| `OneBotSendQueue.SupersededStopTimesOut` | zhenxun/adapters/onebot_managed.py:122-129 | of two overlapping stops the earlier one never sees its event |
| `OneBotSendQueue.RunKeeps` | zhenxun/adapters/onebot_managed.py:69-130 | every step keeps the queues, the counters and the waiting stops in order |
| `OneBotSendQueue.GoneFits` | zhenxun/adapters/onebot_managed.py:98-105 | a call that leaves, sent, refused or cancelled, keeps its queue in order |
| `OneBotSendQueue.CallIsOperation` | zhenxun/adapters/onebot_managed.py:69-91 | an admitted call joins the end of its queue, or is dropped at once on a closed service with a free lock |
| `OneBotSendQueue.CallGoesOn` | zhenxun/adapters/onebot_managed.py:92-105 | a pause that is over ends in sending, and a call that ends leaves its queue with the time of its sending |
| `OneBotSendQueue.SendQueue.Call` | zhenxun/adapters/onebot_managed.py:69-91 | refused when stopping or full, else counted and put in line |
| `OneBotSendQueue.SendQueue.Leave` | zhenxun/adapters/onebot_managed.py:98-105 | gives back its place and fires the event on the last one |

## Left out

Everywhere: digests and revision tokens are injective, so content and payload stand for them; a database transaction is
one step that may also roll back; logging, diagnostics counters, messages and return payloads for pages are not modelled.

- ResourceInstall.Transaction.Install: does not model the symbolic-link checks (`_safe`) or the limits on the package; `validate_resources` is a check that may fail.
- ResourceInstall.Transaction.Publish: does not model a writer between the last check and the replacement, which are one step here.
- ResourcePlan.MakePlan: does not model a target edited while the plan is being made; whether the package and the candidate are valid and whether copying succeeds are parameters.
- ResourceInstall.Transaction.Rollback: does not model the record of the first error, whose failure the source ignores.
- GroupPolicyCache.ServesLastCommitted: does not model `forget_bot` (account deletion), membership recording, writers in other processes or the merging of concurrent refreshes into one task.
- GroupPolicyCache.CommitKeeps: does not model how a write computes its blocks; a write is any new blocks for its keys.
- GroupSettings.AcceptedIsCurrent: does not model the expired value that a reader may return after a database timeout, readers inside a write transaction, or several legacy rows for one group.
- AccountLedger.RunIsSound: does not model props or the account fields other than gold; an operation's position stands for its id.
- LowPriorityWriter.Writer.Flush: does not model cancellation in the middle of a write or registering again with a smaller `max_retain`; a forced flush is modelled for schedules of finitely many arrivals, since with endless arrivals it need not end.
- LowPriorityWorker.RunIsPunctualIff: does not bound how late the event loop resumes a worker whose time has come or how long it waits for the lock; reading the pause state on waking and when going back to sleep is one step; does not model cancelled flushes.
- PolicyStore.PluginPolicyService.UpdateAccount: does not model account deletion, runtime aliases of account ids, policy descriptions and times, or the publication to memory.
- PolicyStore.PluginPolicyService.MutateAll: requires the database's foreign key from bindings to policies, as the source's table lookup does.
- ProxyGenerations.RunKeeps: does not model routing, certificates, the limit of two retired generations, or a request sent from a task that does not own the scope; `ManagedAsyncClient.send` opens a scope of its own, so a scope is not left while one of its requests is on its way.
- ProxyGenerations.ProxyRuntime.Reap: a generation is a key of a map rather than an object with its own identity.
- MutationCoordinator.AtMostOneBody: does not model `run_owned`, which spawns a task that calls `operation`, or the shutdown budgets.
- AssetLocks.NoCycle: does not model locks taken by code other than asset transactions and the resolution of identity links, or the queueing of waiters inside the database.
- OneBotSendQueue.SendsArePaced: does not model that the event loop may end a pause early by its clock resolution; time is a real number.
- `uninfo_patch.py`, `hot_query_cache.py`, `ai_chat_group.py`: the same guard by version as the group settings, with less content.
- `block_reasons`, `scene_global_state`, startup states: finite tables of cases.
- Database, URL and installer configuration, pages, images, plugin loading: input and output with no state of their own to keep.
