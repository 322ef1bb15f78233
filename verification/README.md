# Verified model of hooversion's release machinery

This project models, in Dafny, the stateful parts of hooversion, the tool that turns merged commits into
releases, and proves what those parts are for:

- **Webhook spool.** Admitted webhooks are files in a directory whose changes become durable only with a
  directory sync. `CrashDisk` is that directory: what is visible, what is durable, and the changes of which any
  subset may survive a crash. `SpoolProtocol` is a discipline on single file-system steps; every disciplined run,
  cut off anywhere and followed by a crash, neither loses a promised record nor offers a settled one.
  `WebhookSpool` is the spool object. All its directory changes go through one method whose precondition is the
  discipline, so every method keeps the promises at every instant, also while it is failing and while it is
  recovering. `SpoolAccounts` and the object's `exact` flag carry the byte and record accounts, `SpoolNames`
  relates the file names to the numbers they stand for.
- **Release queue.** `QueueMachine` is the concurrent queue, one step per section under the mutex, channel operation,
  and start or end of a task; `QueueKeys` says by their texts which keys are of one repository. `QueueInvariant`, `QueueHistory`, `QueueAttempts` and `QueueResults` show what every step keeps,
  `QueueGuarantees` and `QueueProgress` what that means for every run.
- **Service.** `WebhookDedupe` is the table of reserved keys, `WebhookService` the way of a webhook through handler,
  business step, acknowledgement, callback and retry timer. `WebhookReservations` says exactly when a reservation
  lasts, `WebhookMarks` exactly when a completion is marked, `WebhookOutcomes` how a webhook can end, and `SpoolDrain`
  is the drain of the spool into the queue.
- **Release transaction.** `ReleaseWorld` is the repository (branch heads, commits, tags, index, files, journal, remote
  effects) with a discipline on single steps; `ReleaseRuns` proves write-ahead safety and restoration for every
  disciplined run and every interruption; `ReleaseTransaction` is the transaction object and the program that drives
  it, all of whose changes go through one disciplined method.
- **Algorithms.** `ReleaseMessage` (commit message and its parser), `ReleaseResume` (recognising an executed release
  commit and the version steps it made), `Changelog` (release notes), `PackageGraph`
  (cycle search), `ReleasePlan` (which packages are released), `GlobMatch` (memoised `**` patterns), `GitBatch`
  (NUL-delimited Git output), `TomlRender` (token splicing), `WorkspaceVersions` (shared Cargo versions).
  `TextScan` and `Wrappers` hold strings and optional values.

A crash is modelled as the end of a prefix of the steps taken: theorems about runs speak about every prefix, and a
method's log is such a run. Sync failures, failing removals, failing saves and other faults are nondeterministic
choices, and a contract that needs their absence says so (`!faulty`, `exact`).

Where the code does not do what one might expect of it, the model follows the code, and a lemma says when:

- An admission that was refused because the first directory sync failed can come back after a crash exactly when
  the second sync, whose error the code drops, failed too (`SpoolProtocol.RefusedAdmissionMayReturn`).
- The byte accounts stay exact through every operation except a quarantine cleanup that fails after it removed
  files or removes a quarantined directory or link that has a size, a rollback that cannot remove its file, a marker
  whose record cannot be removed, and a bad record that cannot be moved aside (`WebhookSpool.Spool.CleanupQuarantine`, `Admit`, `AckTerminal`, `Recount`).
- A durable completion marks its keys succeeded exactly when the attempt that got it acknowledged had not found the
  business step already complete (`WebhookMarks.WhenCompletionIsMarked`); the keys of the others stay in flight, and
  such a run exists (`WebhookMarks.SilentCompletionHappens`).
- A live reservation lasts until it expires or its own webhook is done with it exactly when no other webhook still at
  work and not completed holds its key (`WebhookReservations.LastsIffUndisputed`). A dispute does arise
  (`WebhookReservations.DisputeHappens`); a completed webhook that still holds the key can only mark the entry and make
  it last longer (`WebhookReservations.CompleteOnlyMarks`).
- The version step inferred for a release commit leads to its version exactly when no predecessor of a wider bump
  carries a tag and a version taken from a tag has no suffix (`ReleaseResume.InferredLeadsThere`); where 1.0.0 and
  2.0.0 are tagged, 2.1.0 is taken for a major release (`ReleaseResume.StepIsMistaken`).
- A rollback removes a file that stood before the release began exactly if it was ignored and the release committed it
  all the same (`ReleaseRuns.OlderFilesStay`).
- A local release transaction can be rolled back exactly when its release commit exists or no tag was made yet, and
  no link took the place of a snapshotted file (`ReleaseTransaction.Transaction.Rollback`). Both ways of getting
  beyond rollback occur: a commit step that finds nothing to commit (`ReleaseRuns.NothingToCommitIsStuck`) and a hook
  that puts a link in place of a file (`ReleaseRuns.LinkInPlaceIsStuck`).

## Model

| member | source | states |
|---|---|---|
| CrashDisk.PossibleIsExact | internal/app/spool.go:170-175 | the states recorded as possible for a name are exactly those that some surviving subset of the unsynced changes leaves behind |
| CrashDisk.LiveIsPossible | internal/app/spool.go:170-175 | what is visible is always one of the states a crash can leave |
| SpoolProtocol.AllowedKeepsSafe | internal/app/spool.go:290-336 | every step the discipline allows, a crash included, keeps the promises keepable whatever survives a crash |
| SpoolProtocol.DisciplinedRunIsSafe | internal/app/spool.go:338-410 | so does every disciplined run, crashes in the middle of recovery included |
| SpoolProtocol.NoLossNoReplay | internal/app/spool.go:610-685 | cut a disciplined run anywhere and crash: every promised record is offered byte for byte, and no settled one is |
| SpoolProtocol.VisibleNow | internal/app/spool.go:728-757 | the same holds of the visible directory without a crash |
| SpoolProtocol.FirstOpenIsSafe | internal/app/spool.go:100-155 | a directory in which no ticket, the identity of an admission, stands under two numbers is a safe start |
| SpoolProtocol.AnyDirectoryIsSafe | internal/app/spool.go:100-155 | whatever files a directory holds, it is a safe start once each job is known by its number |
| SpoolProtocol.RefusedAdmissionMayReturn | internal/app/spool.go:669-680 | a refused, rolled back admission can reappear after a crash if and only if the second directory sync failed |
| SpoolProtocol.ValidByText | internal/app/spool.go:514-529 | a job is valid exactly if its keys begin as they must, are within 256 and 2048 bytes and hold no NUL or line break, and its payload is neither empty nor over the limit |
| SpoolProtocol.ReadByText | internal/app/spool.go:452-512 | a record is readable exactly if it is a regular file of a valid job, neither empty nor over half as long again as a body and 4096 bytes, and a marker a verdict likewise |
| SpoolAccounts.CountArtifacts | internal/app/spool.go:265-288 | the scan's sum is the total size of markers, temporary and quarantined files |
| SpoolAccounts.TotalDiffers | internal/app/spool.go:558-566 | totals over directories that differ at one name differ by that name's share, the basis of every adjustment of the counters |
| WebhookSpool.Spool.Do | internal/app/spool.go:170-175 | the only way to change the directory: one disciplined step, logged |
| WebhookSpool.Spool.WriteTerminalMarker | internal/app/spool.go:290-318 | after success the verdict is durable; after a failed sync it is rolled back, stands as before, or is reported as stuck |
| WebhookSpool.Spool.CreateMarker | internal/app/spool.go:854-860 | settles the number exactly on success and adds the marker to the accounts, which stay exact unless the marker is stuck |
| WebhookSpool.Spool.RemoveTerminalMarker | internal/app/spool.go:320-336 | removes a spent marker, or after a failed sync leaves it gone or restored; nothing settled is unsettled |
| WebhookSpool.Spool.CloseOut | internal/app/spool.go:880-900 | finishes an acknowledgement whose record is gone: once the marker is gone the number is settled, the claim ends exactly on success, and the accounts follow |
| WebhookSpool.Spool.ReconcileTerminal | internal/app/spool.go:338-410 | on success every number with a valid verdict is settled and temporary files are gone, at no instant breaking a promise |
| WebhookSpool.Spool.Recount | internal/app/spool.go:177-233 | after startup every number with a valid verdict is settled and exactly the readable records without one are offered, unchanged; the counters are what is on disk, and the next number is the least above every record that stood without a verdict; what changed is durable; without faults every bad record is aside unless all its names are taken, and it fails only over a record with the last number |
| WebhookSpool.Spool.QuarantineRecord | internal/app/spool.go:531-549 | a bad record moves to the first free of a hundred names or stays; no good record is touched |
| WebhookSpool.Spool.CleanupQuarantine | internal/app/spool.go:568-608 | removes quarantined files only, durably, none once there is room, and ends with the room asked for or nothing left to remove; where every quarantined entry is a regular file or has no size, exactness is lost precisely if files went and the cleanup failed, and the error is the bytes that went |
| WebhookSpool.Spool.Admit | internal/app/spool.go:610-685 | refused as invalid, too large or closed exactly if it is, in that order; otherwise, with exact accounts and no faults, admitted exactly if a number is left, no temporary file is in its way and what cannot be cleaned away leaves room for it and one more record; success promises the record across crashes under the next number within both limits, and each refusal leaves the promises and other records as they were |
| WebhookSpool.Spool.Pending | internal/app/spool.go:713-757 | lists exactly the offered records, in ascending order |
| WebhookSpool.Spool.ClaimNext | internal/app/spool.go:759-769 | claims the least offered record not claimed yet, or says there is none |
| WebhookSpool.Spool.AckTerminal | internal/app/spool.go:785-900 | success settles every admission of the number; at every failure the record is still there, or its outcome is settled, or the marker stands; without faults it fails exactly for a special file or a left-over temporary marker |
| WebhookSpool.Spool.Discard | internal/app/spool.go:912-930 | ends the promise of a record and moves it aside, others untouched; adds its size, whatever kind of entry it was, to the artifact bytes; without faults it stays only if all hundred names are taken |
| WebhookSpool.MarkerAccounts | internal/app/spool.go:290-336 | writing or removing a marker moves the marker total by the marker's size and leaves the record totals alone |
| WebhookSpool.RecordAccounts | internal/app/spool.go:785-900 | removing a record takes exactly its bytes and one record off the totals |
| SpoolNames.RecordNameRoundTrip | internal/app/spool.go:412-423 | reading undoes writing for every 64-bit number, and a name reads as a number only if it is that number's name |
| SpoolNames.NamesSortAsNumbers | internal/app/spool.go:425-439 | names sort as their numbers do, over all 64-bit numbers |
| SpoolNames.SpellingIsUnique | internal/app/spool.go:234-263 | records, markers, temporary and quarantined files have distinct names, each classified as what it was made as |
| SpoolNames.KindsByText | internal/app/spool.go:234-263 | the scan takes for temporary, terminal or quarantined exactly the names that are a 64-bit record's with the marks the spool adds to it |
| SpoolNames.BeforeIsAnOrder | internal/app/spool.go:425-439 | of two different names exactly one sorts before the other |
| QueueMachine.NewConfig | internal/app/queue.go:65-118 | attempts, slots and pending limit are those asked for where they are in range, and else the nearest or the default one; attempts are one to three, and there are no more slots than pending tasks |
| QueueAttempts.InvAlways | internal/app/queue.go:120-266 | the queue's invariant holds in every state any run reaches |
| QueueInvariant.PairedKept | internal/app/queue.go:120-176 | every live key has exactly one worker and every worker its one queue object, across every step |
| QueueInvariant.GatedKept | internal/app/queue.go:204-237 | gate objects, reference counts and semaphore holders agree across every step |
| QueueInvariant.SlottedKept | internal/app/queue.go:230-236 | slots in use are exactly the workers holding one, across every step |
| QueueHistory.ConservedKept | internal/app/queue.go:157-193 | for every key, accepted is ended, then at work, then waiting, in order, across every step |
| QueueHistory.CountedKept | internal/app/queue.go:120-140 | the pending counter counts exactly the queued and in-flight tasks, across every step |
| QueueAttempts.TriedKept | internal/app/queue.go:241-266 | attempts stay within the limit, and a task only fails uncancelled after all of them, across every step |
| QueueGuarantees.RepositoriesExclude | internal/app/queue.go:197-237 | in every run at most as many tasks execute as there are slots, and no two of them have keys of one repository: the same text up to letter case before the last colon |
| QueueGuarantees.GatesAreShared | internal/app/queue.go:195-221 | two tasks wait for each other at one gate if and only if their keys are of one repository |
| QueueKeys.OneRepositoryByText | internal/app/queue.go:195-202 | what the code computes as a key's repository is the same for two keys exactly if their texts say so; keys without a colon only match as they stand |
| QueueGuarantees.GatesLiveWithUsers | internal/app/queue.go:204-221 | no repository has two live gates, a gate lives exactly while it is used, and none is left when idle |
| QueueGuarantees.PendingIsExact | internal/app/queue.go:120-140 | pending is the number of queued and in-flight tasks and never exceeds its limit |
| QueueGuarantees.EnqueueAccepts | internal/app/queue.go:120-140 | a task is accepted, at the end of its key's line, exactly if the queue is not cancelled and has room; cancelling is always possible |
| QueueGuarantees.KeysRunInOrder | internal/app/queue.go:157-193 | tasks of a key are taken in acceptance order, one at a time, each only after its predecessors ended |
| QueueGuarantees.TasksEndOnce | internal/app/queue.go:241-266 | no task ends twice, none is tried too often, success took a try, failure without cancellation took them all |
| QueueResults.SuccessIsTold | internal/app/queue.go:241-266 | in every run a task ends well if and only if an attempt of it succeeded, and after that it is not tried again |
| QueueResults.RetriesWait | internal/app/queue.go:241-266 | after a failed attempt the next one is ready at once or after a wait, exactly as delays are configured, unless none is left or the queue is cancelled |
| QueueProgress.NoDeadlock | internal/app/queue.go:222-237 | whenever there are workers, one of them can step: gates are taken before slots |
| QueueProgress.UnfinishedMoves | internal/app/queue.go:157-193 | with an accepted task unfinished, some worker step is enabled in every reachable state |
| QueueProgress.PotentialFalls | internal/app/queue.go:241-266 | a natural number falls with every worker step and does not rise on cancellation |
| QueueProgress.RunsDown | internal/app/queue.go:143-147 | once nothing more is accepted, the steps left are bounded in every run |
| QueueProgress.WaitReturns | internal/app/queue.go:143-147 | a run continued until no worker can step has ended every accepted task and holds nothing, cancelled or not |
| WebhookDedupe.Deduper.Reserve | internal/app/dedupe.go:49-61 | grants exactly absent, expired or empty keys; a granted key is then refused to everybody until its lifetime is over, a refused one keeps its entry, and unexpired others stay |
| WebhookDedupe.Deduper.Prune | internal/app/dedupe.go:98-105 | the loop removes exactly the expired entries |
| WebhookDedupe.Deduper.Succeed | internal/app/dedupe.go:64-74 | adds no key and changes no other; a key that is there is marked and granted to nobody until a full lifetime from now |
| WebhookDedupe.Deduper.Release | internal/app/dedupe.go:77-84 | whenever it is asked for next the key is granted, and every other key is as it was |
| WebhookDedupe.SecondReservation | internal/app/dedupe.go:49-61 | a second reservation is granted exactly after expiry, or after a release |
| WebhookService.ToldAlways | internal/app/server.go:428-512 | in every run each stage of a webhook tells truly whether its business step succeeded and what was acknowledged |
| WebhookService.BusinessAtMostOnce | internal/app/server.go:459-481 | however often acknowledging fails and is retried, the business step succeeds at most once and never runs after it did |
| WebhookOutcomes.OutcomesAlways | internal/app/server.go:482-511 | in every run the history of a webhook's steps decides where it stands: recording a failure exactly if its callback decided without success before cancellation, abandoned exactly if it did so after |
| WebhookOutcomes.WhenFailureIsRecorded | internal/app/server.go:500-511 | a failure is durably acknowledged exactly if the callback decided before cancellation, without success, and an acknowledgement went through since |
| WebhookOutcomes.CancelledIsLeft | internal/app/server.go:482-487 | a webhook whose callback decides after cancellation, without success, is never acknowledged; it can only give back its keys, and when it is done both have been free |
| WebhookOutcomes.NeverStuck | internal/app/server.go:439-511 | a webhook that is not done can always take a step of its own |
| WebhookOutcomes.EndsWell | internal/app/server.go:459-481 | from any state, one that comes in with free keys, is admitted, runs well and is acknowledged ends with both keys marked for a full lifetime |
| WebhookOutcomes.EndsBadly | internal/app/server.go:482-511 | and one whose attempt fails ends recorded as failed with both keys free |
| WebhookOutcomes.EndsRefused | internal/app/server.go:564-600 | and one that is refused admission with both keys free and nothing acknowledged |
| WebhookOutcomes.IsTurnedAway | internal/app/server.go:564-600 | one whose key is taken is turned away, and the taker's entry stays as it is |
| WebhookService.ReservationsLast | internal/app/server.go:564-600 | if a key is never reserved while another job at work holds it, every reservation of that key lasts until it expires or its job is acknowledged or given up, and its mark is the one its job's stage tells, whatever happens to other keys |
| WebhookMarks.WhenCompletionIsMarked | internal/app/server.go:459-481 | if its key was never reserved while another job at work held it, then while its reservation lasts a durably completed webhook's key is marked succeeded if and only if the attempt that got it acknowledged had not found the business step already complete; else it is in flight |
| WebhookMarks.LaterTryFoundComplete | internal/app/server.go:459-462 | a webhook acknowledges as a repeated attempt exactly if its own last step was the start of an attempt that found the business step complete |
| WebhookMarks.SilentCompletionHappens | internal/app/server.go:459-481 | a run in which the first acknowledgement fails, the repeated attempt succeeds, and the durably completed webhook's live key stays in flight |
| WebhookService.OnlyTheUnfinishedFree | internal/app/server.go:482-511 | an unexpired key is only ever freed by a refused, failed or cancelled webhook, never by a completed one |
| WebhookReservations.LastsIffUndisputed | internal/app/server.go:482-511 | in every reached state a live reservation stays in the table until it expires or its own webhook is done with it, whatever happens, if and only if no other webhook at work and not completed holds the key |
| WebhookReservations.DisputedReservationCanBeLost | internal/app/dedupe.go:77-84 | if one does, its own further steps take the live reservation away before it is due |
| WebhookReservations.CompleteOnlyMarks | internal/app/server.go:492-506 | a step of a completed webhook leaves every unexpired entry as it is, or marks it succeeded for a full lifetime |
| WebhookReservations.DisputeHappens | internal/app/dedupe.go:97-105 | a run in which a redelivery holds a live reservation of a key that an overdue unfinished webhook still holds |
| SpoolDrain.EnqueuedInOrder | internal/app/spool.go:1027-1047 | in one process lifetime records enter the queue in strictly increasing order, through refusals, retries and cancellation |
| SpoolDrain.StartedInAdmissionOrder | internal/app/spool.go:759-769 | of two records of one key the earlier is started first and has ended before the later one starts, also when both were left over from an earlier process |
| ReleaseWorld.AllowedKeepsSafe | internal/release/transaction.go:308-434 | every disciplined step keeps the transaction recoverable or resumable |
| ReleaseRuns.EveryCrashIsSafe | internal/release/release.go:156-217 | so does every prefix of a disciplined run, that is, a crash anywhere, inside rollback too |
| ReleaseRuns.NothingPublishedIsUndone | internal/release/release.go:236-308 | between a push or announcement and any step that deletes a tag, restores a file or rewinds HEAD, another transaction has begun |
| ReleaseRuns.RemoteEffectsAreJournaled | internal/release/transaction.go:282-302 | whenever the present transaction has had a remote effect, the journal on disk says external or published, or is gone |
| ReleaseRuns.GoneMeansRestored | internal/release/transaction.go:308-434 | a journal that goes away unpublished leaves HEAD, planned tags, tracked and snapshotted paths and the index as they were before the snapshot, or, for a plan without tags, HEAD at least |
| ReleaseRuns.RollbackRestores | internal/release/transaction.go:326-434 | a complete rollback restores all of that, removes exactly what was created since, and touches no other file |
| ReleaseRuns.OlderFilesStay | internal/release/transaction.go:353-388 | of the files that stood before, a rollback removes exactly those not snapshotted that were ignored and that the release commit tells differently from its source |
| ReleaseRuns.WhatRollbackRemoves | internal/release/transaction.go:353-388 | a file without a snapshot goes exactly if it was not untracked before, and is untracked now or told differently by the release commit |
| ReleaseRuns.InterruptedRollback | internal/release/transaction.go:282-307 | a rollback interrupted after any of its steps, any number of times, and then carried out ends where the first would have |
| ReleaseRuns.NothingToCommitIsStuck | internal/release/transaction.go:346-348 | a disciplined run with nothing to commit whose local journal cannot be rolled back |
| ReleaseRuns.LinkInPlaceIsStuck | internal/release/transaction.go:389-418 | a disciplined run whose hook puts a link in place of a tracked file: the tags are as found, and the local journal cannot be rolled back |
| ReleaseTransaction.Transaction.ReleaseHead | internal/release/transaction.go:257-281 | HEAD is recognised as the source or as its exact release commit, whose identity is then remembered |
| ReleaseTransaction.Transaction.RestoreTags | internal/release/transaction.go:326-352 | without faults succeeds exactly if a release commit exists or no tag moved, and then leaves the tags as found |
| ReleaseTransaction.Transaction.RemoveCreatedFiles | internal/release/transaction.go:353-388 | removes exactly the files created since the snapshot that are untracked or part of the release commit |
| ReleaseTransaction.Transaction.RestoreFiles | internal/release/transaction.go:389-418 | without faults brings every snapshotted path back exactly if no link stands where a file was |
| ReleaseTransaction.Transaction.Rollback | internal/release/transaction.go:308-434 | without faults succeeds if and only if the transaction can be rolled back, its result is the fully restored repository, and a failure leaves a transaction that can be rolled back again |
| ReleaseTransaction.Transaction.Recover | internal/release/transaction.go:282-307 | a local transaction is rolled back; an external one is resumed on its recorded release commit or refused, and nothing is touched |
| ReleaseTransaction.Transaction.Abort | internal/release/transaction.go:438-448 | keeps an external or published journal untouched and rolls a local one back, which succeeds if it can be and no further fault comes in between |
| ReleaseTransaction.Transaction.AdvanceTo | internal/release/transaction.go:141-151 | records the phase on disk on success; on failure it may or may not be there, memory being ahead at most |
| ReleaseTransaction.Transaction.TakeSnapshot | internal/release/transaction.go:167-256 | journals HEAD, index, tags, untracked files and every tracked or managed path; a release commit found at HEAD starts out external |
| ReleaseTransaction.Transaction.CreateReleaseCommit | internal/git/git.go:680-693 | HEAD then holds every file of the working tree that is not ignored, as it is, and none that is gone: as the release commit on the source, or because there was nothing to commit |
| ReleaseTransaction.Transaction.Prepare | internal/release/release.go:156-217 | from a fresh journal to planned tags on a release commit that holds the working tree, recorded in the tagging phase, failing only by a fault |
| ReleaseTransaction.Transaction.PublishAll | internal/release/release.go:236-309 | on success exactly what was asked for is pushed and announced, one push, then every tag in order; on failure a first part of that and nothing else; only after the journal says external, and the journal goes only after it says published |
| ReleaseTransaction.Transaction.Settle | internal/release/release.go:69-93 | an earlier transaction is rolled back and replanned, or resumed with its own plan, and without faults refused exactly if neither is possible |
| ReleaseTransaction.Transaction.Execute | internal/release/release.go:54-310 | every step disciplined, and whatever fails nothing pushed or announced that was not asked for; done and published means tags on the release commit, exactly the push and announcements asked for, and no journal left; without faults that happens if and only if an earlier transaction can be settled and the plan can then be started or resumed; failed means no transaction was begun, or it stands untouched because something may have left the machine, or it was rolled back, unless that was impossible or hit by a further fault |
| ReleaseMessage.RenderCommitMessage | internal/release/release.go:379-391 | the loop prints the message the round trips below speak about |
| ReleaseResume.DeriveResumable | internal/release/resume.go:36-171 | resumes exactly if HEAD has a parent, its message prints a plan, no tag of it marks another commit and every version step can be told, and then with that plan and those steps; reports the first tag elsewhere exactly if a selected release has one |
| ReleaseResume.ReleaseCommitResumes | internal/release/resume.go:36-171 | a printed commit whose releases raised the versions of HEAD's parent is resumed, squashed or not, exactly when none of their tags marks another commit |
| ReleaseResume.InferTransition | internal/release/resume.go:183-250 | both loops compute the step the lemmas below speak about, and the check for two matching kinds never fires |
| ReleaseResume.PredecessorsPrecede | internal/release/resume.go:195-216 | each candidate is the version from which a bump of its kind leads to the version cut off behind the number raised, and there is one exactly if that number is not zero |
| ReleaseResume.DecimalSpells | internal/release/resume.go:195-202 | numbers are spelled in digits without leading zeros, and read back as themselves |
| ReleaseResume.InferredLeadsThere | internal/release/resume.go:195-226 | raising the inferred predecessor gives the version if and only if the tags do not mislead: no predecessor of a wider bump is tagged, and a version taken from a tagged one has no suffix |
| ReleaseResume.StepIsFound | internal/release/resume.go:183-250 | for a version raised from the parent's a step is always found; its kind is right exactly when no predecessor of a wider bump is tagged, and its start exactly when the widest tagged predecessor, if any, is the parent's version |
| ReleaseResume.StepIsMistaken | internal/release/resume.go:195-226 | with 1.0.0 and 2.0.0 tagged, the minor release 2.1.0 is taken for a major one from 1.0.0 |
| ReleaseMessage.ResumeRoundTrip | internal/release/resume.go:58-168 | deriving from a printed message gives back names, versions and notes |
| ReleaseMessage.SquashedRoundTrip | internal/release/resume.go:20-23 | the same after a squash merge appended a pull request number |
| ReleaseMessage.DerivedReprints | internal/release/resume.go:154-181 | whatever is derived prints back: the message's first line is the printed subject or that with a pull request number, the rest is the printed body but for surrounding white space, and the versions are those the manifests hold |
| ReleaseMessage.SquashStripped | internal/release/resume.go:20-23 | an appended pull request number is removed |
| ReleaseMessage.StrippedIsSquash | internal/release/resume.go:20-23 | and nothing else: what stripping changes is the subject followed by a pull request number |
| ReleaseMessage.MatchesByText | internal/release/resume.go:170-181 | a message matches a printed one exactly if its first line is the printed subject, perhaps with a pull request number, and the rest but for white space around it is the printed body |
| ReleaseMessage.SplitByText | internal/release/resume.go:309-315 | the first line is the subject, and the body what follows but for white space around it, or nothing |
| TextScan.SpaceByText | internal/release/resume.go:309-315 | the white space around a body is blanks and the five control characters from tab to carriage return |
| ReleaseMessage.NotesByText | internal/release/resume.go:127-140 | a single release has the whole body as notes; one of several without its header in the body has none |
| ReleaseWorld.SquashMergeIsRelease | internal/release/transaction.go:257-281 | a commit on the source whose message is the plan's with a pull request number is a release commit |
| ReleaseMessage.EntriesRoundTrip | internal/release/resume.go:90-108 | the entries of a subject parse back to the packages and versions printed |
| ReleaseMessage.NotesRoundTrip | internal/release/resume.go:127-140 | the notes cut out of a body are the notes printed |
| Changelog.GenerateNotes | internal/changelog/changelog.go:29-48 | the loops print the notes the lemmas below speak about |
| Changelog.GroupsPartition | internal/changelog/changelog.go:55-92 | every commit stands in the section of its group, as often as given, and in no other |
| Changelog.EveryCommitIsTold | internal/changelog/changelog.go:29-100 | every commit is told on a line of its own, with its scope, description and short hash, and its warning if it is breaking, below the heading of its kind and above any other |
| Changelog.NotesAreRecoverable | internal/changelog/changelog.go:29-48 | generated notes are trimmed and hold no package header, as the round trip of the message needs |
| PackageGraph.AssertAcyclic | internal/config/config.go:383-426 | refuses exactly the graphs with a cycle, and reports a real closed walk |
| PackageGraph.Search.Visit | internal/config/config.go:393-417 | terminates; either everything reachable is finished after its successors, or a closed walk is returned |
| PackageGraph.SettledIsAcyclic | internal/config/config.go:383-426 | if every node finished after its successors, there is no closed walk |
| PackageGraph.Normalize | internal/config/config.go:145-192 | accepts exactly non-empty configurations with distinct names, known and foreign dependencies and no cycle |
| ReleasePlan.CreateIndependentPlan | internal/plan/plan.go:104-233 | the loops compute the plan that PlanIsExact describes |
| ReleasePlan.Collect | internal/plan/plan.go:119-143 | candidates are the commits of all windows, each once, by first appearance |
| ReleasePlan.Attribute | internal/plan/plan.go:145-187 | books on each package exactly its direct commits and their highest type |
| ReleasePlan.Propagate | internal/plan/plan.go:190-212 | terminates with exactly the packages that depend, over any number of steps, on directly released ones, added at patch level |
| ReleasePlan.PlanIsExact | internal/plan/plan.go:162-233 | the plan lists exactly the release-worthy commits of any window that route to no package, by first appearance; with none of those it holds exactly one release for every released package, in package order, and else none |
| ReleasePlan.ReleasedExactly | internal/plan/plan.go:178-212 | a package is released exactly if a worthy commit of its own window routes to it or it depends on such a package; its commits are exactly those, each once and by first appearance in the windows, and its type is their highest, or patch |
| ReleasePlan.LevelsAreTold | internal/plan/plan.go:331-336 | a package is released as major exactly if a commit that concerns it is breaking or ruled so, else as minor exactly if one is ruled so, and without any such commit or one ruled a patch it has no reason of its own |
| ReleasePlan.ScopeByParts | internal/routing/routing.go:45-69 | a scope names a package exactly by one of its comma-separated parts, but for white space around it |
| ReleasePlan.FilesHaveOwners | internal/routing/routing.go:71-83 | a file belongs to every package it lies in, and to the root packages exactly if it lies in no other |
| ReleasePlan.OrderIsIrrelevant | internal/plan/plan.go:190-212 | which packages are released and at what level does not depend on their order |
| ReleasePlan.Highest | internal/semver/semver.go:82-99 | the loop with its early exit returns the maximum of the release types |
| GlobMatch.Match | internal/cargoworkspace/members.go:86-110 | true exactly when the pattern decomposes the path, each `**` taking any number of components |
| GlobMatch.Matcher.Visit | internal/cargoworkspace/members.go:90-108 | the memo agrees with the plain recursion although places are marked known before their result is there |
| GlobMatch.PlainFinds | internal/cargoworkspace/members.go:96-105 | where the recursion says yes there is a decomposition |
| GlobMatch.PlainAccepts | internal/cargoworkspace/members.go:96-105 | where there is a decomposition the recursion says yes |
| GitBatch.ParseCommitDiffs | internal/git/git.go:806-838 | the index loop computes the parse the lemmas below speak about |
| GitBatch.BatchRoundTrip | internal/git/git.go:807-838 | printing any batch and parsing it back gives every commit its files in order, whatever the filenames look like |
| GitBatch.OnlyBatchesAreAccepted | internal/git/git.go:820-836 | nothing but a printed batch of known and distinct commits is accepted |
| GitBatch.HeaderByText | internal/git/git.go:778 | a field is taken for a change's header exactly if it is a colon, two modes of six octal digits, two hexadecimal objects and a change letter, with single blanks between |
| GitBatch.HashByText | internal/git/git.go:777 | an identity is forty or sixty-four small hexadecimal digits |
| GitBatch.ParseCommitMetadata | internal/git/git.go:780-803 | accepts exactly complete records of valid, distinct identities, and returns them |
| GitBatch.MetadataRoundTrip | internal/git/git.go:780-803 | a printed log of distinct commits is accepted, and parsing it gives back exactly those commits |
| TomlRender.Document.SetString | internal/tomledit/document.go:130-150 | files an edit or refuses it, for exactly the reasons given, never changing another edit |
| TomlRender.LiteralsStayLiteral | internal/tomledit/document.go:138-143 | a literal token stays literal exactly if its new value holds no quote and no line break |
| TomlRender.Document.Render | internal/tomledit/document.go:152-172 | refuses exactly overlapping edits and results that do not parse, and otherwise replaces every edited token |
| TomlRender.FitsIffApart | internal/tomledit/document.go:157-164 | comparing each edit with its predecessor finds an overlap exactly if two ranges overlap |
| TomlRender.AnyEditFirst | internal/tomledit/document.go:160-168 | applying any one edit first and then the others where they moved to gives the same text |
| TomlRender.OrderDoesNotMatter | internal/tomledit/document.go:152-172 | so the sorted single pass equals applying the edits one by one in any order |
| WorkspaceVersions.Store.UpdateVersion | internal/manifest/manifest.go:79-114 | sets the version exactly if it can be kept somewhere, creating a missing version file, and the package then reads it; if it cannot, nothing changes; reports success exactly if also a Rust package's lock file follows |
| WorkspaceVersions.WhereVersionsAreRead | internal/manifest/toml.go:139-162 | a Cargo package that inherits reads what its workspace's root shares, any other what its own manifest says |
| WorkspaceVersions.ReadAfterWrite | internal/manifest/toml.go:139-162 | an update is read by exactly the packages whose version is kept in the same place |
| WorkspaceVersions.ValidateVersionUpdates | internal/manifest/toml.go:169-225 | the loops accept exactly updates under which packages sharing a version change together, with no unconfigured one among them |
| WorkspaceVersions.AppliedIffEachCan | internal/manifest/manifest.go:79-114 | a series of updates goes through, in whatever order, if and only if each could be made by itself |
| WorkspaceVersions.AcceptedUpdatesAreSafe | internal/manifest/toml.go:166-225 | if accepted and each possible by itself, all updates go through in any order, and make every released package read its planned version and every other one its old version |
| WorkspaceVersions.UnconfiguredKeepTheirVersion | internal/manifest/toml.go:201-217 | and unconfigured workspace members keep the version they inherit |

## Left out

- WebhookSpool.Spool.Admit: entries that are neither records, markers, temporary nor quarantined files have size 0, and 64-bit overflow of the byte counters is not modelled; sizes are those the file system reports.
- WebhookSpool.Spool.Admit: the search for a free number ends at its first probe, because after recovery no record or marker has the next number or a later one; the search's further rounds are not modelled.
- WebhookSpool.Spool.Recount: read errors of single files, the JSON grammar of records and the check of their payloads are left out; a file holds a job, a verdict or junk. Restarts keep the body limit.
- SpoolNames.SpellingIsUnique: quarantine names with leading zeros, which the code recognises but never makes, have no entry of their own.
- Spool ownership lock, directory permissions, ticker, `Start`, `Stop` and `Close` of the spool, and Windows, where directory syncs do nothing.
- QueueGuarantees.RepositoriesExclude: letter case of repository names is folded for ASCII only.
- The queue is a state machine over values and not an object with methods: its sections interleave between goroutines, so the worker loop is no sequential program. `lastFailure`, the failure logger and the task-complete notifier are left out.
- QueueMachine.NewConfig: retry delays are only present or absent; timers are steps that may happen at any time.
- WebhookService.BusinessAtMostOnce: the queue may run attempts in any order and number here, which only adds runs; discarding a startup entry whose keys are taken is a rejected job.
- SpoolDrain.EnqueuedInOrder: the drain's view of the spool is the set of pending numbers; `WebhookSpool.Spool.ClaimNext` proves that the spool object offers the least one.
- HTTP, signatures, tokens, GitHub client, uploads, and decoding of payloads.
- ReleaseTransaction.Transaction.Execute: dry runs, validation beyond tags and HEAD, the clean-tree check and remote drift checks are steps that may fail; hooks, manifest and changelog updates and output files are arbitrary changes to working tree and index.
- ReleaseTransaction.Transaction.Rollback: directories, file identity checks, the locked index and journal decoding are faults that may happen; ignore rules do not change during a transaction; files a hook staged but that were never committed are not among the removed ones, as in the code.
- ReleaseWorld.AllowedKeepsSafe: atomic writes, restores and the journal's removal are single durable steps, and Git's own object store is trusted; nobody else writes to the repository meanwhile.
- ReleaseMessage.ResumeRoundTrip: asks that no package header occurs earlier in the body, that names hold no space or comma, and that notes have the shape `Changelog.NotesAreRecoverable` proves; Git's message cleanup is left out.
- ReleaseResume.DeriveResumable: parsing a version and rendering a tag name are parameters; errors of Git and of reading manifests are left out.
- PackageGraph.Normalize: how a name reads without white space and letter case is a parameter; the rest of configuration loading is left out.
- ReleasePlan.CreateIndependentPlan: whether a path lies in a package is a parameter, as are the commit windows; single-package plans, version bumps, tags and ignored subjects are left out.
- GlobMatch.Match: how one pattern component matches one path component is a parameter; directory walking and the expansion's limits are left out.
- TomlRender.Document.Render: finding the tokens of a TOML text is left out; whether a text parses and how a value is quoted are parameters.
- WorkspaceVersions.Store.UpdateVersion: manifests are parsed documents of the kind their package says; whether Cargo.lock can be brought up to date is a parameter; dependency requirements and the search for the workspace root are left out.
- CLI, workflow generation, doctor, migration, release verification, output files, and symbolic-link-safe file access.
