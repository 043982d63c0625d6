# agbranch protocols and codecs, modelled in Dafny

`agbranch` runs coding sessions in Lima VMs cloned from a prepared base. This project models the parts of it
that are protocols or codecs and proves what they keep, over every run and every input. `dafny verify
dfyconfig.toml` checks all of it.

| files | what they model |
|---|---|
| `AssetNames`, `AssetTree`, `AssetBundle`, `AssetProtocol`, `AssetSafety`, `AssetRuns`, `AssetCollectors`, `AssetRecovery`, `AssetResolver` | the extracted asset cache: acceptance, inspection, extraction by rename, garbage collection, all interleaved, with crashes |
| `LaunchStages`, `LaunchRuns`, `LaunchHistories`, `LaunchExceptions`, `LaunchCommands` | launch, open and retry as checkpointed stages |
| `SessionRefs` | publishing refs by compare-and-swap over a growing commit graph |
| `BaseVm`, `BaseLock` | preparing the base VM, and cloning it under a shared/exclusive lock |
| `SessionKinds`, `Lifecycle`, `LifecycleRuns`, `LifecycleDiscards`, `LifecycleSyncs`, `LifecycleCommands` | a session's row and VM under launch, retry, start, stop, sync, close and repair |
| `Artifacts`, `FileTree` | the filtered tree walk: copying, scrubbing, listing |
| `EventFollow` | followers of an append-only log |
| `ByteOrder`, `Fingerprint`, `ProvisionInputs` | what is hashed, and how it is collected |
| `ShellLexer`, `ShellQuote`, `ShellCommands`, `ShellWords`, `TmuxCommands`, `TmuxNames`, `Secrets` | quoting against a lexer after sections 2.2 and 2.3 of the Shell Command Language volume of POSIX.1-2017 |
| `Ports`, `LimaTimeout`, `RustLiteral`, `Decimal`, `Common` | smaller codecs and shared vocabulary |

Protocols are step machines: a world, labels, which labels are enabled, and the next world. A run is a list
of worlds linked by labels. Where the program is a sequence of writes, a method in a class makes them one by
one; between them other processes may take any steps, a write may fail or the process may die, and the
method's contract says that what it did is a run, or a prefix of a run, of the machine. Which actions work,
and what one that does not leaves behind, is an input of the method, so that its result is told by them.

## What the environment is assumed to do

- `limactl`: cloning onto an existing VM, and starting or stopping one that is missing, fails and changes
  nothing; a forced delete succeeds whether or not the VM is there; editing port forwards needs a stopped VM
  and is atomic; a stop ends all processes in the guest and keeps its disk.
- A stage's effect that succeeds leaves its result, whatever an earlier, interrupted attempt left of it.
- `git`: a ref transaction is atomic; commits are only added. A command may also fail, or end in an error
  after which it has happened or not.
- The catalog: one statement or transaction happens or does not; event ids increase and are never used again.
- Renaming a directory is atomic; file locks are released when a process ends. Fresh temporary names are
  fresh. The clock may stand still but not go back where recovery and single extraction are claimed.
- SHA-256 is any function on byte strings; one fingerprint stands for one list of embedded files.

## Where the code does something else than one might expect

- Garbage collection preserves the name `sha256:<hex>`, but the cache is in `sha256-<hex>`, so the current
  cache counts as obsolete once its marker is a day old (`AssetCollectors.CurrentCacheIsCollectedIff`), and
  from any quiet world a collection then deletes it (`AssetCollectors.CurrentCacheIsDeleted`). What holds is
  that a collector never touches the name it is given (`AssetCollectors.CollectorsPreserveTheirName`), that a
  bundle it deletes was a day old when it looked (`AssetCollectors.DeletedCacheWasOld`), and that even a half
  deleted cache is never accepted with a wrong or missing file.
- Discarded does not imply closed: a second close of a discarded session first marks it as being destroyed
  (`LifecycleDiscards.DiscardedButBeingDestroyed`), and no other command does
  (`LifecycleDiscards.CommandKeepsDiscardedClosedIff`). It does imply that there is no VM.
- A retry does not redo stored stages, so a VM that stopped after its shell or agent was checkpointed comes
  back without that window (`LaunchExceptions.RetryLeavesTheWindowsIff`, `LaunchExceptions.WindowsCanBeLost`);
  and it cannot edit the ports of a VM started meanwhile (`LaunchExceptions.RetryCanBeStuck`).
- A base whose status is neither running nor stopped is cloned as it is unless its configuration is
  deprecated (`BaseLock.ClonesFindAStoppedBaseIff`), and one whose preparation dies half-way can be cloned
  while it runs (`BaseLock.CrashedPreparationIsCloned`).
- The tmux commands carry the session name and workspace unquoted, and nothing checks what is in them. The
  command is read as meant exactly when both are plain words (`TmuxNames.EnsureSessionUnquotesTwiceIff`); a
  workspace with a space is split (`TmuxNames.SpacedWorkspaceSplits`), and one with an apostrophe makes the
  shell reject the command (`TmuxNames.ApostropheIsRejected`).
- A session called `base-macos` or `base-linux` has the prepared base as its VM
  (`LifecycleRuns.SessionVmIsBaseIff`).

## Model

| member | source | states |
|---|---|---|
| AssetRuns.AcceptableIsComplete | src/lima/asset_resolver.rs:245-424 | at every moment of every run of resolvers and collectors, with a death before any step: if a bundle's cache would be accepted, every embedded file is there with its exact bytes and final mode |
| AssetRuns.ReadersSeeRightFiles | src/lima/asset_resolver.rs:186-194 | a reader without the lock, while directories are swapped and deleted under it, finds only right files good |
| AssetRuns.AcceptingReadersSawEveryFile | src/lima/asset_resolver.rs:267-280 | so one that accepts without the lock has found every embedded file right, each when it looked at it |
| AssetRuns.NextKeepsInv | src/lima/asset_resolver.rs:338-424 | every single step keeps: lock and holder agree, no canonical directory has a wrong file, and each extraction has made exactly the progress its position says |
| AssetRuns.ExtractionIsLeftAlone | src/commands/gc.rs:372-378 | while an extraction runs its scratch directory is there and no step of any other process, collectors included, changes any directory |
| AssetCollectors.CollectorsDeleteWhatTheyConfirm | src/commands/gc.rs:356-414 | in every run: a collector that changes anything has confirmed that name under the lock, has held the lock ever since, and nobody else has changed a directory meanwhile; it changes only that one |
| AssetCollectors.GoneCandidatesAreSkipped | src/commands/gc.rs:379-406 | a candidate renamed or reaped between collection and its turn is skipped: whatever that collector changes later, it has confirmed anew |
| AssetCollectors.CollectorsPreserveTheirName | src/commands/gc.rs:312-318 | in every run a collector never changes or removes the directory with the name it was given to preserve |
| AssetCollectors.CurrentCacheIsCollectedIff | src/commands/gc.rs:316-341 | with the fingerprint as the preserved name, the current cache's directory is a candidate exactly when its marker is at least a day old, and passes the recheck under the lock; with the directory's own name it never is |
| AssetCollectors.CurrentCacheIsDeleted | src/commands/gc.rs:312-414 | from every world with nobody at work and the current cache's marker a day old, a run of one collector that preserves the fingerprint and deletes the cache |
| AssetCollectors.DeletedCacheWasOld | src/commands/gc.rs:326-336 | in every run, a collector that changes or removes a bundle's directory saw its marker at least a day old when it drew up its list |
| AssetNames.CanonicalIsFingerprintIff | src/lima/asset_resolver.rs:228-233 | a bundle's directory is named like its fingerprint exactly when that has no colon |
| AssetNames.CanonicalNamesDiffer | src/lima/asset_resolver.rs:222-233 | different fingerprints have different directories |
| AssetNames.CanonicalIsNotScratch | src/commands/gc.rs:343-345 | a canonical name is never taken for a scratch name |
| AssetNames.ScratchNamesAreScratch | src/lima/asset_resolver.rs:343-352 | the names extraction makes are always taken for scratch names |
| AssetRecovery.AtMostOneExtraction | src/lima/asset_resolver.rs:186-211 | from a cold cache any number of racing resolvers that do not die begin at most one extraction of a bundle |
| AssetRecovery.CalmStep | src/lima/asset_resolver.rs:200-211 | without deaths and collectors, a bundle's directory appears only complete, nobody extracts it while it is there, and once begun it stays begun |
| AssetResolver.Host.ResolveUncached | src/lima/asset_resolver.rs:181-220 | alone, from any state runs can reach with the lock free, a resolver whose operations work ends with a cache that would be accepted; one that is good from now on it uses as it is, one that is bad from now on it extracts |
| AssetResolver.Host.ExtractInto | src/lima/asset_resolver.rs:338-373 | extraction changes only its scratch directory and leaves the whole bundle there with the marker last |
| AssetResolver.Host.InstallFile | src/lima/asset_resolver.rs:379-404 | a file written in any number of pieces and given its mode last is installed, and nothing else changes |
| AssetResolver.Host.Commit | src/lima/asset_resolver.rs:406-424 | either way of committing ends with the complete bundle under the canonical name |
| AssetResolver.Host.Look | src/lima/asset_resolver.rs:186-194 | the look without the lock accepts exactly an acceptable cache, and changes nothing |
| AssetProtocol.NextKeepsLock | src/lima/asset_resolver.rs:453-473 | after every step exactly the process the lock names is in a part of the protocol that holds it |
| AssetSafety.ResolverKeeps | src/lima/asset_resolver.rs:338-424 | each operation of an extraction keeps canonical directories right and moves its own progress on as its next position requires |
| AssetTree.CompleteTreeCheck | src/lima/asset_resolver.rs:267-293 | true exactly when every listed file is a regular file with the required permission bits |
| AssetTree.ScriptsEndExecutable | src/lima/asset_resolver.rs:285-394 | scripts are the files named something and `.sh`; extraction gives them mode 755 and all others 644 |
| AssetTree.ScanTree | src/lima/asset_inspect.rs:249-321 | what is missing comes first, its first three paths in manifest order with the number of the others; then, in manifest order, one reason for each file that is there and not good |
| AssetTree.ReportIsExact | src/lima/asset_inspect.rs:249-321 | a reason is in the report exactly when it is true of a listed path: a regular file of the mode found that the owner may not read, or not execute though it is a script, with the bits required; a link; a directory; or neither |
| AssetTree.ReportIsUnique | src/lima/asset_inspect.rs:249-321 | there is one report to make of a tree |
| AssetTree.NoReasonIffComplete | src/lima/asset_inspect.rs:249-305 | the scan reports nothing exactly when the resolver's completeness check passes |
| AssetTree.NewestMtime | src/lima/asset_resolver.rs:319-336 | in any directory order: an error exactly when a link dangles, nothing exactly for an empty directory, else the greatest time in the tree, the present standing for an empty subdirectory |
| AssetTree.DanglesIff | src/lima/asset_resolver.rs:319-336 | the walk fails exactly when somewhere in the tree there is a dangling link |
| AssetTree.CacheIsAcceptable | src/lima/asset_resolver.rs:245-313 | decides acceptance: directory, trimmed marker text, completeness, and times within two seconds of the marker unless the walk fails |
| AssetTree.InspectCache | src/lima/asset_inspect.rs:177-240 | each report is given exactly in its case, earlier checks first, with the text found, the first reason of the report, or the first listed path that is too new |
| AssetTree.AcceptedLooksCached | src/lima/asset_inspect.rs:177-223 | whatever is accepted without a read error is reported as a cache |
| AssetTree.CachedIsAcceptedIff | src/lima/asset_inspect.rs:213-240 | what is reported as a cache is accepted exactly when the time check passes on all entries, so always when there is nothing but the listed files |
| LaunchHistories.ResumedEndsLikeUninterrupted | src/commands/retry.rs:87-187 | a launch or open stopped anywhere after its clone's checkpoint, then any number of stopped retries and VM stops: once its retry row is gone, the session is the one an uninterrupted run makes, windows and repeated port rules aside |
| LaunchHistories.CheckpointNeverMovesBack | src/session/launch_retry.rs:16-45 | over any history the stored checkpoint never moves backwards in its mode's order |
| LaunchHistories.StoredStagesNeverRunAgain | src/commands/retry.rs:88-170 | at no moment of any later retry is a stored stage's effect or checkpoint about to be done again, except starting the VM; no retry ever clones |
| LaunchHistories.RetryCompletesIff | src/commands/retry.rs:88-187 | when nothing fails a retry completes from every resumable session, except to edit ports of a VM somebody started meanwhile |
| LaunchExceptions.RetryLeavesTheWindowsIff | src/commands/retry.rs:227-241 | a completed retry leaves an uninterrupted launch's windows exactly when each is still open or its stage still pending |
| LaunchExceptions.WindowsCanBeLost | src/commands/retry.rs:104-170 | for every launch or open: stopped right after its last window's checkpoint, its VM stopped, and retried without any failure, it ends finished without the shell |
| LaunchExceptions.RetryCanBeStuck | src/commands/retry.rs:88-104 | for every launch or open with ports: stopped after its clone's checkpoint and its VM started by somebody else, the retry cannot complete |
| LaunchHistories.UninterruptedLaunchFinishes | src/commands/launch.rs:151-290 | undisturbed, the plan runs to its end: every applicable part, running VM, running row, no retry row |
| LaunchHistories.StoppedLaunchIsResumable | src/commands/launch.rs:173-300 | a launch that stopped leaving a retry row has everything up to its checkpoint |
| LaunchRuns.AfterCloneIsSafe | src/commands/launch.rs:173-288 | wherever a launch stops after its clone, before or after any effect or write, the session is resumable |
| LaunchRuns.RetryIsSafe | src/commands/retry.rs:88-187 | the same for a retry from every checkpoint, which it never falls below |
| LaunchRuns.RepeatsAreHarmless | src/lima/instance.rs:56-76 | prepending the same port rules again changes no forwarding |
| LaunchStages.RemainingAreLater | src/session/launch_retry.rs:37-45 | a checkpoint is known exactly to the modes that list it, and what remains is exactly what comes later in the order |
| LaunchStages.StagesAreRanked | src/commands/retry.rs:32-51 | each mode lists each of its stages once, in its own order |
| LaunchStages.LaunchPlanIs | src/commands/launch.rs:151-290 | the actions of a launch and of an open, written out in order |
| LaunchExceptions.RetryContinuesLaunch | src/commands/retry.rs:87-187 | from every checkpoint a retry does exactly what the launch had still to do after it, except that it does not mark the session as starting again, and first starts a VM whose start is behind it |
| LaunchCommands.Session.Launch | src/commands/launch.rs:150-301 | launched exactly when every action works; killed exactly when the process died in the first that does not; rolled back exactly when that was the clone or its checkpoint, and preserved exactly when it came later, leaving a session to resume; and in each case what is left |
| LaunchCommands.Session.Open | src/commands/open.rs:239-395 | the same in the order of repository sessions |
| LaunchCommands.Session.Retry | src/commands/retry.rs:53-196 | refuses, changing nothing, exactly without a retry row, with a checkpoint foreign to the mode, or without a VM; else ends well exactly when every remaining action works and finds what it needs, killed exactly when the process died in the first that does not, and preserved otherwise; and in each case what is left |
| LaunchCommands.Session.Rollback | src/session/orchestration.rs:172-245 | what it leaves and whether it succeeds, from which of its deletions work: an open deletes its VM only after its row; when all work neither row, retry row nor VM is left |
| SessionRefs.PublishersOnlyMoveForward | src/git/session_refs.rs:132-166 | in every run each command moves both refs forward together or nothing, errors included; a refusal moved nothing; a publisher whose review value has changed moves nothing and does not succeed |
| SessionRefs.EveryStepIsAllOrNothing | src/git/session_refs.rs:151-165 | for one command, however it ends, whatever the repository has become |
| SessionRefs.ReviewBranchIsAChain | src/git/session_refs.rs:141-150 | if only publishers write a review branch, it never disappears and each value it held is an ancestor of every later one, while commits are added |
| SessionRefs.AncestorStable | src/git/session_refs.rs:88-109 | ancestry survives new commits |
| SessionRefs.AncestorTransitive | src/git/session_refs.rs:88-109 | ancestry is transitive |
| SessionRefs.ReviewIsNotHead | src/git/session_refs.rs:12-25 | a review branch is never a hidden head of any session |
| SessionRefs.AlonePublishesIff | src/git/session_refs.rs:132-166 | undisturbed, a publish succeeds exactly when it is a fast forward of a known commit from the expected head |
| SessionRefs.AloneErrsOrRefusesIff | src/git/session_refs.rs:132-166 | undisturbed, a call errs exactly when there is a review branch and the source is unknown, and is refused exactly when the branch is no ancestor of a known source, the head has moved, or without a branch the source is unknown |
| SessionRefs.StartedAloneEnds | src/git/session_refs.rs:132-166 | in the middle of any run, a publisher that starts and is then left alone ends like that |
| SessionRefs.ZerosAreForty | src/git/session_refs.rs:148-150 | the expected value that stands for a missing ref is forty zeros |
| SessionRefs.CallEndsIff | src/git/session_refs.rs:132-166 | whatever others do meanwhile, a call errs exactly when a command broke, the branch it found could not be resolved, or a commit is unknown; is refused exactly when the value it read is no ancestor or the transaction's expected values do not match; and succeeds exactly when the transaction commits |
| SessionRefs.ACallMovesAtMostOnce | src/git/session_refs.rs:151-165 | whatever others do meanwhile, one call moves refs at most once, forward, and then does not report a refusal |
| SessionRefs.ASuccessMoved | src/git/session_refs.rs:155-162 | a call that reports success moved both refs itself, from the review value it had read |
| SessionRefs.Host.PublishSyncedRefs | src/git/session_refs.rs:132-166 | with anything by others between its commands and its commands ending in any way, its steps are those of one publisher, and each of its three results is given exactly when a command of its trace calls for it |
| BaseLock.NoPreparationDuringAClone | src/commands/base.rs:27-82 | in every run, with crashes, failing steps and outside changes, nobody prepares while another process prepares, clones or may clone |
| BaseLock.OnlyTheHolderChangesTheBase | src/lima/base.rs:176-198 | every change of the base but an outside one is by the holder of the exclusive lock |
| BaseLock.AutomaticPreparationIsStillWanted | src/commands/base.rs:58-79 | without outside changes, an automatic preparation starts only while the base is missing, or deprecated and not running |
| BaseLock.ClonesFindAStoppedBaseIff | src/commands/base.rs:240-263 | when every preparation completes, every clone in every run finds an existing stopped base, exactly when the run does not begin with one of unknown status and current configuration |
| BaseLock.DeprecatedBasesAreNeverCloned | src/commands/base.rs:248-260 | in every run from any base, with deaths and failing steps anywhere: unless a failing step or an outside change itself makes the configuration deprecated, nobody ever clones a deprecated base |
| BaseLock.UndisturbedLaunchClones | src/commands/base.rs:27-82 | with the lock free and nobody else at work, a launch ends at once on a running base and otherwise comes to clone under the shared lock, then drops it: a prepared base if it was missing or deprecated, the base as it is if not |
| BaseLock.AskedPreparationCompletes | src/commands/base.rs:111-120 | likewise `base prepare`, from any base: it ends with a prepared base and the lock free |
| BaseLock.CrashedPreparationIsCloned | src/commands/base.rs:49-57 | a run in which a preparation dies after starting the base and another launch clones it running |
| BaseLock.NextKeepsLock | src/db/locks.rs:25-60 | after every step the lock file tells exactly who holds it, and how |
| BaseLock.Host.AcquireCloneLock | src/commands/base.rs:27-82 | its steps, with anything by others between them, are one process of the protocol; it succeeds only holding the shared lock, having decided to clone or prepare the base it found and given exactly that notice; it fails only having found a running base or a taken lock, for a step that did not work, or exactly when its notice could not be recorded |
| BaseLock.PreparationsStayOnTrack | src/lima/base.rs:176-198 | without outside changes, whatever fails or dies: what is left of any preparation leads to a prepared base, so one at its end has left one |
| BaseLock.Host.PrepareThenLock | src/commands/base.rs:73-78 | success means its preparation came to its end, leaving a prepared base unless changed from outside, before it dropped the lock and locked again with others in the gap |
| BaseVm.PreparationCompletes | src/lima/base.rs:34-64 | from any base the chosen steps all apply in order and end in a prepared base that needs nothing more |
| BaseVm.StrategyIs | src/commands/base.rs:237-319 | the decision on a base: refused exactly when running, created exactly when missing, rebuilt exactly when deprecated and not running, else cloned with exactly the first warning that applies |
| BaseVm.ReportStepsAre | src/lima/base.rs:34-64 | the steps written out: an existing base is deleted exactly when a rebuild was asked for or its configuration is deprecated |
| BaseVm.StepsChangeOneThing | src/lima/base.rs:176-198 | what each working step changes of a base, and that it leaves the rest alone |
| BaseVm.Host.PrepareBase | src/lima/base.rs:159-203 | prepared, by exactly the chosen steps, exactly when every step works; otherwise it names the first that does not, and after a failing stamp still tries to stop the VM |
| LifecycleRuns.ClosedAndDiscardedHaveNoVm | src/commands/close.rs:33-38 | at every moment of every run, for names not beginning with `base-`: a closed row has no VM and a closing time; a discarded one has no VM and is closed or being closed |
| LifecycleRuns.ClosedSessionsStayGone | src/commands/close.rs:294-352 | once closed, a session keeps its row, never gets a VM again, and is only ever closed or being closed |
| LifecycleRuns.SlotIsFreeIff | src/commands/session_slot.rs:6-31 | a slot is free exactly when the name is unused; no other session can have reserved its VM |
| LifecycleRuns.VmNamesDiffer | src/types.rs:72-74 | different sessions have different VMs |
| LifecycleRuns.SessionVmIsBaseIff | src/util/ids.rs:12-24 | a session's VM is a prepared base exactly when it is named `base-` and the platform |
| Lifecycle.CommandIsSafe | src/commands/close.rs:216-352 | wherever any command stops, closed and discarded sessions have no VM and gone ones stay gone |
| Lifecycle.DestroyingCanBeFinished | src/commands/repair.rs:127-159 | from a row being destroyed, a confirmed discard or a repair never gets stuck and ends closed without a VM |
| Lifecycle.FinishRuns | src/commands/close.rs:311-342 | a confirmed close runs to its end with or without a VM, and what the row then says, kept times included |
| Lifecycle.CloseEnds | src/commands/close.rs:107-342 | the exact end of an allowed close: it stops after a sync that is not clean or without confirmation, cannot sync without a VM, and otherwise ends closed with the kept or recorded times |
| Lifecycle.RepairEnds | src/commands/repair.rs:87-164 | the exact end of a repair: running since now with its VM up from a start, closed without a VM from a destroy, unchanged from any other state |
| Lifecycle.StartAndStopEnd | src/commands/start.rs:15-56 | the exact end of a start and of a stop: state, VM, and a time recorded only when the session was not running, or not stopped or closed, before |
| Lifecycle.SyncBackEnds | src/sync/git_native.rs:43-120 | the exact end of a sync back, clean or blocked: running, its outcome recorded, times kept |
| Lifecycle.LaunchBegins | src/commands/launch.rs:130-174 | stopped right after its checkpoint a launch has left exactly a row being cloned, a VM that is down and a retry row; rolled back from there, nothing |
| Lifecycle.LaunchEnds | src/commands/launch.rs:130-290 | the exact end of a launch: running since now, pending, never stopped, its VM up, no retry row; it cannot get by a VM that is there |
| Lifecycle.RetryEnds | src/commands/retry.rs:53-187 | the exact end of a retry: running since now, VM up, no retry row left, other times and the sync state kept; without a retry row or a VM nothing changes |
| Lifecycle.NothingToDo | src/commands/session_slot.rs:6-31 | a name with a row is not launched, and without a row no other command writes anything |
| Lifecycle.CloseKeepsTheStopTime | src/db/sessions.rs:205-235 | closing keeps the time of an earlier stop and otherwise records one |
| LifecycleSyncs.SyncCloseLosesNothing | src/commands/close.rs:232-253 | without guest commits meanwhile, a sync close never deletes a VM whose work has not reached the host |
| LifecycleSyncs.SyncClosesDeleteOnlySaved | src/commands/close.rs:216-352 | in every run, while a sync close goes on and unless the guest commits between the final publish and the deletion, a VM it is about to delete has nothing unsaved |
| LifecycleDiscards.CommandKeepsDiscardedClosedIff | src/commands/close.rs:311-341 | every command keeps discarded sessions closed wherever it stops, exactly when it is not a confirmed close of a discarded one |
| LifecycleDiscards.DiscardedIsClosedUnlessClosedAgain | src/commands/close.rs:33-38 | at every moment of every run, for names not beginning with `base-`: a discarded session is closed, unless somebody has begun a confirmed close of it when it was discarded already |
| LifecycleDiscards.DiscardedButBeingDestroyed | src/commands/close.rs:311-318 | for every session, a run of a launch and two discards that reaches a discarded row marked as being destroyed |
| LifecycleCommands.OutcomeOf | src/commands/close.rs:22-31 | each outcome exactly when its flag alone is given |
| LifecycleCommands.Session.Close | src/commands/close.rs:107-187 | refuses, changing nothing, exactly for bad flags, a missing row, or work to be kept of a sandbox; is interrupted exactly when a write does not work or a due sync finds no VM; and otherwise ends blocked, unconfirmed or closed, each with the exact row and VM it leaves |
| LifecycleCommands.Session.FinishClose | src/commands/close.rs:294-342 | makes the writes of a close in order, or stops at one of them |
| LifecycleCommands.EndIsAttempt | src/commands/close.rs:294-342 | however a command's writes end is one of the ways the runs let it stop |
| LifecycleCommands.Session.Repair | src/commands/repair.rs:87-164 | per state: starting ends running since now with its VM up, destroying ends closed, settled states are left alone, all others are refused unchanged; interrupted exactly when one of its two writes does not work or there is no VM to start |
| Artifacts.Materialize | src/policy/artifacts.rs:65-111 | in any directory order: fails exactly when a surviving link leads outside, else copies exactly what is kept |
| Artifacts.CollectExcludedPaths | src/policy/artifacts.rs:41-57 | lists exactly the excluded paths with nothing excluded above them, each once |
| Artifacts.Visitor.VisitTree | src/policy/artifacts.rs:150-174 | the one walk behind both, below any directory |
| Artifacts.ScrubTree | src/policy/artifacts.rs:118-120 | leaves the pruned tree |
| Artifacts.Worktree.ScrubDirectory | src/policy/artifacts.rs:122-148 | in place, in any order: a directory becomes its pruned self and nothing outside it changes |
| Artifacts.SeedIsScrubbedTreeIff | src/policy/artifacts.rs:65-148 | a copied seed is the scrubbed tree exactly when no socket, device or the like survives |
| Artifacts.SurvivesIffKept | src/policy/artifacts.rs:134-145 | a path survives, with its content, exactly when it was there and is kept |
| Artifacts.KeptMeans | src/policy/artifacts.rs:134-145 | kept means that neither it nor any directory above it is excluded |
| Artifacts.PrunedTwice | src/policy/artifacts.rs:118-148 | scrubbing again changes nothing |
| Artifacts.GoneIffListedAbove | src/policy/artifacts.rs:41-148 | what scrubbing removes is exactly what is listed, and what is below it |
| EventFollow.FollowedIsComplete | src/commands/logs.rs:77-96 | every matching row with a later id that is there at any poll is emitted |
| EventFollow.FollowedIsSound | src/commands/logs.rs:77-96 | whatever is emitted matches, is later than the start, and was there at some poll |
| EventFollow.FollowedIncreases | src/commands/logs.rs:77-96 | rows are emitted in id order, so none twice |
| EventFollow.FollowedIsOneListing | src/commands/watch.rs:99-122 | without deletions, following emits exactly what one listing at the end would |
| EventFollow.SkippingIsListing | src/commands/logs.rs:78-85 | listing everything and skipping what is not newer emits what listing the newer rows would |
| EventFollow.Catalog.RunEventLogs | src/commands/logs.rs:67-97 | with appends and deletions between polls, emits what following emits, polling once without `--follow` and otherwise until interrupted |
| EventFollow.Catalog.RunSyncLogs | src/commands/logs.rs:99-140 | the same from listings that come newest first |
| EventFollow.Catalog.Watch | src/commands/watch.rs:95-122 | starts at the latest id, polls every round, and emits what following from there emits |
| EventFollow.Catalog.LatestEventId | src/db/events.rs:71-86 | the greatest matching id, or zero |
| EventFollow.AppendIsLater | src/db/events.rs:17-30 | an append keeps old rows and takes an id above all of them |
| Fingerprint.DecodeReadsFrames | src/lima/fingerprint.rs:133-147 | the framed stream decodes to exactly the inputs framed |
| Fingerprint.StreamDeterminesInputs | src/lima/fingerprint.rs:124-150 | streams under one salt are equal exactly when the sorted inputs are |
| Fingerprint.SaltsSeparateStreams | src/lima/fingerprint.rs:8-9 | no stream under one salt equals one under the other, for any inputs |
| Fingerprint.PreImageForgetsOrderIff | src/lima/fingerprint.rs:128-147 | the stream ignores the order of collection exactly when no path has two contents |
| Fingerprint.ComputeFingerprint | src/lima/fingerprint.rs:124-150 | hashes the stream of the sorted inputs, or reports an empty path exactly when there is one |
| ByteOrder.SortForgetsOrderIff | src/lima/fingerprint.rs:129-129 | the stable sort forgets the order of collection exactly when no path is listed with two contents |
| ByteOrder.SortByPathSorts | src/lima/fingerprint.rs:129-129 | it sorts bytewise on the path |
| ProvisionInputs.BuildTimeInputs | build.rs:114-155 | from the repository root, in any directory order, collects what the `lima` directory amounts to |
| ProvisionInputs.RunTimeInputs | src/lima/fingerprint.rs:64-97 | from the `lima` directory itself, collects the same, so both give one stream over one tree |
| ProvisionInputs.CollectedExactly | src/lima/fingerprint.rs:65-115 | that is the two templates and the regular `.sh` files directly below `provision`, and nothing else; it fails exactly when one does not read |
| ProvisionInputs.CollectedIs | src/lima/fingerprint.rs:64-115 | that is, in path order: the two templates, read through links, and the regular files directly below `provision` whose name is something followed by `.sh`, each under its path from the repository; it fails exactly when a template does not read |
| ProvisionInputs.DiscoverScripts | build.rs:157-176 | the order in which a directory is read does not show |
| ShellCommands.ArgumentsRoundTrip | src/lima/shell.rs:36-55 | the shell splits joined, escaped arguments back into exactly those arguments |
| ShellCommands.JoinEscapedInjective | src/lima/shell.rs:39-43 | no two argument lists give one line |
| ShellQuote.RunEscaped | src/lima/shell.rs:53-55 | in any word, escaped text is read as itself and nothing in it is active |
| ShellCommands.BuildSshCommand | src/lima/shell.rs:14-51 | the options in order, then one argument that is read as the tokens written out: enter the directory, export the session, load the environment, load the secrets of a file if it is there, run exactly the command or a login shell |
| ShellCommands.SessionShellLineLexes | src/provider/launch.rs:12-18 | the session line is read as meant for every session and workspace |
| ShellCommands.AgentShellLineLexes | src/provider/launch.rs:20-32 | so is the agent's line, ending in exactly its command |
| ShellCommands.BootstrapUnquotesTwice | src/lima/tmux.rs:26-37 | after any finished words, the escaped session line is one word, and read again gives the original session and workspace |
| TmuxNames.EnsureSessionUnquotesTwiceIff | src/lima/tmux.rs:16-33 | for every session name and workspace whatever: the command is read as meant, the bootstrap its last word, exactly when both are plain words; the bootstrap always reads back to its session and workspace |
| ShellWords.OnlyPlainWords | src/lima/tmux.rs:30-33 | any text written into the command as it stands is read as itself exactly when it is a plain word; quotes and backslashes in it never come out right, wherever they are closed |
| TmuxNames.WorkspaceReadsAsItStands | src/lima/tmux.rs:30-33 | without backslashes and `#`: the command is read exactly when the workspace alone is, and the workspace's tokens, however many, stand where one word was meant |
| TmuxNames.SpacedWorkspaceSplits | src/session/paths.rs:4-19 | with a space in the workspace the command has one word too many, before the bootstrap |
| TmuxNames.ApostropheIsRejected | src/types.rs:24-32 | with an apostrophe in the workspace the shell rejects the command |
| Secrets.MergeEnvInputs | src/policy/secrets.rs:7-27 | succeeds exactly when all files read and all entries have `=`, each key then having the value of its last entry, files before inline; otherwise it names the first entry without `=`, or the unreadable file exactly when no entry before it is bad |
| Secrets.LinesReadBack | src/policy/secrets.rs:13-18 | reading a file gives back its lines, however each is ended and whether or not the last one is |
| Secrets.FilesAreLines | src/policy/secrets.rs:13-18 | every text is made of such lines |
| Secrets.NonBlankSplits | src/policy/secrets.rs:15-15 | a line is left out exactly when it is all whitespace, wherever it stands, and the others keep their order |
| Secrets.RenderGuestSecretFile | src/policy/secrets.rs:29-36 | writes a header and one line for each key, once, in the order of the keys |
| Secrets.RenderedFileSourcesBackIff | src/policy/secrets.rs:29-36 | sourcing the rendered file gives back the environment exactly when every key is a POSIX name |
| Secrets.SplitOnce | src/policy/secrets.rs:53-57 | splits at the first `=`, exactly when there is one |
| Ports.PrintReadsBack | src/ports.rs:57-101 | every valid mapping printed reads back as itself |
| Ports.ParsedIsValid | src/ports.rs:57-109 | whatever reads is valid, and survives printing and reading |
| Ports.SinglePortIsTcp | src/ports.rs:70-75 | a single port is published as itself over TCP |
| Ports.MappingReadsIff | src/ports.rs:57-109 | a port or a pair, with a known protocol or none, reads as exactly the numbers it writes, over TCP when it names none, and otherwise as a bad port; more than a pair is a bad mapping |
| Ports.UnknownProtocolIsRefused | src/ports.rs:61-69 | a protocol other than tcp and udp is refused as such, whatever precedes it |
| Ports.ValidatePublishedPorts | src/ports.rs:43-55 | accepts exactly lists without a repeated host port and protocol, else finds the first repeated one |
| LimaTimeout.FormatLimaTimeout | src/lima/instance.rs:204-220 | the text reads back as the seconds, but at least one, and is hours, less than an hour of minutes and less than a minute of seconds without parts that are zero |
| RustLiteral.EscapeRustString | build.rs:90-106 | Rust reads the literal back as the text, and it has no control character in it |
| RustLiteral.ReadEscapedChar | build.rs:93-103 | character by character, whatever follows |
| RustLiteral.OnlyTheseAreEscaped | build.rs:93-103 | quotes, backslashes and control characters are escaped, and nothing else |

## Left out

- AssetRuns.AcceptingReadersSawEveryFile: says nothing about the directory as a whole at one moment, because a look without the lock is not of one moment; files it found may be deleted before it returns.
- AssetTree.AcceptedLooksCached: trees without symlinked directories only, and not when a dangling link makes the resolver's time check pass.
- AssetResolver.Host.ResolveUncached: the environment override, and the in-process table of resolved directories, are not modelled.
- AssetProtocol.NextKeepsLock: creating parent directories is one step with creating the file; the age of scratch directories is left open, so collectors may take any of them; disk writes lost with power are not modelled.
- LaunchHistories.ResumedEndsLikeUninterrupted: timestamps and error texts are not compared; what is copied into the guest is assumed not to change on the host between attempts.
- LaunchCommands.Session.Retry: a retry resolves provider credentials anew instead of with the mode given to launch, which is not recorded; which credentials are imported is not modelled.
- LaunchCommands.Session.Open: the host refs, the seed clone and the checks before the session's row are not modelled.
- SessionRefs.ReviewBranchIsAChain: commits are never pruned.
- BaseLock.Host.AcquireCloneLock: the texts of notices and of the lock file are not modelled.
- LifecycleCommands.Session.Repair: with `--json` the program only reports the action it would take; that is not modelled.
- LifecycleSyncs.SyncClosesDeleteOnlySaved: commits the guest makes between the final sync and the deletion are lost, so they are excluded.
- LifecycleRuns.ClosedAndDiscardedHaveNoVm: commands on one session follow each other, since start and stop take no lock; rows always carry their session's own VM name; an overridden base name is assumed to be no session's.
- TmuxNames.WorkspaceReadsAsItStands: names with backslashes or `#`, for which the exact reading is not given, only that it is wrong.
- TmuxCommands: the window options set afterwards, and the commands that attach or restart a window.
- ProvisionInputs.DiscoverScripts: file names that are not UTF-8, which the program renders with replacement characters.
- Secrets.RenderedFileSourcesBackIff: the shell model reads empty lines and two-word commands, which is what such a file has.
- ShellLexer: here-documents, line continuation outside words and parameter expansion beyond recognising it.
- EventFollow.Catalog.Watch: session snapshots between events, and the rendering of lines.
- Gitignore patterns and resolving symlinks: the exclusion test is any predicate, and whether a link stays inside is part of the tree.
- Validating inserted rows, the remaining lifecycle states, sync runs and staging: no property spans them.
- JSON (port-forward arguments included) and table output, progress, completions, `doctor`, `show` and `ps`: user interface.
- Provider bootstrap, detection of credentials and remembered preferences: lookups and copies.
- Formatting of sizes in GiB: floating point.
- Rewriting of patch headers: textual heuristics.
