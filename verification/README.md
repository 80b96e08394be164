# Verified model of the quota monitor's stateful cores

A Dafny model of the parts of the quota monitor whose correctness depends on histories, crashes and
interleavings, with proofs about all of them:

* **Self-updater.** `UpdateEngine.dfy` has the engine and the file installer as a class over a disk (journal, partial,
  staged, backup and target files). Before every step the environment makes its next move: it may corrupt the downloaded
  files, fail the step or kill the process. `UpdateModel.dfy` holds values, policy and the transition table, `UpdateWorld.dfy` the
  invariant, `UpdateTheorems.dfy` what holds over whole histories. `UpdateRuntime.dfy` is the service around it as a state
  machine over lock sections and single file writes. `ArtifactStreams.dfy` has the three chunked byte loops.
* **What the updater's comparisons rest on.** `CanonicalJson.dfy`, `Encoding.dfy` and `ManifestPayload.dfy` (signing
  payload and fingerprint), `SemVer.dfy` (precedence), `Promotion.dfy` (channel pointer).
* **History synchronization.** `UsageStore.dfy` has the tables and transactions, `Pagination.dfy` the cursor chain,
  `Coverage.dfy` the interval sweep and day slices, `SyncModel.dfy` and `Sync.dfy` the resumable loop,
  `DailyUsage.dfy` the daily report.
* **Scheduling.** `Scheduler.dfy` (one profile, any threads), `Coordinator.dfy` (rotation and fail-stop) and
  `CoordinatorThreads.dfy` (the coordinator's locks).
* **Alerts.** `Alerts.dfy` has both evaluators.
* **Configuration.** `Config.dfy` (document) and `ConfigStore.dfy` (file and backup).

`Prelude.dfy` holds `Option`, `Result`, lexicographic order and finite sums.
`dafny verify dfyconfig.toml` checks everything.

What the environment does is an input: a script of moves, downloads and verdicts for the updater, of strikes
for a sync, of halts for the configuration file, of endings for the collections. A *fault* in the updater's statements is
a bad move of that script: a crash, a raised error, a rewritten cache file, or a download of wrong bytes; the invariant
says that exactly these are counted. Statements that hold "faults aside" say: either a fault was counted during the call,
or exactly this happened.

Results that a reader of the code may not expect:

* An interrupted install cannot be recovered by the version it installed, nor after the manifest expired, because
  `resume` applies the policy for new updates (`NewProgramCannotRecover`; `MatchedExactly` gives the exact condition).
* A process that goes on running after it committed an update still compares with the version it was started as
  (`update_engine.py:238`, `254-257`, `321`), so it may commit the same or a lower version next
  (`OneProcessCommitsDownwards`; `ExhibitDownwards` is such a run of the engine). Committed versions go on increasing exactly while the running
  program is not older than any of them (`NextCommitIncreasesExactly`, `AcceptsOnlyAbove`).
* `ProfileSchedulerCoordinator.start` picks schedulers under its lock and starts them after releasing it; an
  authentication failure in between is undone (`LateStartLeavesProfileDue`). A profile that is disabled and enabled again while
  it is collected gets a new scheduler, which goes on running when the old collection then fails
  (`LateFailureLeavesProfileDue`). In any interleaving these are the only two ways (`StopSurvivesExactly`).
* The two alert evaluators can differ exactly when several streams feed a rule on one day (`AgreementIsExact`), for
  example on a rule for all projects, and only if some observations are stale (`FreshEvaluatorsAgree`,
  `SeveralProjectsDisagree`).
* With the rejecting policy, `save` accepts a configuration that `load` then refuses (`RejectingSetupCannotReadBack`).
* A removed configuration file loads as defaults even though a backup exists (`ConfigService.Load`).

## Model

| member | source | states |
|---|---|---|
| UpdateTheorems.Run | src/quota_monitor/update_engine.py:220-351 | any sequence of calls and restarts, with any manifests and any script of the environment (corrupted files, failing steps, downloads, verdicts, the end of the process after any step), only appends to the history; wherever it stops, the installed file is sound, the history follows the transition table, the attempt is within its write bound, and commits have increased if every attempt was prepared by an up-to-date program (the rows below unfold what sound means) |
| UpdateTheorems.TargetNeverMixed | src/quota_monitor/platform_adapters/update_install.py:38-92 | at every point where a run of the engine can stop, the installed file is the pre-install file or exactly the signed artifact; on a package that cannot replace itself it is always the pre-install file |
| UpdateTheorems.TerminalMeaning | src/quota_monitor/update_engine.py:302-351 | COMMITTED means the signed bytes are installed and a health check passed for exactly these bytes and this version; ROLLED_BACK means the pre-install bytes; before INSTALLING nothing was touched |
| UpdateTheorems.AttemptIsOneUpdate | src/quota_monitor/update_engine.py:251-258 | all journal writes of one attempt carry one plan (one fingerprint, size and digest), and any state beyond AVAILABLE has a download consent behind it |
| UpdateTheorems.InstallingNeedsBothConsents | src/quota_monitor/update_engine.py:296-308 | every write of INSTALLING directly follows an install consent that directly follows STAGED, under the plan the download consent was given for |
| UpdateTheorems.DiscardForcesConsent | src/quota_monitor/update_engine.py:323-351 | after recovery threw a staged file away, the attempt reaches INSTALL_CONSENTED or beyond only through a new download and a new install consent |
| UpdateTheorems.FinalStates | src/quota_monitor/update_engine.py:251-258 | MANUAL_RECOVERY is never left; COMMITTED and ROLLED_BACK only by preparing a new attempt |
| UpdateTheorems.WritesAreBoundedBySetbacks | src/quota_monitor/update_engine.py:416-428 | the number of writes of an attempt is bounded by the rank of its state and five per setback |
| UpdateTheorems.AttemptEnds | src/quota_monitor/update_engine.py:302-351 | an attempt makes at most eight journal writes and five more for every bad move in the environment script during it (crash, failed step, corrupted file or wrong download) |
| UpdateTheorems.CommitsIncrease | src/quota_monitor/update_engine.py:251-258 | if every attempt is prepared by a program that is not older than anything committed before, committed versions strictly increase in precedence |
| UpdateTheorems.AcceptsOnlyAbove | src/quota_monitor/update_engine.py:393-397 | everything a program accepts is above a committed version if and only if the program is not itself older than it |
| UpdateTheorems.NextCommitIncreasesExactly | src/quota_monitor/update_engine.py:251-321 | after any finished history, commits go on increasing for every version the running program accepts if and only if they increased so far and the program is not older than any of them, which can be checked before prepare |
| UpdateTheorems.OneProcessCommitsDownwards | src/quota_monitor/update_engine.py:238-257 | the case where that fails: one process of version 1.0.0 commits 2.0.0 and then 1.5.0, in a history that follows the table and the policy |
| UpdateTheorems.CommitDownwards | src/quota_monitor/update_engine.py:238-321 | the same as a run of the engine: for any two accepted versions, if nothing strikes, both downloads are right and both verdicts are positive, the lower one is committed after the higher one, without a restart |
| UpdateTheorems.ExhibitDownwards | src/quota_monitor/update_engine.py:238-321 | such a run exists: a concrete engine of version 1.0.0 commits 2.0.0 and then 1.5.0 without a fault |
| UpdateTheorems.MatchedExactly | src/quota_monitor/update_engine.py:405-414 | download, install and resume act on a journal if and only if the manifest is the one it was prepared from and the running program and the clock still satisfy the policy; a false expectation that recovery is always possible is thereby made exact |
| UpdateTheorems.NewProgramCannotRecover | src/quota_monitor/update_engine.py:393-414 | the new program, started after an interrupted install, is refused recovery with every manifest at every time |
| UpdateTheorems.Upgrade | src/quota_monitor/update_engine.py:251-321 | the faults counted during the call are exactly the bad moves in the script; if there are none and the next download is right, an accepted update on a replaceable package makes one health check and ends COMMITTED with the signed bytes or ROLLED_BACK with the old bytes as that verdict says |
| UpdateTheorems.Obtain | src/quota_monitor/update_engine.py:251-294 | if nothing strikes and the next download is right, prepare, consent and download end STAGED with the signed artifact and an untouched program |
| UpdateTheorems.Apply | src/quota_monitor/update_engine.py:296-321 | if nothing strikes, consent and install make one health check, whose verdict alone decides between commit and rollback |
| UpdateTheorems.Recover | src/quota_monitor/update_engine.py:323-351 | if nothing strikes, recovery reaches exactly the state that the journal and the files call for |
| UpdateWorld.SafeIsAccountable | src/quota_monitor/update_engine.py:220-351 | within one attempt the faults counted between any two states are exactly the bad moves that the script has between them |
| UpdateEngine.Engine.Turn | src/quota_monitor/update_engine.py:220-351 | one move of the environment as its script has it, and nothing else |
| UpdateEngine.Engine.Prepare | src/quota_monitor/update_engine.py:251-275 | refuses by policy or unfinished attempt without any effect; else writes a fresh AVAILABLE journal for the one matching artifact, or fails without a journal write |
| UpdateEngine.Engine.ConsentDownload | src/quota_monitor/update_engine.py:277-279 | only from AVAILABLE; one write of DOWNLOAD_CONSENTED or none |
| UpdateEngine.Engine.Download | src/quota_monitor/update_engine.py:281-294 | only from DOWNLOAD_CONSENTED and a matching manifest; DOWNLOADING, VERIFIED, STAGED are written in order and a fault-free call leaves the signed artifact staged |
| UpdateEngine.Engine.ConsentInstall | src/quota_monitor/update_engine.py:296-300 | recorded, without faults, if and only if the staged file is the signed artifact |
| UpdateEngine.Engine.Install | src/quota_monitor/update_engine.py:302-321 | a commit passed INSTALLING and HEALTH_CHECK on the positive verdict of the one check that was made; without faults that verdict alone decides, an unsupported package ends in MANUAL_RECOVERY, and a bad staged file stops before any write |
| UpdateEngine.Engine.Resume | src/quota_monitor/update_engine.py:323-351 | from each state, where recovery goes when nothing goes wrong meanwhile, and that it never does anything else unless a fault strikes |
| UpdateEngine.Engine.RollBack | src/quota_monitor/update_engine.py:430-437 | writes ROLLED_BACK or MANUAL_RECOVERY, the former exactly when a restorable backup exists (faults aside) |
| UpdateEngine.Engine.InstallFiles | src/quota_monitor/platform_adapters/update_install.py:74-87 | after success the program is the signed artifact and the backup is the old program; refused without effect on the program by the fail-closed installer |
| UpdateEngine.Engine.RestoreBackup | src/quota_monitor/platform_adapters/update_install.py:89-92 | after success the program is the pre-install program; fails exactly when there is no backup or the package cannot replace files (faults aside) |
| UpdateEngine.Engine.DurableCopy | src/quota_monitor/platform_adapters/update_install.py:38-68 | one atomic replacement by exactly the source content, only if it has the expected size and digest; else nothing outside the cache changes |
| UpdateEngine.Engine.Verify | src/quota_monitor/update_manifest.py:571-573 | succeeds exactly on a file with the signed size and digest (faults aside) |
| UpdateModel.NewPlanMatches | src/quota_monitor/update_engine.py:251-275 | a manifest always matches the plan prepared from it |
| UpdateModel.Matches | src/quota_monitor/update_manifest.py:124-133 | exactly the artifacts that fit the platform |
| ArtifactStreams.VerifyStream | src/quota_monitor/update_manifest.py:543-568 | accepts exactly the bytes with the signed size and digest, however reads split them |
| ArtifactStreams.DownloadStream | src/quota_monitor/update_engine.py:117-184 | the file exists afterwards if and only if announced length, size and digest are the signed ones, and never grew beyond the signed size |
| ArtifactStreams.CopyStream | src/quota_monitor/platform_adapters/update_install.py:46-60 | the copy is the source, and is made if and only if the bytes just copied have the expected size and digest |
| UpdateRuntime.CacheMatchesJournal | src/quota_monitor/update_runtime.py:179-212 | in every interleaving of check, consents, background operations and restarts, an unfinished journal and the cached manifest carry one fingerprint, so the branch for a cache that does not match its journal is never taken; every journal write builds on the journal it replaces |
| UpdateRuntime.PrepareNeverInterleaves | src/quota_monitor/update_runtime.py:384-414 | if check prepares while a background operation is still registered, the fresh journal is what the file holds in every later state until that operation ends, and no step from any of them is a write of it |
| UpdateRuntime.StepKeepsInv | src/quota_monitor/update_runtime.py:306-365 | every single step of every thread keeps the invariant and the transition table |
| UpdateRuntime.RunKeepsInv | src/quota_monitor/update_runtime.py:179-471 | the invariant holds at every position of every run |
| CanonicalJson.CanonicalizeIsExact | src/quota_monitor/canonical_json.py:17-55 | two values have the same canonical bytes if and only if they are the same decoded value, dictionaries compared without order |
| CanonicalJson.SerializeRespectsSameValue | src/quota_monitor/canonical_json.py:43-52 | insertion order does not matter |
| CanonicalJson.SerializeUnique | src/quota_monitor/canonical_json.py:29-55 | the text of a value, followed by anything that does not prolong a number, determines the value, also when the two texts come from different printers (canonical_json and json.dumps with sorted keys and ASCII escapes) |
| CanonicalJson.ReadingIsUnique | src/quota_monitor/update_runtime.py:450-459 | reading, as the inverse of the two printers, is determined up to the order of fields |
| CanonicalJson.SortSorted | src/quota_monitor/canonical_json.py:49-49 | members are listed by the UTF-16 order of their keys, each once (section 3.2.3 of RFC 8785) |
| CanonicalJson.SortedUnique | src/quota_monitor/canonical_json.py:49-49 | that listing is the only one |
| CanonicalJson.EscapeUnique | src/quota_monitor/canonical_json.py:40-42 | escaped strings end in one place and determine the string |
| Encoding.ByteOrderIsUnitOrder | src/quota_monitor/canonical_json.py:49-49 | comparing big-endian bytes is comparing UTF-16 code units |
| Encoding.Utf16Injective | src/quota_monitor/canonical_json.py:49-49 | the sort key determines the key |
| Encoding.Utf8Injective | src/quota_monitor/canonical_json.py:26-26 | the encoding to bytes loses nothing |
| Encoding.KeyOrder | src/quota_monitor/canonical_json.py:49-49 | the key order is a strict total order |
| ManifestPayload.PayloadIsExact | src/quota_monitor/update_manifest.py:354-359 | equal signing payloads mean equal manifests apart from the signature |
| ManifestPayload.FingerprintIsExact | src/quota_monitor/update_engine.py:490-491 | under a collision-free digest one fingerprint means one signed content and one signature |
| ManifestPayload.CachedCopyKeepsPayload | src/quota_monitor/update_runtime.py:450-459 | decoding the signing payload, adding the signature, printing with json.dumps and reading again cannot fail for any manifest with a payload; the document read has the same signature and the same signing payload, so the cached copy keeps its fingerprint |
| SemVer.ParsePrint | src/quota_monitor/semver.py:33-60 | every valid version is parsed back from its text |
| SemVer.PrintParse | src/quota_monitor/semver.py:33-60 | every accepted text is what its version prints, and the version is valid |
| SemVer.PrecedenceIsItem11 | src/quota_monitor/semver.py:62-69 | the order is that of items 10 and 11 of Semantic Versioning 2.0.0, stated without the scan |
| SemVer.ScanIsItem11 | src/quota_monitor/semver.py:91-112 | the early-return scan decides at the first difference as item 11.4 says, and equality is identity |
| SemVer.PrecedenceTotal | src/quota_monitor/semver.py:62-85 | exactly one of less, equal, greater |
| SemVer.PrecedenceTransitive | src/quota_monitor/semver.py:62-69 | the order is transitive |
| SemVer.SameRespectsLess | src/quota_monitor/semver.py:71-85 | equality respects the order on both sides |
| SemVer.SplitJoin | src/quota_monitor/semver.py:33-48 | splitting at dots undoes joining |
| Promotion.PrecedenceNeverFalls | scripts/validate_channel_promotion.py:35-53 | over a whole promotion history the precedence never falls |
| Promotion.EqualPrecedenceIsOnePointer | scripts/validate_channel_promotion.py:35-53 | two pointers of equal precedence, any number of promotions apart, are byte-identical (command line) or equal documents (direct calls) |
| Promotion.CheckedFacts | scripts/validate_channel_promotion.py:22-53 | what one accepted check establishes about a pointer and its predecessor |
| Coverage.IntervalIsCovered | src/quota_monitor/database.py:1436-1446 | true if and only if every second of the range lies in some interval, for any order of intervals |
| Coverage.IrrelevantIntervals | src/quota_monitor/database.py:1259-1283 | dropping intervals that do not meet the range does not change coverage |
| Coverage.UtcDaySlices | src/quota_monitor/sync_service.py:96-107 | rejects exactly the bad ranges; else cuts the range into non-empty consecutive slices exactly at its interior UTC midnights |
| Coverage.DaySlicesUnique | src/quota_monitor/sync_service.py:96-107 | there is only one such partition |
| Coverage.DaySlicesCover | src/quota_monitor/sync_service.py:96-107 | its slices always cover the range |
| Coverage.SlicesAscend | src/quota_monitor/sync_service.py:96-107 | different slices are disjoint and in order |
| UsageStore.Database.ReconcileSlice | src/quota_monitor/database.py:901-1061 | rejects bad input without effect; else the tables differ by exactly the reconciled rows, the completed slice row and the page count of its run |
| UsageStore.ReconciledAt | src/quota_monitor/database.py:999-1040 | key by key: inside the slice the staged row or nothing, elsewhere and for other profiles the old row |
| UsageStore.StagedIsSums | src/quota_monitor/database.py:922-998 | each staged row is the sum of all given buckets with its key |
| UsageStore.StagedMentions | src/quota_monitor/database.py:922-998 | a key is staged exactly when some bucket has it |
| UsageStore.StagedIsValid | src/quota_monitor/database.py:1380-1411 | sums keep cached input at most input and stay inside the slice |
| UsageStore.LastReconcileWins | src/quota_monitor/database.py:999-1040 | reconciling a slice twice leaves what the second one alone would, so repeating changes nothing |
| UsageStore.DisjointReconcilesCommute | src/quota_monitor/database.py:999-1040 | slices that do not overlap can be reconciled in either order |
| UsageStore.Database.StartRun | src/quota_monitor/database.py:790-819 | adds one open run or fails on a bad range or a used identifier, changing nothing else |
| UsageStore.Database.FindResumable | src/quota_monitor/database.py:1110-1133 | the newest unfinished run of exactly this range, or none if there is none |
| UsageStore.Database.ResumeRun | src/quota_monitor/database.py:1135-1155 | reopens a run that may be resumed, else fails without effect |
| UsageStore.Database.RecordCheckpoint | src/quota_monitor/database.py:821-878 | refused without effect for exactly the bad arguments and closed or unknown runs; else writes the unfinished row, whatever status it had, and sets the page count of the run to the sum over its slices |
| UsageStore.Database.FinishRun | src/quota_monitor/database.py:1063-1097 | a completed run is refused if and only if its completed slices leave a gap |
| UsageStore.Database.HasCompleteCoverage | src/quota_monitor/database.py:1449-1460 | true if and only if every second of the run is in a completed slice |
| UsageStore.WithSliceKeepsTables | src/quota_monitor/database.py:857-877 | a slice write keeps page sums and row validity |
| UsageStore.Database.SumPages | src/quota_monitor/database.py:862-877 | the sum of pages over the slices of a run |
| Pagination.RepeatMeansNeverEnds | src/quota_monitor/upstream_adapter.py:170-190 | a cursor that comes back means the chain goes on forever |
| Pagination.EndIsUnique | src/quota_monitor/upstream_adapter.py:149-191 | a chain ends after one page count, with one contract error, or never |
| Sync.UsageSyncService.FetchSlice | src/quota_monitor/upstream_adapter.py:149-191 | a fetch returns exactly the records of the whole chain; however it ends, it made at most one request more than there are cursors; undisturbed and with cursors that can be stored it succeeds if and only if the chain ends, reports a repeated cursor if and only if it never ends, and a contract error if and only if a page breaks the contract |
| Sync.UsageSyncService.Advance | src/quota_monitor/upstream_adapter.py:176-190 | one round of the page loop: what is collected, when it stops and that unseen cursors get fewer |
| Sync.UsageSyncService.FetchNext | src/quota_monitor/upstream_adapter.py:172-190 | one request and its page: the loop goes on along the chain with fewer unseen cursors, or ends with a verdict on the chain |
| Sync.ChainDecides | src/quota_monitor/upstream_adapter.py:149-191 | an outcome that neither a strike nor an unstorable cursor caused says exactly how the chain goes on |
| SyncModel.CompletedSyncsAgree | src/quota_monitor/sync_service.py:167-386 | two completed syncs from the same start store the same counts, however each was interrupted |
| Sync.SyncRepeatedly | src/quota_monitor/sync_service.py:167-386 | after any number of calls, each stopped anywhere, resumed or not, the last one to report completion leaves in every day slice exactly the upstream rows and everything else as it was; once the environment disturbs at most a given number of further steps, more calls than that end in a completed one |
| Sync.UsageSyncService.Sync | src/quota_monitor/sync_service.py:167-386 | one call, ended anywhere: what is stored agrees with the upstream, completed slices never regress, only the run of the given identifier may be new, and a report agrees with the tables; an undisturbed call on a range whose chains end with valid records and storable cursors reports completion |
| Sync.UsageSyncService.SyncOpened | src/quota_monitor/sync_service.py:195-386 | the slices of an open run and its end: completed if nothing disturbs it and the slices can be fetched and stored |
| Sync.UsageSyncService.SyncSlices | src/quota_monitor/sync_service.py:202-360 | the loop invariant over slices: what is done is completed, the counter is the number of completed slices; undisturbed and with fetchable slices it gets through |
| Sync.UsageSyncService.SyncSlice | src/quota_monitor/sync_service.py:218-314 | a slice is stored if and only if it is completed afterwards |
| Sync.UsageSyncService.WriteEnd | src/quota_monitor/sync_service.py:315-366 | ending a run is never refused once its slices leave no gap |
| Sync.CloseMakesReport | src/quota_monitor/sync_service.py:315-386 | the closing of a run makes its report true |
| SyncModel.LoopDone | src/quota_monitor/sync_service.py:364-366 | when the loop is through, the gap-free check cannot refuse and the counts are exact |
| SyncModel.ReconcileAdvances | src/quota_monitor/sync_service.py:290-300 | the reconcile transaction of a fetched slice makes that slice match the upstream and disturbs no other |
| SyncModel.StampsDoNotCount | src/quota_monitor/sync_service.py:388-404 | collection time and catalog version do not influence the stored counts |
| DailyUsage.Daily | src/quota_monitor/database.py:1234-1320 | days are right, in order and complete, and their totals (null as zero) add up to exactly the tokens of the rows selected |
| DailyUsage.ReportDay | src/quota_monitor/database.py:1275-1316 | complete if and only if every second of the day is in a completed slice; totals are null if and only if there are no rows and no full coverage; group tokens and other tokens add up to the total |
| DailyUsage.SelectionIsEnough | src/quota_monitor/database.py:1259-1283 | the overlap pre-filter does not change whether a day is complete |
| DailyUsage.GroupsAddUp | src/quota_monitor/database.py:1286-1306 | tokens by group plus tokens of no group are all tokens |
| DailyUsage.QueryUsage | src/quota_monitor/database.py:1195-1232 | every matching row, once, ordered by start, project, model and service tier |
| DailyUsage.NextDay | src/quota_monitor/database.py:1275-1316 | one more day of rows adds exactly that day |
| Scheduler.DelayBounds | src/quota_monitor/scheduler.py:79-84 | jitter never shortens the delay, lengthens it by at most its share, and never beyond the maximum |
| Scheduler.CollectionsNeverOverlap | src/quota_monitor/scheduler.py:113-181 | for any number of threads in any interleaving of lock sections, two collections never overlap and none begins while paused |
| Scheduler.StepKeepsOneCollector | src/quota_monitor/scheduler.py:129-181 | every lock section keeps that, and the running flag says whether somebody collects |
| Scheduler.TicksAreSpaced | src/quota_monitor/scheduler.py:113-181 | in any history of calls that do not overlap, a tick starts a run only one interval after a success or partial result, and min(max, base times 2 to the k-1) after the k-th straight retryable failure |
| Scheduler.NextRunWaits | src/quota_monitor/scheduler.py:145-181 | the next run is never set earlier than that, and after a failure never later than the maximum |
| Scheduler.FailuresAreStreak | src/quota_monitor/scheduler.py:158-180 | the failure counter is the number of failures since the last success or partial result |
| Scheduler.RawDelayGrows | src/quota_monitor/scheduler.py:79-84 | without jitter the delay is positive, at most the maximum, and each failure at most doubles it |
| Scheduler.FreshStartWaits | src/quota_monitor/scheduler.py:113-137 | after a start the first tick that runs is one interval later, or at once if asked to run immediately |
| Scheduler.StoppedIsNeverDue | src/quota_monitor/scheduler.py:120-175 | neither a paused scheduler nor one whose last run failed authentication is due before it is started again |
| Scheduler.CollectionScheduler.Tick | src/quota_monitor/scheduler.py:129-137 | runs if and only if due, with the state change of the run and no other |
| Scheduler.CollectionScheduler.RunNow | src/quota_monitor/scheduler.py:139-143 | runs if and only if neither paused nor running |
| Coordinator.NobodyStarves | src/quota_monitor/desktop_runtime.py:243-263 | while the profile set is fixed, a profile that is due at every tick until it is served is collected within as many ticks as there are profiles, whatever else is called in between |
| Coordinator.TickBringsNearer | src/quota_monitor/desktop_runtime.py:243-263 | a tick that runs another profile strictly shortens the rotation distance of every due one |
| Coordinator.OnlyTicksRotate | src/quota_monitor/desktop_runtime.py:197-277 | no other call moves the rotation |
| Coordinator.NoRunAfterAuthError | src/quota_monitor/desktop_runtime.py:137-178 | over any run of calls, a profile whose collection ended in an authentication error does not collect again before a call releases it |
| Coordinator.StoppedUntilReleased | src/quota_monitor/desktop_runtime.py:180-241 | exactly the releasing calls end the stop: resume_profile while not paused, or a refresh that drops the profile |
| Coordinator.CallKeepsFailStop | src/quota_monitor/desktop_runtime.py:180-277 | every completed call keeps blocked profiles paused |
| Coordinator.LateStartIsSafe | src/quota_monitor/desktop_runtime.py:197-207 | start picks schedulers under the lock and starts them after releasing it; the stop survives if and only if none of those picked was blocked meanwhile |
| Coordinator.LateStartRevives | src/quota_monitor/desktop_runtime.py:197-207 | a concrete case in which an authentication failure in that gap is undone and the profile is due again |
| CoordinatorThreads.OneCollectionAtATime | src/quota_monitor/desktop_runtime.py:209-277 | in every interleaving of lock sections, whatever profiles are added and dropped meanwhile, at most one profile is collected at a time, its collector holds the execution lock, and exactly its scheduler is running |
| CoordinatorThreads.StopSurvivesExactly | src/quota_monitor/desktop_runtime.py:197-241 | a lock section leaves the schedulers of blocked profiles stopped if and only if it neither starts a scheduler whose profile was blocked after it was picked nor blocks a profile that was dropped during its collection and has a new running scheduler |
| CoordinatorThreads.BlockedNeverBegins | src/quota_monitor/desktop_runtime.py:137-178 | as long as neither happens, no collection of a blocked profile begins |
| CoordinatorThreads.LateFailureLeavesProfileDue | src/quota_monitor/desktop_runtime.py:137-195 | a reachable case of the second way: the profile is blocked and still due |
| CoordinatorThreads.LateStartLeavesProfileDue | src/quota_monitor/desktop_runtime.py:137-207 | a reachable case of the first way, with the same result |
| CoordinatorThreads.StepKeepsClosed | src/quota_monitor/desktop_runtime.py:180-277 | a thread that kept a scheduler across a refresh still refers to one that exists |
| Coordinator.ProfileSchedulerCoordinator.Tick | src/quota_monitor/desktop_runtime.py:243-263 | asks the profiles in rotation, runs the first due one, which ends as the next ending of the script says, and moves the rotation behind it |
| Coordinator.ProfileSchedulerCoordinator.RunNow | src/quota_monitor/desktop_runtime.py:265-277 | runs the named profile or the first one if it is neither paused nor running, which ends as the next ending of the script says |
| Coordinator.ProfileSchedulerCoordinator.Start | src/quota_monitor/desktop_runtime.py:197-207 | starts every scheduler that is not blocked |
| Coordinator.ProfileSchedulerCoordinator.Pause | src/quota_monitor/desktop_runtime.py:209-215 | pauses every scheduler and forgets its next run |
| Coordinator.ProfileSchedulerCoordinator.Resume | src/quota_monitor/desktop_runtime.py:217-229 | starts only schedulers without a next run, never a blocked one |
| Coordinator.ProfileSchedulerCoordinator.ResumeProfile | src/quota_monitor/desktop_runtime.py:231-241 | unblocks and starts one enabled profile unless the coordinator is paused |
| Coordinator.ProfileSchedulerCoordinator.Refresh | src/quota_monitor/desktop_runtime.py:180-195 | keeps the schedulers of enabled profiles, drops the others with their block, adds paused ones |
| Coordinator.SortedIds | src/quota_monitor/desktop_runtime.py:249-249 | the ascending listing of the profile identifiers |
| Coordinator.ListingIsUnique | src/quota_monitor/desktop_runtime.py:249-249 | there is only one |
| Alerts.AtMostOneAlert | src/quota_monitor/alert_storage.py:80-153 | between two deletions of a rule there is at most one alert per profile, rule and UTC day, whatever rules are saved, changed or passed in, and the table says whether there was one |
| Alerts.AlertWhenCrossed | src/quota_monitor/alert_storage.py:80-153 | while a rule stays as it is, a day has its alert if and only if a fresh observation reaches the threshold from a lower previous one |
| Alerts.AlertWhenReached | src/quota_monitor/alert_storage.py:80-153 | if all matching observations of the day are fresh: if and only if one of them reaches the threshold |
| Alerts.RaisedInOrder | src/quota_monitor/alert_storage.py:86-152 | stale observations raise nothing; alerts come by ascending threshold, each for a matching rule |
| Alerts.EvaluatorsAgree | src/quota_monitor/alerts.py:64-105 | with fixed rules, unique identifiers and one stream per rule and day, the persistent evaluator and the one in memory raise the same alerts in the same order over a history |
| Alerts.AgreementIsExact | src/quota_monitor/alerts.py:64-105 | for given rules and streams both evaluators agree on every history drawn from the streams if and only if no rule is fed by two of them on one day |
| Alerts.FreshEvaluatorsAgree | src/quota_monitor/alerts.py:64-105 | if all observations are fresh they agree, however many projects feed a rule |
| Alerts.SeveralProjectsDisagree | src/quota_monitor/alerts.py:64-105 | for any rule list, whenever a stale observation of one project and then a fresh one of another reach the threshold of a rule on one day, only the evaluator in memory raises its alert |
| Alerts.SQLiteAlertState.EvaluateRules | src/quota_monitor/alert_storage.py:80-153 | one transaction: fails without effect if and only if a matching rule is not saved; else exactly the folded rows and alerts |
| Alerts.SQLiteAlertState.DeleteRule | src/quota_monitor/alert_storage.py:71-78 | removes the rule and, by cascade, its rows |
| Alerts.AlertEvaluator.EvaluateRules | src/quota_monitor/alerts.py:64-105 | the new memory and the alerts as folds over the sorted rules |
| Alerts.SortIsStable | src/quota_monitor/alert_storage.py:86-86 | by threshold, rules of equal threshold in their given order |
| Alerts.StoreIsAnchored | src/quota_monitor/database.py:412-424 | every row of the table belongs to a saved rule |
| Alerts.TableRemembers | src/quota_monitor/alert_storage.py:95-120 | after any history the row of a steady rule holds the last matching percent of the day and whether a crossing happened |
| Config.RoundTripIsExact | src/quota_monitor/config_service.py:163-328 | parsing what was printed gives the configuration back if and only if its values are in range and its unknown fields have names of their own |
| Config.ParsedIsTidy | src/quota_monitor/config_service.py:163-328 | every parsed configuration is such |
| Config.ReadBack | src/quota_monitor/config_service.py:559-621 | what printing and parsing under any policy makes of any configuration |
| Config.NothingIsLost | src/quota_monitor/config_service.py:690-702 | under the preserving policy every field of a parsed document, known or unknown, is printed unchanged, and only missing known fields are added |
| ConfigStore.ConfigService.Load | src/quota_monitor/config_service.py:350-379 | the newest document if the file is readable, else the backup, else the defaults; a missing file means the defaults even if a backup exists |
| ConfigStore.ConfigService.Save | src/quota_monitor/config_service.py:381-397 | refused without effect if and only if the configuration cannot be prepared, completed with the backup being the previous readable file if and only if neither of its two atomic replacements is stopped, else stopped around one of them |
| ConfigStore.Use | src/quota_monitor/config_service.py:338-397 | over any run of saves, loads, damages, edits and removals, stopped after any step, a backup always reads and once was the main file |
| ConfigStore.RecoverPrevious | src/quota_monitor/config_service.py:381-457 | two saves are completed if and only if both configurations are accepted and no replacement is stopped; then the second is loaded, and the first if the file was damaged |
| ConfigStore.RecoverPreserved | src/quota_monitor/config_service.py:381-457 | with the preserving policy this holds of every two configurations whose unknown fields have names of their own |
| ConfigStore.PreservingCodecKeeps | src/quota_monitor/config_service.py:381-457 | with the preserving policy every such configuration that is saved reads back as it is |
| ConfigStore.SavedReadsBack | src/quota_monitor/config_service.py:381-457 | what a saved configuration reads back as, under every policy |
| ConfigStore.PreservedReadsBack | src/quota_monitor/config_service.py:381-457 | under the preserving policy unchanged |
| ConfigStore.RejectingSetupCannotReadBack | src/quota_monitor/config_service.py:381-397 | under the rejecting policy a configuration with unknown root fields is saved and cannot be read afterwards |
| UpdateEngine.Engine.Write | src/quota_monitor/update_engine.py:455-468 | one atomic journal replacement, logged, that obeys the transition table, or no effect outside the cache |
| UpdateEngine.Engine.Fetch | src/quota_monitor/update_engine.py:67-75 | the next download of the script: only the partial file changes, and anything but the signed artifact counts as a fault |
| UpdateEngine.Engine.Promote | src/quota_monitor/update_engine.py:292-293 | the partial file becomes the staged file; fails exactly when there is none (faults aside) |
| UpdateEngine.Engine.FetchPartial | src/quota_monitor/update_engine.py:285-288 | after success the partial file is the signed artifact |
| UpdateEngine.Engine.InstallAndCheck | src/quota_monitor/update_engine.py:309-319 | success means the new program is in place, HEALTH_CHECK is written and the one check that was made had a positive verdict; without faults the verdict decides |
| UpdateEngine.Engine.CheckHealth | src/quota_monitor/update_engine.py:312-317 | the next verdict of the script; a positive one is recorded for the bytes and version it was about |
| UpdateEngine.Engine.PassHealth | src/quota_monitor/update_engine.py:312-317 | a negative verdict counts as a failure of the step |
| UpdateEngine.Engine.Commit | src/quota_monitor/update_engine.py:321-321 | the write of COMMITTED, or no effect on journal and history |
| UpdateEngine.Engine.Discard | src/quota_monitor/update_engine.py:331-344 | removes the bad files and goes back to DOWNLOAD_CONSENTED, which counts as one setback |
| UpdateEngine.Engine.KeepVerified | src/quota_monitor/update_engine.py:329-338 | a verified candidate ends STAGED |
| UpdateWorld.BackedUp | src/quota_monitor/platform_adapters/update_install.py:79-79 | keeping a copy of the program keeps the invariant and makes the backup the pre-install bytes |
| UpdateWorld.Replaced | src/quota_monitor/platform_adapters/update_install.py:80-86 | putting verified bytes in place keeps the invariant and the backup |
| UpdateWorld.Restored | src/quota_monitor/platform_adapters/update_install.py:89-92 | restoring the kept copy brings the pre-install bytes back |
| UpdateWorld.PreparedIsValid | src/quota_monitor/update_engine.py:251-275 | a fresh attempt over a finished one starts with the invariant |
| UpdateWorld.SetbackIsPaid | src/quota_monitor/update_engine.py:331-344 | a setback is accounted for by a fault that struck before it |
| UpdateRuntime.WorkerKeepsInv | src/quota_monitor/update_runtime.py:384-414 | the background thread only writes journals it owns |
| UpdateRuntime.CheckKeepsInv | src/quota_monitor/update_runtime.py:179-212 | check caches and prepares only over a finished journal |
| UpdateRuntime.CommandKeepsInv | src/quota_monitor/update_runtime.py:306-365 | consents and starts act only when idle, on the journal they loaded |
| CanonicalJson.InsertSorted | src/quota_monitor/canonical_json.py:49-49 | inserting a new key keeps the order and the members |
| CanonicalJson.NumeralUnique | src/quota_monitor/canonical_json.py:34-37 | a decimal numeral that is not prolonged determines its number |
| CanonicalJson.MembersUnique | src/quota_monitor/canonical_json.py:51-53 | two member lists that start the same text have the same keys and values |
| CanonicalJson.ItemsUnique | src/quota_monitor/canonical_json.py:54-55 | two item lists that start the same text have the same items |
| ManifestPayload.WithoutSignature | src/quota_monitor/update_manifest.py:354-359 | exactly the fields other than the signature |
| SemVer.JoinSplit | src/quota_monitor/semver.py:33-48 | joining undoes splitting at dots |
| SemVer.ScanTransitive | src/quota_monitor/semver.py:91-112 | the scan is transitive |
| UsageStore.Database.Stage | src/quota_monitor/database.py:922-998 | the staging loop computes the key-wise fold of the buckets |
| UsageStore.Database.ReplaceRows | src/quota_monitor/database.py:999-1040 | the conditional delete followed by the upsert is the one-line specification |
| UsageStore.Database.CompletedIntervals | src/quota_monitor/database.py:1452-1460 | exactly the completed slices of the run |
| UsageStore.EqualTables | src/quota_monitor/database.py:999-1040 | tables that agree key by key are equal |
| SyncModel.ReconciledSliceMatches | src/quota_monitor/sync_service.py:290-300 | reconciling the records of a whole chain makes the slice match the upstream |
| SyncModel.OtherSliceUntouched | src/quota_monitor/sync_service.py:290-300 | reconciling one day slice leaves a matching other slice matching |
| SyncModel.LoopStep | src/quota_monitor/sync_service.py:218-360 | work on one slice keeps the loop invariant and counts it |
| SyncModel.ClosingKeepsAgreement | src/quota_monitor/sync_service.py:315-366 | ending a run changes nothing that agreement is about |
| Sync.UsageSyncService.FetchPage | src/quota_monitor/sync_service.py:133-148 | one observed page: the upstream answer, with exactly this checkpoint and page number in the row of the slice, or the reason why not and unchanged tables |
| Sync.UsageSyncService.OpenRun | src/quota_monitor/sync_service.py:175-206 | resumes the newest unfinished run of the range or starts one under the given identifier; fails exactly by a strike or if that identifier is used; the tables differ by exactly this |
| Sync.UsageSyncService.CloseRun | src/quota_monitor/sync_service.py:315-386 | ends the run with the status, error code and page count that fit the loop, or leaves the tables as they were |
| Sync.UsageSyncService.FillSlice | src/quota_monitor/sync_service.py:283-314 | a slice is stored if and only if it is completed afterwards, no other slice is touched, and undisturbed a slice with an ending chain of valid records is stored |
| Sync.UsageSyncService.KeepFetched | src/quota_monitor/sync_service.py:283-314 | a complete fetch is stored unless its records are refused or a strike comes in between |
| Sync.UsageSyncService.SyncNext | src/quota_monitor/sync_service.py:218-314 | the next slice of the loop keeps the loop invariant and is counted exactly when it was completed |
| Sync.UsageSyncService.StoreSlice | src/quota_monitor/sync_service.py:290-300 | stored if and only if all records are valid: the slice row is then completed with its page count, otherwise nothing changes |
| Sync.UsageSyncService.MarkFailed | src/quota_monitor/sync_service.py:303-314 | the row of the slice then holds the pages, the checkpoint and the error code that were reached; a checkpoint that cannot be stored, or a strike, leaves everything as it was |
| DailyUsage.AddUp | src/quota_monitor/database.py:1286-1306 | the group totals, the remainder and the counts of the rows of one day |
| DailyUsage.CompletedSelected | src/quota_monitor/database.py:1275-1283 | exactly the completed slices among those selected |
| DailyUsage.GroupByDay | src/quota_monitor/database.py:1271-1274 | under each day exactly its rows, in order |
| DailyUsage.ReportDays | src/quota_monitor/database.py:1275-1320 | the loop over days: right, ordered, complete, and adding up to all rows |
| DailyUsage.TotalOfDay | src/quota_monitor/database.py:1286-1306 | the total of a reported day is the total of its rows, and a missing day has none |
| Scheduler.CollectionScheduler.BeginRun | src/quota_monitor/scheduler.py:145-150 | claims the scheduler if and only if it is neither paused nor running |
| Coordinator.RotationServes | src/quota_monitor/desktop_runtime.py:243-263 | such a profile is collected after at most as many ticks as profiles stand before it, plus one |
| Coordinator.AuthErrorStops | src/quota_monitor/desktop_runtime.py:170-172 | a collection that ends in an authentication error leaves its profile blocked and paused |
| Coordinator.RotationOrder | src/quota_monitor/desktop_runtime.py:249-253 | the i-th profile asked is the one with rotation distance i |
| Coordinator.ProfileSchedulerCoordinator.RunScheduler | src/quota_monitor/desktop_runtime.py:137-178 | one collection that ends as the next ending of the script says; an authentication error blocks the profile |
| CoordinatorThreads.StepKeepsOne | src/quota_monitor/desktop_runtime.py:209-277 | every lock section keeps the single collection |
| Alerts.RaisedOnce | src/quota_monitor/alert_storage.py:86-152 | one evaluation raises at most one alert under a key, only where none was sent, and marks it as sent |
| Alerts.CallRaisesOnce | src/quota_monitor/alert_storage.py:80-153 | the same for every call on the store |
| Alerts.StaleSendsNothing | src/quota_monitor/alert_storage.py:124-128 | a stale observation raises nothing and marks nothing as sent |
| Alerts.SameEvents | src/quota_monitor/alerts.py:75-105 | where both evaluators remember the same, they raise the same alerts in the same order |
| Alerts.StatesAgree | src/quota_monitor/alerts.py:64-105 | after any history they remember the same about every rule |
| Config.PrintedSections | src/quota_monitor/config_service.py:582-614 | the printed document has each section under its name |
| ConfigStore.ConfigService.ReplaceFile | src/quota_monitor/config_service.py:509-531 | the main file is replaced whole or not at all, as the script says |
| ConfigStore.ConfigService.ReplaceBackup | src/quota_monitor/config_service.py:381-397 | only a readable main file becomes the backup, whole or not at all, as the script says |

## Left out

- Network and operating system: HTTP, redirects, TLS, Ed25519, fsync, temporary file names, file permissions, disk space checks, subprocess health checks; they appear as results of single steps that the environment's script decides.
- Random journal tokens are a counter, so that tokens never repeat.
- The journal and the cached manifest are only rewritten by the program; `load_journal`'s rejection of a malformed journal is therefore not modelled.
- WindowsHelperUpdateInstaller and `ExecutableSmokeHealthChecker`: single external calls.
- UpdateTheorems.AttemptEnds: counts journal writes of an attempt, not wall-clock time, and the bound grows with the bad moves.
- UpdateRuntime.CacheMatchesJournal: the service is a state machine over values, not a class, because its threads interleave; the persisted status file, `status()` and version texts in consents are not part of it.
- ManifestPayload.CachedCopyKeepsPayload: `json.loads` is the inverse of the two printers, since only their output is read here; the base64 text of the signature is any Unicode text.
- The digest is an arbitrary function; statements about "the same manifest" assume it has no collisions, those about installed bytes do not.
- SQLite itself: a transaction is one atomic step, tables are maps from their unique keys; busy errors and dead processes are the script of strikes that a sync is given.
- UsageStore.Database.ReconcileSlice: identifiers are compared as given; trimming and length checks of `_dimension`, project display names and the projects table are not modelled.
- DailyUsage.QueryUsage: the joined project names are not modelled; model groups come from an arbitrary classification function.
- DailyUsage.Daily: completeness is stated about completed slices, not about the upstream, since retention deletes rows and keeps slices.
- Sync.UsageSyncService.FetchSlice: parsing of single result rows (`parse_usage_buckets`) is reduced to valid records or a contract error; `_page` is modelled in full.
- Sync.UsageSyncService.Sync: the default range, cancellation and progress events are not modelled; the upstream does not change during a history.
- Retention, backup and restore, schema migrations, `usage_service.py` and `cost_service.py`: they would add only easier members.
- Scheduler.TicksAreSpaced: for calls that do not overlap; with concurrent tickers the due check is not repeated inside a run and the statement is false.
- Scheduler.DelayBounds: delays, intervals and percents are real numbers, so overflow of a floating-point base after about a thousand failures is not modelled.
- Scheduler.CollectionScheduler.Tick: times of the last success and error texts are not modelled.
- Coordinator.ProfileSchedulerCoordinator.Start: schedulers are values inside the coordinator, not shared objects; all schedulers started by one call read the same clock value; calls are serialized here; interleavings are the subject of `CoordinatorThreads.dfy`.
- CoordinatorThreads.StopSurvivesExactly: a refresh drops and adds one profile per step, which allows more interleavings than its one lock section.
- Coordinator.NobodyStarves: identifiers are numbers in text order.
- Alerts.AgreementIsExact: the rules stay the same over the history, as in one process.
- Promotion.CheckedFacts: JSON floats are not modelled, so a `schema_version` of 1.0, which the script counts as 1, is rejected here.
- Notification history, delivery and the desktop dispatcher: plumbing around the evaluators.
- Config.RoundTripIsExact: JSON numbers other than integers inside unknown fields, and the encoding to bytes, are not modelled; a file is a JSON value or unreadable.
- ConfigStore.ConfigService.Load: read errors of the operating system count as unreadable contents; the secret scan and UTF-8 encodability are arbitrary predicates.
- SemVer.PrintParse: version texts with non-ASCII digits, which the pattern of the original accepts, are not modelled.
- Server routes, user interface, tray, credentials, startup registration, instance lock, i18n, logging, release scripts other than the promotion check.
