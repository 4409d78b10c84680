# multirunner: a verified model of its state machines

multirunner keeps ephemeral GitHub Actions runners going on one host. This project models, in Dafny, the parts of it
where a mistake would not show in a single function body, and proves what they promise over every run, every
interleaving or every input. `dafny verify dfyconfig.toml` checks everything.

## What is modelled

**The scale-set launcher** (`Launcher*.dfy`) turns a desired count from GitHub into runners. `LauncherState` has its
fields and what each critical section does to them. `LauncherProtocol` is the labelled transition system of all its
goroutines: listener callbacks, one exit watcher per runner, partial-launch cleanups, shutdowns and reconciliations
interleave freely, one action per critical section of the launcher's mutex or per external call, and every external
call may fail. A launch loop holds the mutex across JIT generation and `Launch`. `LauncherInvariants`,
`LauncherRunners`, `LauncherShared` and `LauncherInduction` prove an inductive invariant, action family by action
family; `LauncherSafety` and `LauncherExits` draw the theorems about whole runs, the latter those about what follows
a runner's end, and `LauncherAlias` shows a run in which one of them needs its condition. `LauncherObject` is the
launcher as a class, each method the code of one uninterrupted stretch, and `LauncherRefinement` proves such a
stretch, a launch, a launch loop or a cleanup, to be a run of the protocol.

Assumptions: runner names, registration ids and backend resource ids are fresh; listener callbacks come one at a time;
a nil handle with an error means no live instance; a launch without an error returns its resource id as handle id,
while a partial launch may return another name for it (a `nerdctl run -d` that failed may still have started the
container, and its handle carries the request's name); `Wait` without an error means the process has exited; a failed
`RemoveRunner`, `Kill` or `RemoveOwnedRunner` may still have taken effect. A backend without an ownership store is a
record removal that always fails. Earlier processes may have left ids and records behind.

**Token rotation** (`TokenRotation.dfy`, `TokenRefresher.dfy`). Several processes share a sidecar file and an OS lock;
GitHub kills the old pair with each rotation. Steps are the unlocked retry of a failed save, the due check, the lock,
the re-read, the request, the save and the unlock, with a clock that only moves forward. A process may die at any
moment at which it is not the only holder of the live pair. `TokenRefresher` is one process's object: each step of a
call is the protocol's step from every state, so calls may interleave freely, and one call of which nothing interrupts
the steps is described as a whole. The code refreshes with its own pair even when the sidecar it just re-read holds a
newer one that is itself due, so a refresh is not always accepted: `RefreshAcceptedIff` gives the exact condition,
`StaleRefreshRefused` a run in which it is refused, and `RefusedUntilRescued` and `RefusedForever` how long that
lasts.

**The cache store** (`Cache*.dfy`): upload rows, entry rows and blob folders. `CacheStore` has the operations, the
invariant that every entry's folder is complete, and the round trip among arbitrary other traffic. `CacheReader` is
the reader over part files, any of whose system calls may fail, `CacheLookup` SQL LIKE and the order of candidates,
`CacheEvict` what an eviction may remove, and `CacheObject` the store as a class with its loops. Each store method is
one atomic step, ids are fresh and SQL statements succeed; folder removals and part writes may fail.

**The crash-loop budget** (`CrashLoop.dfy`), given worker runs one after the other, a readable history file and a
clock that only moves forward. Records that cannot be written, a history that cannot be removed and failures of a
service that never reached its gate are allowed for.

**The service log** (`LogText.dfy`, `LogStream.dfy`): marker detection across read-buffer boundaries, the state that
hides private keys, the bounded line buffer and the bounded tail. A char stands for one byte.

**The noVNC client**: `ReceiveQueue.dfy` (growing, compacting buffer as a FIFO), `RreDecoder.dfy` (a decoder that
suspends on partial input) and `Des.dfy` (the block cipher, for all tables and round keys). The queue is meant to
refuse a message exactly when unread and new bytes exceed 40 MiB. `RefusalsUntilFirstOverflow` proves that up to the
first refusal. By then the code has already raised the size it keeps beside the array, and left the array as it was,
so later a message that fits the one but not the other is refused too: `Refused` is the exact condition in every
state, `SmallMessageRefused` an input of 5 MiB that is refused with one byte in the queue.

**The Git environment** (`GitEnv.dfy`): the indexed configuration variables are stripped in place, filtered and
renumbered, and Git reads back exactly the intended entries. Lookups are a parameter, so they may be those of any
platform.

`Common.dfy` has the few definitions that several of these share.

## Model

| member | source | states |
|---|---|---|
| LauncherSafety.NoRegistrationLeaks | internal/scaleset/launcher.go:240-335 | In every reachable state with the mutex free, each id ever issued to this launcher is held by a running state, is remembered for removal, was removed on GitHub, or belongs to a busy runner that ended by itself |
| LauncherSafety.DemandNeverOverserved | internal/scaleset/launcher.go:223-237 | Each recorded launch, clean or partial, for demand or refill, leaves occupied slots plus unaccounted exits at or below the last desired count |
| LauncherSafety.LaunchHasRoom | internal/scaleset/launcher.go:146-163 | A launch begins only when not stopped and with room left under demand and under the cap |
| LauncherSafety.AccountedExitStaysOut | internal/scaleset/launcher.go:178-187 | Once the broker's statistics accounted for a runner's exit, the exit is never subtracted from demand again |
| LauncherSafety.ExitSubtractedOnce | internal/scaleset/launcher.go:368-374 | Over a whole run each exit enters the subtracted set at most once |
| LauncherSafety.CapacityRespected | internal/scaleset/launcher.go:144-163 | In every interleaving occupied slots and live instances stay within the cap, and every live instance occupies a slot |
| LauncherSafety.ReconcileSparesRunning | internal/scaleset/launcher.go:514-550 | Reconciliation never deregisters or removes a runner that is still running under its resource's id, as every runner launched without error is, even against a launch in progress |
| LauncherSafety.OrphansTaken | internal/scaleset/launcher.go:525-537 | A reconciliation takes up exactly the listed records that no running handle names |
| LauncherSafety.DeregisteredFirst | internal/scaleset/launcher.go:534-545 | A reconciliation that is about to remove a record has removed its registration before, so what fails leaves a record to retry from |
| LauncherAlias.AliasIsReconciled | internal/backend/containerdwindows.go:123-138 | That condition is needed: some run reconciles away a live runner still listed as running whose partial launch returned another name as handle id |
| LauncherSafety.NoLaunchAfterShutdown | internal/scaleset/launcher.go:471-479 | After the stop flag is set, no launch step of any goroutine happens |
| LauncherSafety.ShutdownComplete | internal/scaleset/launcher.go:471-503 | A shutdown that returned nil has left no running state, no remembered registration and no live instance, whatever the other goroutines did |
| LauncherSafety.ShutdownErrorHasCause | internal/scaleset/launcher.go:471-503 | A shutdown reports an error only after one of its cleanups returned one or GitHub refused a removal |
| LauncherSafety.CleanupInOrder | internal/scaleset/launcher_cleanup.go:13-79 | Each stage of a cleanup runs only when the earlier stages are done and its own is not, for whichever goroutine runs it |
| LauncherSafety.ForgottenOnlyWhenCleaned | internal/scaleset/launcher_cleanup.go:71-76 | A name leaves the running map only as the end of a complete cleanup |
| LauncherSafety.StagesRunOnce | internal/scaleset/launcher_cleanup.go:81-101 | No later retry repeats a stage that finished |
| LauncherSafety.EveryStartStopsOnce | internal/scaleset/launcher.go:240-248 | Every start report has exactly one stop report once its launch failed or its runner was confirmed terminated, and none before |
| LauncherExits.FinishedJobKeepsRegistration | internal/scaleset/launcher_cleanup.go:22-59 | When a watcher whose Wait returned no error begins the first cleanup of a busy runner, no step of the run, before or after, of whichever goroutine, deregisters that runner |
| LauncherExits.OthersDeregistered | internal/scaleset/launcher_cleanup.go:22-59 | Every runner whose cleanup was first begun otherwise is deregistered by the time it is cleaned or forgotten |
| LauncherExits.WatcherExitKept | internal/scaleset/launcher_cleanup.go:22-31 | If Wait returned no error, or nobody began the cleanup before its watcher, the code and error that the watcher noted are never replaced by any retry or shutdown |
| LauncherExits.CleanExitStaysSubtracted | internal/scaleset/launcher.go:368-407 | A recorded clean exit, unaccounted and with demand, stays subtracted under its id until statistics account for it or ask for nothing, so every launch before that is for another job |
| LauncherExits.OtherExitsNotSubtracted | internal/scaleset/launcher.go:368-374 | Recording an exit that failed, was accounted for or came with nothing asked for subtracts nothing |
| LauncherExits.RefillTakesRoom | internal/scaleset/launcher.go:382-407 | Only a runner that ended with code 0 is replaced, and its refill starts exactly what demand net of exits and the cap leave room for |
| LauncherExits.StatisticsAccount | internal/scaleset/launcher.go:178-190 | A statistics callback drops exactly the exits it accounts for, all of them at count 0, marks the completed runners and sets the count |
| LauncherSafety.RunLater | internal/scaleset/launcher_cleanup.go:19-31 | Cleanup flags, accounting history and the stop flag only move forward over a run |
| LauncherInduction.InitInv | internal/scaleset/launcher.go:122-142 | A new launcher satisfies the invariant whatever earlier processes left behind |
| LauncherInduction.NextKeeps | internal/scaleset/launcher.go:171-550 | Every atomic step of every goroutine keeps the invariant |
| LauncherInduction.InvAt | internal/scaleset/launcher.go:171-550 | The invariant holds at every state of every run |
| LauncherObject.ServingStaysWithin | internal/scaleset/launcher.go:223-237 | A launch loop over the allowed count exceeds neither the cap nor the demand net of unaccounted exits, whatever the launches answer |
| LauncherObject.ServingMeetsDemand | internal/scaleset/launcher.go:166-237 | When every launch succeeds the demand is met exactly, up to the cap |
| LauncherObject.CleanupOrdered | internal/scaleset/launcher_cleanup.go:13-79 | Calls of one cleanup come in the order kill, stop report, deregistration, record removal, each once and only when due; no error means cleaned |
| LauncherObject.CleanupDecides | internal/scaleset/launcher_cleanup.go:13-79 | What one cleanup decides, case by case: who is deregistered, which exit is kept, which calls are made, what they leave and whether it fails |
| LauncherObject.CleanupTakesTurns | internal/scaleset/launcher_cleanup.go:33-76 | The calls of a cleanup are kill, stop report, deregistration and record removal, each at most once and in this order |
| LauncherObject.RetryResumes | internal/scaleset/launcher_cleanup.go:81-101 | A retried cleanup repeats no call that succeeded, and finishes when nothing fails |
| LauncherRefinement.LaunchIsRun | internal/scaleset/launcher.go:240-335 | From every protocol state at the head of a launch loop, the steps of one launch's answers lead to the object's launcher after that launch, and the mutex stays held exactly when it succeeded |
| LauncherRefinement.LoopIsRun | internal/scaleset/launcher.go:223-237 | A whole launch loop of the object is a run of the protocol up to the release of the mutex, whatever the launches answer |
| LauncherRefinement.ServeDemandIsRun | internal/scaleset/launcher.go:213-237 | The second critical section of a statistics callback is a run of the protocol to the object's result |
| LauncherRefinement.FinishRunnerIsRun | internal/scaleset/launcher_cleanup.go:13-79 | An undisturbed cleanup by any goroutine, from every protocol state, is a run to the object's launcher with the same error |
| LauncherRefinement.CallsAreListed | internal/scaleset/launcher_cleanup.go:33-76 | The calls the object lists for a cleanup are the external calls of that run's steps, in their order |
| LauncherRefinement.LeadsKeepsInv | internal/scaleset/launcher.go:171-550 | Every such run keeps the protocol's invariant |
| LauncherObject.Launcher.RunningLocked | internal/scaleset/launcher.go:458-466 | Counts exactly the running states that occupy capacity |
| LauncherObject.Launcher.AllowedLocked | internal/scaleset/launcher.go:146-163 | Computes the launches allowed by demand, unaccounted exits and the cap |
| LauncherObject.Launcher.BeginStatistics | internal/scaleset/launcher.go:172-191 | The accounted completions leave the subtracted exits, all exits leave at count 0, the completed runners are marked and the count is set; nothing after shutdown |
| LauncherObject.Launcher.HandleDesiredRunnerCount | internal/scaleset/launcher.go:171-237 | The whole callback: pending removals and cleanups are retried, then what is allowed is launched; it reports what occupies slots, keeps the cap, and serves more than before only within demand net of unaccounted exits |
| LauncherObject.Launcher.RetryPendingCleanup | internal/scaleset/launcher_cleanup.go:81-101 | Attempts each cleanup that has begun, all of them unless the session ends, also when one fails; each keeps the exit and the decision it began with, an error is reported exactly when a runner stays or its Wait had failed, and exactly the cleaned ones leave the running map |
| LauncherObject.Launcher.ServeDemand | internal/scaleset/launcher.go:213-237 | Launches up to the allowed count, stops at the first failure, and reports what is served |
| LauncherObject.Launcher.LaunchLocked | internal/scaleset/launcher.go:240-335 | One launch, clean, partial, refused or without instance: the new runner state, the remembered registration and the error |
| LauncherObject.Launcher.HandleJobStarted | internal/scaleset/launcher.go:412-426 | Marks one runner busy that matches by id or by name, if any does, and nothing else |
| LauncherObject.Launcher.HandleJobCompleted | internal/scaleset/launcher.go:430-449 | Notes the completion for a running match by id or by name, or else for an exited one, or for nobody when none matches |
| LauncherObject.Launcher.NoteExit | internal/scaleset/launcher.go:368-374 | A clean exit that is not accounted for is subtracted under its id when anything is asked for; any other exit subtracts nothing |
| LauncherObject.Launcher.StopInstance | internal/scaleset/launcher_cleanup.go:33-52 | Kill when asked, then confirm termination, free the slot and report the stop once; a failed kill changes nothing |
| LauncherObject.Launcher.FinishRunner | internal/scaleset/launcher_cleanup.go:13-79 | A whole cleanup call: it deregisters exactly a runner with an id, confirmed dead, that the first call did not leave busy and unterminated; the exit kept, the calls made, the error, and removal from the running map exactly when cleaned |
| LauncherObject.Launcher.RetryPendingRegistrations | internal/scaleset/launcher_cleanup.go:103-122 | Exactly the registrations GitHub refused to remove stay remembered |
| LauncherObject.Launcher.Shutdown | internal/scaleset/launcher.go:471-503 | Stops and terminates every runner in one cleanup each; an error is reported exactly when a runner or a registration stays or a noted Wait had failed, and without one nothing is left |
| TokenRotation.SidecarNeverGoesBack | internal/ghapp/refresher.go:165-225 | Over all schedules of all processes the sidecar's generation never decreases |
| TokenRotation.LivePairNeverLost | internal/ghapp/refresher.go:200-215 | Either the sidecar holds the live pair and no process carries an unsaved one, or exactly one process carries it and everyone else is behind |
| TokenRotation.SavesOnlyLive | internal/ghapp/refresher.go:218-225 | Whatever writes the sidecar, locked or not, replaces an older pair by the live one |
| TokenRotation.UndueTokenIsLive | internal/ghapp/refresher.go:165-215 | A token any process holds and would hand out without finding it due is GitHub's live one at that moment |
| TokenRotation.OneUnderLock | internal/ghapp/refresher.go:235-266 | No two processes are between lock and unlock together |
| TokenRotation.RefreshAcceptedIff | internal/ghapp/refresher.go:200-203 | A refresh is accepted if and only if the process carries an unsaved pair, or its pair is the sidecar's and nobody has a newer one to save |
| TokenRotation.StaleRefreshRefused | internal/ghapp/refresher.go:187-203 | A reachable run in which a process reads a live, refreshable pair that is due, asks with its own older pair and is refused |
| TokenRotation.RefusedUntilRescued | internal/ghapp/refresher.go:187-203 | Under every schedule a process whose pair is dead keeps it, and is refused at each request, exactly until it reads a sidecar that is not due; restarting it is the only other way out |
| TokenRotation.RefusedForever | internal/ghapp/refresher.go:187-203 | From a dead pair and a sidecar whose live pair is due, every schedule in which no other process asks for a new pair leaves the sidecar due, issues nothing and refuses each request |
| TokenRotation.BehindUntilRescued | internal/ghapp/refresher.go:182-203 | The same for every state that satisfies the invariant: the token changes if and only if an undue sidecar was read |
| TokenRotation.RotateUndisturbed | internal/ghapp/refresher.go:182-215 | From a due live pair an undisturbed process rotates and leaves the new pair in the sidecar |
| TokenRotation.StepKeeps | internal/ghapp/refresher.go:165-225 | Every step of every process keeps the invariant that superseded pairs are due and the live pair has one holder |
| TokenRefresher.CallIsSchedule | internal/ghapp/refresher.go:165-215 | One undisturbed call is the schedule given step by step, keeps the invariant, and answers with its token exactly when that schedule leaves through Returning, with an error exactly when through Failing |
| TokenRefresher.AnswerIsLive | internal/ghapp/refresher.go:165-215 | A token returned without being due is live, whether kept, adopted or freshly rotated |
| TokenRefresher.LockTokenFile | internal/ghapp/refresher.go:235-266 | The lock is obtained exactly when a try succeeds before one fails, the deadline passes or the context ends |
| TokenRefresher.Refresher.RetrySave | internal/ghapp/refresher.go:218-225 | Writes an unsaved pair again and clears the mark only on success; the protocol's step from every state |
| TokenRefresher.Refresher.IsUsable | internal/ghapp/refresher.go:170-177 | A token is handed out as it is exactly when it is not within 300 seconds of its expiry or nothing can refresh it, and is then GitHub's live one or a due one without refresh token; the protocol's step from every state |
| TokenRefresher.Refresher.AdoptStored | internal/ghapp/refresher.go:185-190 | A readable stored pair that is not due replaces the token, nothing else does; the protocol's step from every state |
| TokenRefresher.Refresher.Refresh | internal/ghapp/refresher.go:200-207 | A delivered request with the live pair brings the next one, any other leaves everything; the protocol's step from every state |
| TokenRefresher.Refresher.SaveNew | internal/ghapp/refresher.go:207-213 | The new pair is written or marked unsaved; the protocol's step from every state |
| TokenRefresher.Refresher.AccessToken | internal/ghapp/refresher.go:165-215 | The call's token, sidecar, unsaved mark and answer, for every outcome of lock, re-read, request and save; a token that is not due or cannot be refreshed is returned as it is |
| CacheStore.ApplyKeepsValid | internal/cache/store.go:235-361 | Every operation keeps slots unique, upload and entry ids apart, and every entry's folder exactly 0..n-1 |
| CacheStore.EntriesAlwaysComplete | internal/cache/store.go:318-330 | From an empty store, through any operations, every entry has all its part files and no others |
| CacheStore.PromotedIsReadable | internal/cache/store.go:318-331 | A successful finalize implies by count and contiguity that the files are exactly 0..n-1 |
| CacheStore.FinalizeAcceptsIff | internal/cache/store.go:260-361 | Among any other traffic a finalize succeeds if and only if each of 0..n-1 was sent once and finished, n at least 1, and the entry then holds what was sent; a repeated or unfinished part is refused |
| CacheStore.CompletionReplaces | internal/cache/store.go:295-361 | A finalize takes the slot over for a new entry with its part count and times and leaves every other entry; a refusal tells its reason and changes no entry and no blob |
| CacheStore.UploadRoundTrip | internal/cache/store.go:260-361 | Parts sent once each in any order and interleaving are finalized, and the parts of the entry joined are the data |
| CacheStore.EntryKeepsParts | internal/cache/store.go:260-361 | While its row stays, an entry keeps its parts under every operation |
| CacheStore.RunKeepsParts | internal/cache/store.go:128-361 | The same through every run of operations |
| CacheStore.StoredReadsBack | internal/cache/store.go:260-361 | Uploaded data is what the entry's parts hold after any further run that leaves its row |
| CacheReader.PartsReader.Read | internal/cache/store.go:494-518 | A read delivers a prefix of the rest, also with an error; the stream ends only when nothing is left, and with every part file there only the file system fails it |
| CacheReader.ReadAll | internal/cache/store.go:440-518 | For every sequence of buffer sizes, short reads and early ends, the bytes read are the parts joined in order, or a prefix of them and an error that the file system gave |
| CacheLookup.EscapeLike | internal/cache/store.go:530-540 | Computes the escaped key |
| CacheLookup.PatternIsPrefix | internal/cache/store.go:411-419 | The escaped key followed by a percent sign matches exactly the strings with the key as prefix, up to ASCII case |
| CacheLookup.Query | internal/cache/store.go:401-419 | The newest row that answers one query, or none when none does |
| CacheLookup.MatchEntry | internal/cache/store.go:365-390 | The newest answer to the first answered query by scope, key, exact before prefix; none only when no query is answered |
| CacheLookup.BestIsIsolated | internal/cache/store.go:365-390 | A match never crosses repository, version or scopes, and its key starts with a requested one |
| CacheLookup.FoundIffFits | internal/cache/store.go:365-390 | Something is found if and only if some entry of the repository and version fits a scope and a key prefix |
| CacheLookup.BestComesFirst | internal/cache/store.go:365-419 | What is restored goes before every other entry that fits: by scope, then by key, then an exact key before a prefix, then the newest |
| CacheEvict.EvictionGuarantees | internal/cache/store.go:128-187 | On success nothing is past its age, the blobs fit or no entry is left, and uploads, abandoned folders and kept entries are untouched |
| CacheEvict.EvictionIsLru | internal/cache/store.go:163-184 | An entry that goes without being last used before the age bound was used no later than any that stays |
| CacheEvict.AgeAloneDecides | internal/cache/store.go:128-153 | Without a size cap an entry goes if and only if an age bound is given and it was last used before it |
| CacheEvict.AgeHaltedJustly | internal/cache/store.go:130-153 | When a removal of the age phase fails, everything that went was last used before the age bound |
| CacheEvict.SizeHaltedJustly | internal/cache/store.go:155-185 | Also when a removal of the size phase fails, what went was past its age or used no later than any that stays |
| CacheEvict.SizeIsContent | internal/cache/store.go:198-213 | The size counted for an entry is the length of its content |
| CacheEvict.NoneEvictedNeedlessly | internal/cache/store.go:171-184 | The size phase stops as soon as the blobs fit: with the last removed entry kept they would not |
| CacheEvict.SumSplit | internal/cache/store.go:198-231 | The total size does not depend on the order of the walk |
| CacheObject.Tables.TotalBlobSize | internal/cache/store.go:216-231 | The total over all blob folders, entries or not |
| CacheObject.Tables.OrderByLastUsed | internal/cache/store.go:157-170 | Every entry once, least recently used first |
| CacheObject.Tables.DropExpired | internal/cache/store.go:130-153 | On success an entry goes exactly when an age bound is given and it was last used before it; on failure only such entries have gone |
| CacheObject.Tables.Shrink | internal/cache/store.go:155-185 | Removes the shortest prefix of the least-recently-used order that makes the blobs fit, or stops at a failure with none removed needlessly |
| CacheObject.Tables.Evict | internal/cache/store.go:128-187 | Both phases and the number removed; without a cap exactly the entries past their age go, in every case only those or the least recently used, and every remaining entry is unharmed even on failure |
| CacheObject.Tables.CreateUpload | internal/cache/store.go:235-257 | Reserves the slot under a new id with nothing counted, unless an upload for it exists |
| CacheObject.Tables.UploadPart | internal/cache/store.go:260-290 | Counts the part as started, writes it, and counts it as finished only on success; unknown uploads are ignored |
| CacheObject.Tables.RequireContiguousParts | internal/cache/store.go:473-483 | True exactly when none of 0..n-1 is missing |
| CacheObject.Tables.CompleteUpload | internal/cache/store.go:295-361 | Refuses or promotes as the counts and files require, tells why, and replaces the prior entry and its folder by one with the new part count and times |
| CacheObject.Tables.Restore | internal/cache/store.go:365-399 | Returns a best match or none when none exists, and sets the time of last use of the match alone |
| CacheObject.Tables.Download | internal/cache/store.go:431-451 | Found exactly when the entry exists; delivers its parts joined, or a prefix of them and an error |
| CacheObject.Tables.DownloadUploaded | internal/cache/store.go:260-518 | The whole way round: uploaded among any traffic, finalized, kept through any run that leaves the row, downloaded with any buffers: the data that was sent |
| CrashLoop.CrashLoopBounded | cmd/multirunner/service_supervisor.go:65-80 | Between two clears no ten-minute window holds more than four recorded failures beyond those in it that never asked the gate |
| CrashLoop.PruningHarmlessIff | internal/servicehost/failures.go:36-48 | Pruning the history loses nothing for a later question exactly when nothing that still counts was recorded after the pruning instant |
| CrashLoop.GateOpensIff | cmd/multirunner/service_supervisor.go:65-75 | The pruned file opens the gate exactly when fewer than four failures since the last clear are in the window |
| CrashLoop.FourCrashesShutTheGate | cmd/multirunner/service_supervisor.go:65-75 | The bound is reached: four crashes within one window are all recorded and shut the gate |
| CrashLoop.GateReopens | cmd/multirunner/service_supervisor.go:65-75 | In every reachable state the gate is open if and only if fewer than four failures were recorded since the last clear or the fourth-newest is at least ten minutes old |
| CrashLoop.RecentFailures | internal/servicehost/failures.go:80-89 | The loop keeps, in order, exactly the failures of the half-open ten minutes |
| CrashLoop.RecentOfOne | internal/servicehost/failures.go:80-89 | A failure counts for ten minutes and not when it lies in the future |
| CrashLoop.FailureFile.RecordFailure | internal/servicehost/failures.go:36-48 | Prunes, appends and bounds the summary, or leaves the file when it cannot be written |
| CrashLoop.FailureFile.ReadFailureStatus | internal/servicehost/failures.go:57-69 | Count and last failure of the window; the error text only if there is one |
| CrashLoop.FailureFile.ClearFailures | internal/servicehost/failures.go:71-78 | History and error text are gone, or all stays when the removal fails, as the run model's clear says |
| CrashLoop.FailureFile.Supervise | cmd/multirunner/service_supervisor.go:65-80 | Starts when fewer than four failures count or interactively, and records a failure only of a worker that started and not interactively, as the run model says |
| LogStream.MarkersFound | cmd/multirunner/service_logging.go:160-169 | A marker of at most 65 bytes is detected wherever the read buffers cut the line |
| LogStream.MarkersSound | cmd/multirunner/service_logging.go:160-169 | What is detected really is in the line |
| LogStream.LongerMarkerMissed | cmd/multirunner/service_logging.go:162-169 | The bound is exact: every marker of 66 bytes or more with its texts at its ends is missed when a buffer ends before its last byte |
| LogStream.LineKept | cmd/multirunner/service_logging.go:160-180 | The buffer holds the first 8192 bytes of the line, the truncation flag is exact, and the probe is the last 64 bytes |
| LogStream.InKeyIff | cmd/multirunner/service_logging.go:212-226 | A line is inside a key exactly when an earlier line has BEGIN without END and no END marker came since |
| LogStream.NoKeyTextLogged | cmd/multirunner/service_logging.go:150-226 | The log of any input, however read and however it ends: from the line of a short BEGIN marker up to and including the next line with END it holds placeholders only, between what the other lines give |
| LogStream.UnfinishedKeyStaysHidden | cmd/multirunner/service_logging.go:150-210 | A stream that ends inside a key, at or inside a line or with a read error, logs placeholders from the BEGIN marker on, and at most the error after them |
| LogStream.CopyPemOutput | cmd/multirunner/service_logging.go:150-244 | The copier with the service's own markers of PEM private keys writes such a log and puts just that into the tail |
| LogStream.OutputIs | cmd/multirunner/service_logging.go:212-226 | What each line logs, told by the markers of the earlier lines alone |
| LogStream.StreamOutputs | cmd/multirunner/service_logging.go:150-210 | Any input, however cut into buffers and however it ends, is logged line by line, and then the error that cut it |
| LogStream.OneLineLogged | cmd/multirunner/service_logging.go:159-226 | Any line, however it is read: the placeholder for a BEGIN marker, nothing inside a key, its sanitized text otherwise, and the key state that the rest of the log starts from |
| LogStream.PlainLineLogged | cmd/multirunner/service_logging.go:159-196 | A line outside a key and without a BEGIN marker, however it is read and whatever follows, logs its sanitized text: all of it but the line ends, or its first 8192 bytes without line ends and a note |
| LogStream.FailureLogged | cmd/multirunner/service_logging.go:198-208 | A read error is logged, sanitized, in place of the line it cuts, inside a key or not, and ends the log |
| LogStream.CutKeepsFragments | cmd/multirunner/service_logging.go:150-180 | Cutting the input into lines loses, adds and moves nothing |
| LogStream.CopyServiceOutput | cmd/multirunner/service_logging.go:150-210 | The copying loop logs exactly the stream's output, ends and read errors included, and adds just that to the tail |
| LogStream.TakeFragment | cmd/multirunner/service_logging.go:160-180 | One fragment's effect on buffer, flags and probe |
| LogStream.EmitLine | cmd/multirunner/service_logging.go:212-226 | What one line logs and the key state it leaves |
| LogStream.TruncateLogTailValue | cmd/multirunner/service_logging.go:128-137 | The longest valid UTF-8 suffix that fits |
| LogStream.TruncateLogSummary | cmd/multirunner/service_logging.go:139-148 | The longest valid UTF-8 prefix that fits |
| LogStream.SuffixLosesLittle | cmd/multirunner/service_logging.go:128-137 | Cutting valid text on the left keeps it valid and loses less than one character |
| LogStream.PrefixLosesLittle | cmd/multirunner/service_logging.go:139-148 | Cutting valid text on the right keeps it valid and loses less than one character |
| LogStream.TailStaysValid | cmd/multirunner/service_logging.go:96-114 | One cut of valid content and a valid message leaves valid content |
| LogStream.LogTail.Add | cmd/multirunner/service_logging.go:96-114 | The first alarming message stays as summary; the content is cut to the remaining budget; after any number of valid messages both are valid UTF-8 |
| LogStream.LogTail.String | cmd/multirunner/service_logging.go:116-126 | At most 2048 bytes after any adds, always showing the summary, and valid UTF-8 after any valid messages |
| ReceiveQueue.Websock.RecvMessage | internal/vmview/novnc/core/websock.js:345-365 | In every state, those after a throw included: the message joins the FIFO, or the unread bytes stay, and which of the two by an exact condition on 40 MiB, positions and sizes |
| ReceiveQueue.RefusalsUntilFirstOverflow | internal/vmview/novnc/core/websock.js:312-365 | From a new queue, or any whose array has the size it believes, after any run in which no message passed the limit, a message is refused if and only if unread and new bytes exceed 40 MiB |
| ReceiveQueue.WholeRefusesIff | internal/vmview/novnc/core/websock.js:312-365 | The same wherever the array has the size the queue believes, which every accepted message keeps and a refusal breaks unless the array is at its limit |
| ReceiveQueue.RefusedAfterOverflow | internal/vmview/novnc/core/websock.js:325-356 | After a first refusal a later message within the limit is refused whenever it ends beyond the old array |
| ReceiveQueue.SmallMessageRefused | internal/vmview/novnc/core/websock.js:325-356 | One byte, 40 MiB and 5 MiB: the last is refused with one byte in the queue |
| ReceiveQueue.Websock.ExpandCompactRQ | internal/vmview/novnc/core/websock.js:312-342 | Growing or compacting keeps the unread bytes and makes room, by eight times what has to fit or twice the size; beyond the limit only the believed size changes |
| ReceiveQueue.Websock.RQshift | internal/vmview/novnc/core/websock.js:119-125 | The big-endian value of the next bytes, despite signed 32-bit shifts |
| ReceiveQueue.Websock.RQshiftBytes | internal/vmview/novnc/core/websock.js:137-144 | Takes the next bytes off the FIFO |
| ReceiveQueue.Websock.RQwait | internal/vmview/novnc/core/websock.js:163-174 | Waits exactly when too few bytes are there, and puts back the bytes it is told to |
| ReceiveQueue.OneByteOn | internal/vmview/novnc/core/websock.js:119-125 | Adding a byte shifted in signed 32-bit arithmetic is exact modulo two to the 32 |
| RreDecoder.SplitInvariant | internal/vmview/novnc/core/decoders/rre.js:15-43 | However the stream is split into messages: same fills, same bytes consumed, same outcome |
| RreDecoder.DecodeResumes | internal/vmview/novnc/core/decoders/rre.js:15-43 | More bytes let a suspended decoder go on where it stopped and leave a finished rectangle alone |
| RreDecoder.RectangleDecoded | internal/vmview/novnc/core/decoders/rre.js:15-43 | Done exactly when header and all announced subrectangles are there, with those fills in order and that many bytes consumed |
| RreDecoder.RectangleBytes | internal/vmview/novnc/core/decoders/rre.js:15-43 | The rectangle byte by byte: count, background, and each fill's colour, place and size from its own twelve bytes |
| RreDecoder.Decoder.DecodeRect | internal/vmview/novnc/core/decoders/rre.js:15-43 | One call over the queue computes the decoding of the unread bytes |
| RreDecoder.ReceiveRect | internal/vmview/novnc/core/decoders/rre.js:15-43 | Queue and decoder together give, message by message, the fills of the joined stream |
| Des.ReversedKeysDecipher | internal/vmview/novnc/core/crypto/des.js:182-260 | Enciphering with the round keys reversed restores every block, for all tables and keys |
| Des.RoundsInvert | internal/vmview/novnc/core/crypto/des.js:208-233 | Reversed round keys run the Feistel rounds backwards, whatever the mixing function |
| Des.FinalUndoesInitial | internal/vmview/novnc/core/crypto/des.js:190-206 | With the halves exchanged the final permutation undoes the initial one |
| Des.InitialUndoesFinal | internal/vmview/novnc/core/crypto/des.js:235-251 | With the halves exchanged the initial permutation undoes the final one |
| Des.InitialIsStandard | internal/vmview/novnc/core/crypto/des.js:190-206 | The delta swaps are the initial permutation table of FIPS 46-3, the halves rotated by one |
| Des.ExpansionIsStandard | internal/vmview/novnc/core/crypto/des.js:209-219 | Each box sees the six bits of the half that the expansion table of FIPS 46-3 gives it, mixed with its part of the round key |
| Des.DeltaTwice | internal/vmview/novnc/core/crypto/des.js:190-201 | Each delta swap of the cipher is its own inverse |
| Des.ReversedKeysDecipherAll | internal/vmview/novnc/core/crypto/des.js:282-292 | A message enciphered block by block comes back under the reversed keys |
| Des.EncipherInjective | internal/vmview/novnc/core/crypto/des.js:182-260 | Different blocks have different ciphertexts |
| Des.Cipher.Enc8 | internal/vmview/novnc/core/crypto/des.js:182-260 | Computes the enciphered block into a new array |
| Des.Cipher.RunRounds | internal/vmview/novnc/core/crypto/des.js:208-233 | Eight passes of two half rounds without exchanges are the sixteen rounds |
| Des.EcbEncrypt | internal/vmview/novnc/core/crypto/des.js:282-292 | Whole blocks are enciphered one by one; other lengths are refused |
| GitEnv.GitReadsEntries | internal/gitcache/mirror.go:271-336 | Git's indexed rule reads back exactly the kept entries in order and then the manager's header |
| GitEnv.IndexedNamesUnique | internal/gitcache/mirror.go:329-336 | No two indexed variables of the result share a name in any case, so no inherited one survives and any lookup reads the same |
| GitEnv.OtherVariablesKept | internal/gitcache/mirror.go:342-354 | All other variables survive in their order |
| GitEnv.OneAuthorizationHeader | internal/gitcache/mirror.go:305-328 | The only Authorization header is the manager's own, last in the list, and present exactly when authenticated; no URL rewrite is kept then |
| GitEnv.KeptIff | internal/gitcache/mirror.go:297-322 | A pair is kept if and only if it is complete, named, before the end of the list, no URL rewrite beside a credential and no Authorization header |
| GitEnv.KeptInOrder | internal/gitcache/mirror.go:297-322 | Inherited pairs are passed on in their order |
| GitEnv.SafePairReachesGit | internal/gitcache/mirror.go:284-322 | A safe inherited pair within the count, the first 256 and the first missing pair is passed on |
| GitEnv.AuthEntrySays | internal/gitcache/mirror.go:324-328 | The manager's header carries the encoded token and applies below the base URL without its trailing slashes |
| GitEnv.BuildGitEnv | internal/gitcache/mirror.go:271-336 | Computes the environment from the inherited variables |
| GitEnv.CollectInherited | internal/gitcache/mirror.go:284-322 | The usable inherited pairs up to the count, the cap or the first missing pair |
| GitEnv.StripIndexedGitConfig | internal/gitcache/mirror.go:342-354 | Filters in place within the same array |
| GitEnv.NamesDistinct | internal/gitcache/mirror.go:329-336 | Numbered variable names are distinct because decimal numerals are |
| GitEnv.DecimalReadsBack | internal/gitcache/mirror.go:329-336 | Formatting a number in decimal and reading it gives the number back |

## Left out

- LauncherObject.Launcher.Shutdown: cleans runners up one after the other without other goroutines; the concurrent shutdown is in the protocol.
- LauncherObject.Launcher.RetryPendingRegistrations: without other goroutines in between; interleavings are in the protocol.
- TokenRefresher.Refresher.AccessToken: the whole call is described when nothing happens between its steps; with other processes in between, its steps are the protocol's.
- LauncherObject.Launcher.HandleDesiredRunnerCount: one callback that no other goroutine disturbs; the protocol has the interleavings.
- Attaching one receive queue to a second channel, which makes a new array of the size believed.
- RreDecoder.Decoder.DecodeRect: fill colours are copies, not views into the receive buffer.
- GitEnv.BuildGitEnv: case folding and white space are ASCII only, and base64 is a parameter.
- Scheduling fairness and liveness of the launcher, timeouts and backoff: safety only.
- A process crash or a lost response between GitHub's rotation and the save, re-running `connect`, and clock steps backwards.
- Interleavings inside one cache store method; an upload of a part that passed its existence check can overlap a finalize.
- SQL errors, file-system errors other than those named, and the HTTP handlers of the cache.
- The regular expressions of log sanitizing (a parameter) and the choice of log level.
- The DES key schedule and table contents, CBC chaining, and the rest of noVNC, its send queue included.
- The per-repository locks of the Git cache, mirror maintenance and file configuration audit.
- Docker, nerdctl, QEMU, GitHub and the broker: nondeterministic calls with the stated contracts.
- Configuration, command line, installation, image baking and the web pages.
