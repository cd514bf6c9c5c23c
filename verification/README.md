# Verified models of the agent harness and the operator app

This project models the concurrent and streaming parts of the repository and proves what they keep.

- **The detached-run lock** (`LockProtocol`, `LockProtocolLimits`, `LockRecovery`). A lock file is
  claimed with `link`. Claims and reclaims run under a mutex file, and a stale mutex is broken only
  under a guard file. `LockProtocol` interleaves single file-system calls of any number of
  processes that may crash between any two calls; `LockRecovery` runs the source's own loops for one
  contender over whatever crashed processes left, each call being one of `LockProtocol`'s.
- **The detached-run artifact** (`DetachedArtifact`, `LockedArtifact`, `DetachedVerdict`). Inspectors,
  a watchdog and a launcher read, decide and write back. `LockedArtifact` puts the reading and the
  writing of the stored file inside the interleaved lock protocol and shows that a section of the two
  acts as one step; what is written was still decided earlier, from a copy that may be arbitrarily old.
- **Windows command lines** (`WindowsCommandLine`). The argument printer, and a parser for the rules
  in "Parsing C command-line arguments" of the Microsoft C Language Reference, including the rule
  that two quotes inside a quoted string stand for one.
- **The app's process runner** (`ProcessRun`, `ProcessTree`). The race between timeout, cancellation,
  termination and continuation over one lock; the search for a process's descendants.
- **The dashboard store** (`DashboardAuthority`, `DashboardRefresh`, `DashboardStore`). The authority
  epoch and its prompts, overlapping refreshes and their followers, and the object whose methods
  carry out each piece of code between two suspension points.
- **Streams** (`Utf8`, `FailurePatterns`, `OutputAccumulator`, `ReadLimit`, `OutputRelay`). UTF-8
  (section 3 of RFC 3629) with replacement decoding, the streaming pattern search, the bounded
  capture, the read limit for JSON-encoded results (section 7 of RFC 8259), the bounded relay.
- **Verification planning** (`VerificationPlan`). The planner and the completion gate.

## What holds only in part

Each of these points names something a reader of the code may well expect and says how far it is true.

- A lock that excludes: it does in every run in which no process takes aside, for a stale takeover
  guard it read, a newer one (`LockProtocol.MutualExclusion`), and so in every run in which no process
  dies between taking and removing the guard (`LockProtocol.ExclusionWithoutGuardDeaths`). That
  hypothesis cannot simply be dropped: `LockProtocolLimits.GuardDeathBreaksExclusion` is a run with a
  single such death after which two live processes hold the lock. In one step a live holder loses its
  file to another process exactly when its guard is about to be taken for a stale one
  (`LockProtocol.HoldersLoseExactlyWhen`).
- A recovery that leaves no lock file: `LockRecovery.Contender.Recover` states exactly when the guard
  stays, when it was there and the mutex was not. `LockProtocolLimits.StrandedGuardIsReachable`
  reaches such a state.
- An observation time that only moves forward: times are compared only between two running copies,
  and the watchdog compares none. So a verdict may be older than what it replaces, and a watchdog's
  sighting may take a running artifact back, whoever wrote it. `DetachedArtifact` has the exact
  condition for every single event (`EventRewindsExactlyWhen`) and over every interleaving of
  inspectors, watchdogs and launchers (`RunRewindsExactlyWhen`), for times that can be read.
- Watchdog and inspector agreeing on the status: they do for a result that is absent or says passed or
  failed, as long as the phase file can be read, which only the inspector looks at
  (`DetachedVerdict.StatusesAgree`, `PhaseFailureFlipsTheVerdict`). On the record of a result seen
  while running they agree less often. `StatusesAgreeExactlyWhen` and `SightingsAgreeExactlyWhen` have
  the exact conditions over everything the two observe, and `UnrecordedSightingFlipsTheVerdict` shows
  a run whose verdict depends on which of the two concludes it.
- The two tests of whether a result file is this run's differ, exactly on some new files that are not
  regular (`FreshnessTestsAgreeExactlyWhen`).
- A recorded sighting can be lost to a write, by an inspector or a launcher, of a copy that has none
  (`SightingIsLostExactlyWhen`, `SightingsCanBeLost`, `SightingsCanRewind`).
- `ProcessRunState` reports the first failure requested before the termination handler looks; one
  that comes between the look and `finish` is not reported (`LateRequestIsNotReported`), and
  `DeliversFirstFailureExactlyWhen` has the condition over whole runs. It is safe
  for one continuation only: a second would lose the first (`SecondInstallLosesFirst`). The caller
  installs one.
- A mutation that follows superseding refreshes can be stranded: if the refresh it turns to has
  ended and its outcome is no longer kept, no one resumes it but its own cancellation
  (`StrandsExactlyWhen`, `StrandedUntilCancelled`, `StrandingIsReachable`).
- The descendant search over a table with one row per process ends exactly when the root is not
  among its own descendants
  (`FindDescendants`, `CycleThroughRootNeverEnds`).

## Assumptions

- A process judged dead is dead and its identity never runs again; its pid number may be reused. A
  liveness test that cannot tell answers "alive". Tokens of lock files are unique.
- When terminating a process is confirmed, the process is gone. A launcher writes a terminal artifact
  only for a process that is gone or never started, and a passed one only on a result that says so.
  One launch gives all its artifacts the same deadline and the same record of earlier results.
- A process table has one row per process.
- File digests are injective. Times are integers of milliseconds.
- The code of the store runs on one actor: each stretch between two suspension points is one event.

## Model

| member | source | states |
|---|---|---|
| LockProtocol.EventsAreOpen | agent-harness/src/lib/detached-run.ts:3202-3226 | which calls may come next: any, in any order, but a live owner is never judged dead |
| LockProtocol.ClaimsAreExactly | agent-harness/src/lib/detached-run.ts:3319-3348 | a claim succeeds exactly when the path is free, and then the file names the claimant and carries a fresh token |
| LockProtocol.DirectClaimsAreExactly | agent-harness/src/lib/detached-run.ts:3372-3378 | the same for a path claim retried without the mutex |
| LockProtocol.ReclaimsAreExactly | agent-harness/src/lib/detached-run.ts:3272-3287 | the calls of a reclaim up to taking the file aside: it goes on only for a dead owner and the very file read before |
| LockProtocol.MistakesAreUndone | agent-harness/src/lib/detached-run.ts:3228-3264 | another file than the one read is put back exactly when its place is still free |
| LockProtocol.ReleasesAreExactly | agent-harness/src/lib/detached-run.ts:3754-3759 | a release removes the file exactly when the pid in it is its own |
| LockProtocol.InvStep | agent-harness/src/lib/detached-run.ts:3228-3348 | every single call of claiming, reclaiming and releasing, and every crash, keeps the invariant over the three files and all program counters, unless it takes aside a newer guard than it read |
| LockProtocol.RunKeepsInv | agent-harness/src/lib/detached-run.ts:3717-3759 | so does every such run, of any length and any number of processes |
| LockProtocol.MutualExclusion | agent-harness/src/lib/detached-run.ts:3853-3885 | in every reachable state at most one live process holds the lock, the mutex or the guard, and the file there carries its name |
| LockProtocol.OneInTheCriticalSection | agent-harness/src/lib/detached-run.ts:3853-3885 | no two live processes are in the critical section at once, and the lock file names the one that is |
| LockProtocol.HoldersAreNotDisplaced | agent-harness/src/lib/detached-run.ts:3228-3264 | no step of another process removes, renames or replaces a live holder's file |
| LockProtocol.HoldersLoseExactlyWhen | agent-harness/src/lib/detached-run.ts:3228-3264 | without the assumption about the guard: the one kind of step in which a live holder loses its file, both ways |
| LockProtocol.OnlyDeadFilesAreReclaimed | agent-harness/src/lib/detached-run.ts:3228-3264 | a reclaim only ever removes the very file it read (inode, owner, token), whose owner is dead; the put-back path is never taken |
| LockProtocol.ReleasesRemoveOwnFiles | agent-harness/src/lib/detached-run.ts:3754-3759 | a release that checks only the pid removes its own file, although pids are reused |
| LockProtocol.GuardSafeRunsAreSound | agent-harness/src/lib/detached-run.ts:3289-3306 | while nobody dies inside the guard, every guard belongs to a live process and none is taken aside |
| LockProtocol.ExclusionWithoutGuardDeaths | agent-harness/src/lib/detached-run.ts:3853-3885 | so then at most one live process holds the lock |
| LockProtocolLimits.GuardDeathBreaksExclusion | agent-harness/src/lib/detached-run.ts:3289-3306 | a run with exactly one death inside the guard after which two live processes hold the lock |
| LockProtocolLimits.StrandedGuardIsReachable | agent-harness/src/lib/detached-run.ts:3289-3306 | a run after which a dead process's guard stands without mutex or lock |
| LockRecovery.ReclaimAlone | agent-harness/src/lib/detached-run.ts:3228-3287 | the calls of one reclaim, from reading the file to removing it, are a run of the protocol, and what they leave |
| LockRecovery.Contender.ReclaimMutex | agent-harness/src/lib/detached-run.ts:3289-3306 | breaks the mutex exactly when it is stale and the guard is free or stale; what becomes of the files |
| LockRecovery.Contender.EnterMutex | agent-harness/src/lib/detached-run.ts:3717-3752 | the mutex loop ends, and enters exactly when the mutex is free, or stale with a guard that is free or stale |
| LockRecovery.Contender.Acquire | agent-harness/src/lib/detached-run.ts:3853-3885 | succeeds exactly when everything in the way is free or stale, in one iteration if the lock was free and two if not, and what it leaves |
| LockRecovery.Contender.Recover | agent-harness/src/lib/detached-run.ts:3853-3885 | from any state in which every holder has crashed, the contender's calls are a run of the protocol; it acquires the lock within two iterations, releases it, and leaves only a guard whose mutex was already gone |
| DetachedArtifact.ArtifactFile.WriteWithCurrentLock | agent-harness/src/lib/detached-run.ts:4608-4703 | the stored artifact afterwards, dropped writes included |
| DetachedArtifact.ArtifactFile.WriteFailedLaunch | agent-harness/src/lib/detached-run.ts:4705-4717 | a failed launch does not replace another run |
| DetachedArtifact.ArtifactFile.WriteWatchdogVerdict | agent-harness/src/lib/detached-run.ts:1174-1199 | writes onto the latest copy of the same unfinished run, or not at all |
| DetachedArtifact.ArtifactFile.WriteWatchdogSighting | agent-harness/src/lib/detached-run.ts:1200-1216 | the same for a result seen while running; an earlier sighting is kept |
| DetachedArtifact.WriteIsExactly | agent-harness/src/lib/detached-run.ts:4604-4703 | what inspectors' and launchers' writes store over an artifact, on pids, start times, statuses and observation times |
| DetachedArtifact.AbsentIsExactly | agent-harness/src/lib/detached-run.ts:4679-4717 | with nothing stored only a launch stores anything |
| DetachedArtifact.WatchdogVerdictIsExactly | agent-harness/src/lib/detached-run.ts:1174-1199 | every field after a watchdog's verdict: its status and time, an earlier finish kept, all else as it was |
| DetachedArtifact.WatchdogSightingIsExactly | agent-harness/src/lib/detached-run.ts:1200-1216 | every field after a watchdog's sighting: its time, an earlier sighting kept, all else as it was |
| DetachedArtifact.TerminalArtifactsAreFinal | agent-harness/src/lib/detached-run.ts:4608-4648 | over every interleaving of writers with stale copies, a terminal artifact stays as it is until removed or replaced by a launch |
| DetachedArtifact.RemovedStaysRemoved | agent-harness/src/lib/detached-run.ts:4650-4703 | no writer but a launch recreates a removed artifact |
| DetachedArtifact.RunsAreNotMixedUp | agent-harness/src/lib/detached-run.ts:4604-4648 | no writer but a launch overwrites another run's artifact |
| DetachedArtifact.RunChangesExactlyBy | agent-harness/src/lib/detached-run.ts:4604-4717 | the events that change which run is stored, exactly |
| DetachedArtifact.EventRewindsExactlyWhen | agent-harness/src/lib/detached-run.ts:1174-1216 | for every event of every writer: when it moves the stored run's observation time back, exactly |
| DetachedArtifact.TerminalWritesCanRewind | agent-harness/src/lib/detached-run.ts:4608-4648 | such a write |
| DetachedArtifact.SightingsCanRewind | agent-harness/src/lib/detached-run.ts:1200-1216 | a watchdog's sighting takes a running artifact back, lets an older copy in, and is lost to it |
| DetachedArtifact.RunRewindsExactlyWhen | agent-harness/src/lib/detached-run.ts:4608-4648 | over every interleaving of inspectors, watchdogs and launchers with one run: when its observation time has gone back in the end, exactly |
| DetachedArtifact.SightingIsLostExactlyWhen | agent-harness/src/lib/detached-run.ts:4608-4703 | for every event of every writer: when it drops the stored run's recorded sighting, exactly |
| DetachedArtifact.SightingsCanBeLost | agent-harness/src/lib/detached-run.ts:1200-1216 | an interleaving in which one is dropped |
| LockedArtifact.StepsAreExactly | agent-harness/src/lib/detached-run.ts:3853-3885 | what a call, a read and a write do, the latter two only inside the critical section |
| LockedArtifact.SectionsAreUndivided | agent-harness/src/lib/detached-run.ts:4668-4703 | a read and a write inside the lock, with any calls of other processes in between, act on the stored artifact as one undivided write |
| LockedArtifact.HistoriesAreSequences | agent-harness/src/lib/detached-run.ts:3879-3885 | from the beginning on, every interleaved history stores what its writes store one after the other |
| DetachedVerdict.PredatesDeadlineIsExactly | agent-harness/src/lib/detached-run.ts:4307-4338 | a result predates a deadline: its modification time, whole seconds and generation time compared with it |
| DetachedVerdict.WithoutDeadlineAllPredate | agent-harness/src/lib/detached-run.ts:4313-4316 | without a readable deadline every result does |
| DetachedVerdict.BaselineIsFirst | agent-harness/src/lib/detached-run.ts:4262-4270 | the baseline is the first one recorded for the path |
| DetachedVerdict.BelongsIsExactly | agent-harness/src/lib/detached-run.ts:4262-4305 | both tests of whether a file is this run's, on times, sizes and contents, for every baseline, full, partial or missing |
| DetachedVerdict.ReadingIsExactly | agent-harness/src/lib/detached-run.ts:4232-4260 | what reading a candidate yields, by kind and claims |
| DetachedVerdict.DiscoveryTakesTheFirst | agent-harness/src/lib/detached-run.ts:2579-2595 | the first candidate that yields anything decides for the inspector |
| DetachedVerdict.OwnedDiscoveryTakesTheFirst | agent-harness/src/lib/detached-run.ts:985-1000 | and for the watchdog |
| DetachedVerdict.NewMeansDifferent | agent-harness/src/lib/detached-run.ts:4262-4305 | against a full baseline a result counts as new exactly when its time, size or contents differ, and its times fit |
| DetachedVerdict.FreshnessTestsAgreeExactlyWhen | agent-harness/src/lib/detached-run.ts:4262-4338 | when the two freshness tests agree |
| DetachedVerdict.DiscoveredPassIsEarned | agent-harness/src/lib/detached-run.ts:2579-2595 | a pass that the inspector or launcher discovers is a regular, owned, new file that says so and predates the deadline |
| DetachedVerdict.DiscoveredOwnedPassIsEarned | agent-harness/src/lib/detached-run.ts:1140-1168 | and so is one that the watchdog discovers |
| DetachedVerdict.DiscoveredPassesAreInTime | agent-harness/src/lib/detached-run.ts:4307-4338 | a pass that either program discovers stands in a file written before the deadline, not on the last whole second before it, not claiming a later generation, and after the start where no earlier file is known |
| DetachedVerdict.OverdueIsExactly | agent-harness/src/lib/detached-run.ts:5347-5350 | when a run is overdue |
| DetachedVerdict.SightedIsExactly | agent-harness/src/lib/detached-run.ts:5369-5375 | when an inspection records a result seen while the process was running |
| DetachedVerdict.WrittenByIsExactly | agent-harness/src/lib/detached-run.ts:5404-5430 | every field of what an inspection writes |
| DetachedVerdict.WatchedIsExactly | agent-harness/src/lib/detached-run.ts:1217-1278 | when the watchdog concludes what, records a sighting, or does nothing |
| DetachedVerdict.Inspect | agent-harness/src/lib/detached-run.ts:5336-5435 | the whole artifact an inspection writes, for every observation |
| DetachedVerdict.WatchDeadline | agent-harness/src/lib/detached-run.ts:1217-1278 | what the watchdog writes, and whether it looks again |
| DetachedVerdict.TerminalMeansGone | agent-harness/src/lib/detached-run.ts:5336-5402 | both turn a running artifact terminal only after the process was found gone, or made gone at the deadline |
| DetachedVerdict.InspectionYieldsExactly | agent-harness/src/lib/detached-run.ts:5336-5402 | exactly when an inspection concludes passed, timeout or exited-without-result |
| DetachedVerdict.InspectionKeepsVerdicts | agent-harness/src/lib/detached-run.ts:5336-5340 | a verdict once given is not reconsidered |
| DetachedVerdict.PassedVerdictsAreEarned | agent-harness/src/lib/detached-run.ts:4232-4338 | passed implies an owned, new result from before the deadline, a gone process, and no earlier sighting once the deadline passed |
| DetachedVerdict.StatusesAgree | agent-harness/src/lib/detached-run.ts:1217-1278 | with a result that is absent or says passed or failed, watchdog and inspector reach the same status if the phase can be read; exactly when they do if not |
| DetachedVerdict.StatusesAgreeExactlyWhen | agent-harness/src/lib/detached-run.ts:1217-1278 | for every observation: when their statuses agree, exactly |
| DetachedVerdict.PhaseFailureFlipsTheVerdict | agent-harness/src/lib/detached-run.ts:4116-4136 | with an unreadable phase file the inspector fails a run that the watchdog passes |
| DetachedVerdict.SightingsAgreeExactlyWhen | agent-harness/src/lib/detached-run.ts:5341-5402 | for every observation of a running copy: when their sighting records agree, exactly |
| DetachedVerdict.UnrecordedSightingFlipsTheVerdict | agent-harness/src/lib/detached-run.ts:1217-1278 | the disagreement can decide between passed and timeout |
| DetachedVerdict.GoneIsExactly | agent-harness/src/lib/detached-run.ts:4470-4533 | a run counts as gone only once its process exited or its termination was confirmed |
| DetachedVerdict.WatchdogFailureIsExactly | agent-harness/src/lib/detached-run.ts:4439-4468 | what is written when the watchdog cannot be started |
| DetachedVerdict.LooksAreStored | agent-harness/src/lib/detached-run.ts:1174-1216 | a watchdog's conclusion, and an inspection, is what is stored afterwards |
| DetachedVerdict.StoredVerdictsAreJustified | agent-harness/src/lib/detached-run.ts:5314-5435 | in every interleaving of inspectors, watchdogs and launchers a stored terminal verdict belongs to a process that is gone, and a stored pass came from an owned, new result whose times are before the deadline |
| DetachedVerdict.SystemStepKeepsJustified | agent-harness/src/lib/detached-run.ts:4439-4468 | each of their steps keeps this of everything ever stored |
| WindowsCommandLine.BackslashRules | agent-harness/src/lib/detached-run.ts:1847-1869 | the parser follows the published rules for backslashes and quotes |
| WindowsCommandLine.BlankRules | agent-harness/src/lib/detached-run.ts:1871-1873 | and those for blanks between arguments and the end of the line |
| WindowsCommandLine.WhiteSpaceIs | agent-harness/src/lib/detached-run.ts:1848-1850 | the white space that needs quotes, code point by code point |
| WindowsCommandLine.QuotesWhereNeeded | agent-harness/src/lib/detached-run.ts:1847-1851 | arguments without blanks and quotes are printed as they are, empty ones and others in quotes |
| WindowsCommandLine.QuoteArgument | agent-harness/src/lib/detached-run.ts:1847-1869 | the loop prints what the recursive definition says |
| WindowsCommandLine.ParseOne | agent-harness/src/lib/detached-run.ts:1847-1869 | one printed argument is read back whole, whatever follows |
| WindowsCommandLine.ParseUndoesFormat | agent-harness/src/lib/detached-run.ts:1871-1873 | the parser returns exactly the list printed, for every list of arguments |
| WindowsCommandLine.FormatIsInjective | agent-harness/src/lib/detached-run.ts:1871-1873 | no two lists print alike |
| ProcessTree.GroupByParent | app/Sources/BrokerLocalCommandClient.swift:476-484 | each process's children, in table order |
| ProcessTree.FindDescendants | app/Sources/BrokerLocalCommandClient.swift:476-494 | the stack loop ends with exactly the transitive descendants, each once, parents first |
| ProcessTree.SignalTree | app/Sources/BrokerLocalCommandClient.swift:243-251 | the group, the root, then every descendant once, each before the descendant it is a child of, and nobody else is signalled |
| ProcessTree.CycleThroughRootNeverEnds | app/Sources/BrokerLocalCommandClient.swift:476-494 | a root among its own descendants keeps the search going forever |
| ProcessRun.EventsAreOpen | app/Sources/BrokerLocalCommandClient.swift:550-596 | which sections may come next |
| ProcessRun.OffersAreExactly | app/Sources/BrokerLocalCommandClient.swift:62-109 | a continuation or timeout task offered before completion is kept, one offered after it is resumed with the result or cancelled at once |
| ProcessRun.RequestsAreExactly | app/Sources/BrokerLocalCommandClient.swift:147-172 | the first failure requested is remembered, and a kill task is set off unless there is one |
| ProcessRun.KillTasksAreExactly | app/Sources/BrokerLocalCommandClient.swift:214-227 | a kill task is installed, or cancelled when it comes too late |
| ProcessRun.ResultsAreExactly | app/Sources/BrokerLocalCommandClient.swift:174-205 | the first result completes the run, resumes the continuation with itself and cancels both tasks; later ones change nothing |
| ProcessRun.TerminationsAreExactly | app/Sources/BrokerLocalCommandClient.swift:111-145 | a termination handler looks unless the run has completed, and finishes after its look |
| ProcessRun.RunState.InstallContinuation | app/Sources/BrokerLocalCommandClient.swift:62-78 | the fields afterwards, and the outcome to resume with at once if already completed |
| ProcessRun.RunState.FinishSection | app/Sources/BrokerLocalCommandClient.swift:174-205 | the first finish takes continuation and tasks out; later ones change nothing |
| ProcessRun.WorkIsExactly | app/Sources/BrokerLocalCommandClient.swift:188-205 | the resumptions and cancellations after a section happen as handed out |
| ProcessRun.StepKeepsInv | app/Sources/BrokerLocalCommandClient.swift:62-227 | every locked section and every job outside it keeps the invariant |
| ProcessRun.ResumedExactlyOnce | app/Sources/BrokerLocalCommandClient.swift:174-205 | no continuation is resumed twice; after completion every installed one not overwritten has been |
| ProcessRun.OfferedTasksAreCancelled | app/Sources/BrokerLocalCommandClient.swift:96-109 | after completion every timeout or kill task offered and not overwritten has been cancelled |
| ProcessRun.CallerIsAnsweredOnce | app/Sources/BrokerLocalCommandClient.swift:550-596 | as the caller uses it: one continuation, resumed once, and all tasks cancelled |
| ProcessRun.TerminationReportsFirstFailure | app/Sources/BrokerLocalCommandClient.swift:111-145 | what a termination handler goes on to finish with is the first failure requested by then |
| ProcessRun.DeliversFirstFailureExactlyWhen | app/Sources/BrokerLocalCommandClient.swift:111-205 | over whole runs: the result a termination handler delivers is the first failure requested exactly when some was requested by the time it looked, or the process failed that way itself |
| ProcessRun.LateRequestIsNotReported | app/Sources/BrokerLocalCommandClient.swift:147-172 | a failure requested after the handler looked is not reported |
| ProcessRun.SecondInstallLosesFirst | app/Sources/BrokerLocalCommandClient.swift:62-78 | a second installation before completion loses the first |
| DashboardAuthority.StoreBegins | app/Sources/BrokerDashboardStore.swift:88-125 | a store begins with nothing loaded and nothing pending |
| DashboardAuthority.RequestsCanHappen | app/Sources/BrokerDashboardStore.swift:552-587 | which prompts a simulator command raises |
| DashboardAuthority.CanSendIsExactly | app/Sources/BrokerDashboardStore.swift:300-308 | commands may be sent exactly when a service is loaded that need not restart and whose status is verified |
| DashboardAuthority.LoadedIsExactly | app/Sources/BrokerDashboardStore.swift:1371-1440 | what is known after a whole, a partial and a failed load |
| DashboardAuthority.PendingIsExactly | app/Sources/BrokerDashboardStore.swift:552-587 | for every event and prompt: when the prompt is pending afterwards |
| DashboardAuthority.StampIsExactly | app/Sources/BrokerDashboardStore.swift:1764-1770 | and its stamp: the epoch of the request behind it |
| DashboardAuthority.PreviewsAreExactly | app/Sources/BrokerDashboardStore.swift:869-909 | which cleanup previews are under way and which is current |
| DashboardAuthority.StepKeepsInv | app/Sources/BrokerDashboardStore.swift:1702-1721 | every change of authority and every operator action keeps prompts tied to the current epoch and to permission |
| DashboardAuthority.EqualEpochsMeanEqualAuthority | app/Sources/BrokerDashboardStore.swift:1655-1658 | two moments of a run with equal epochs have the same service, restart flag and permission |
| DashboardAuthority.PromptsBelongToTheCurrentEpoch | app/Sources/BrokerDashboardStore.swift:1702-1721 | a pending prompt was asked for under the current epoch and commands may be sent |
| DashboardAuthority.PromptsMeanAVerifiedService | app/Sources/BrokerDashboardStore.swift:300-308 | in every reachable state a pending prompt means a loaded service that need not restart, verified, and the current epoch |
| DashboardAuthority.PromptsOutliveNoChange | app/Sources/BrokerDashboardStore.swift:1764-1770 | between a request and its still pending prompt nothing about the service changed |
| DashboardAuthority.EpochAdvancesExactlyWhen | app/Sources/BrokerDashboardStore.swift:1371-1440 | which outcomes of a refresh advance the epoch |
| DashboardRefresh.EventsAreOpen | app/Sources/BrokerDashboardStore.swift:1324-1528 | which segments may come next |
| DashboardRefresh.BeginIsExactly | app/Sources/BrokerDashboardStore.swift:1330-1345 | when a refresh begins and what it changes |
| DashboardRefresh.CallerIsExactly | app/Sources/BrokerDashboardStore.swift:1449-1462 | what a mutation has from the refresh it starts |
| DashboardRefresh.OutcomeIsExactly | app/Sources/BrokerDashboardStore.swift:1354-1440 | each outcome by generation, stop and set-up numbers, cancellation and reply |
| DashboardRefresh.KnowledgeIsExactly | app/Sources/BrokerDashboardStore.swift:1371-1440 | what is known of the service after each outcome |
| DashboardRefresh.FinishRemembers | app/Sources/BrokerDashboardStore.swift:1482-1495 | which outcomes are kept after a refresh |
| DashboardRefresh.TurnIsExactly | app/Sources/BrokerDashboardStore.swift:1464-1480 | what a mutation does with the outcome at hand: returns, throws what, turns to a newer refresh, waits |
| DashboardRefresh.CancellingEndsTheWait | app/Sources/BrokerDashboardStore.swift:1520-1528 | cancelling a waiter ends its wait and nobody else's |
| DashboardRefresh.StopIsExactly | app/Sources/BrokerDashboardStore.swift:488-511 | what a stop changes |
| DashboardRefresh.StepKeepsInv | app/Sources/BrokerDashboardStore.swift:1324-1441 | every segment of code keeps the invariant over generations, outcomes, counts and waiters |
| DashboardRefresh.RunKeepsInv | app/Sources/BrokerDashboardStore.swift:1324-1441 | and so does every run |
| DashboardRefresh.OnlyTheNewestPublishes | app/Sources/BrokerDashboardStore.swift:1354-1440 | only the newest started refresh of the current stop generation changes the authority, and an unchanged epoch means unchanged knowledge |
| DashboardRefresh.OutcomesAreFinal | app/Sources/BrokerDashboardStore.swift:1482-1495 | a refresh has one outcome, for good |
| DashboardRefresh.ReachableStates | app/Sources/BrokerDashboardStore.swift:1341-1352 | in every reachable state: each started refresh is under way or ended; `superseded(by:)` names a later one; the visible count is the number of visible refreshes since the last stop; published generations increase |
| DashboardRefresh.FollowersEndWell | app/Sources/BrokerDashboardStore.swift:1462-1480 | "superseded repeatedly" is never thrown; a mutation that returns was followed by a refresh begun no earlier than its own whose load succeeded, one that throws a load's error by one whose load failed with it; a success at hand makes it return; every waiter is resumed at most once |
| DashboardRefresh.OutcomesComeFromLoads | app/Sources/BrokerDashboardStore.swift:1354-1440 | over every run: a refresh succeeded or failed because its own load did, uncancelled |
| DashboardRefresh.FinishResumesItsWaiters | app/Sources/BrokerDashboardStore.swift:1482-1487 | the end of a refresh reaches those who wait for it, once, and nobody else |
| DashboardRefresh.QuietStoresOweNothing | app/Sources/BrokerDashboardStore.swift:488-511 | with nothing under way nothing is shown as refreshing and whoever waits is stranded |
| DashboardRefresh.StrandsExactlyWhen | app/Sources/BrokerDashboardStore.swift:1488-1516 | exactly when a follower starts waiting for a refresh that is over |
| DashboardRefresh.RecentRefreshesAreRemembered | app/Sources/BrokerDashboardStore.swift:1488-1495 | no follower is stranded by one of the last twenty refreshes |
| DashboardRefresh.StrandedUntilCancelled | app/Sources/BrokerDashboardStore.swift:1520-1528 | a stranded follower waits until cancelled |
| DashboardRefresh.StrandingIsReachable | app/Sources/BrokerDashboardStore.swift:1488-1495 | a run that strands one |
| DashboardStore.DashboardStore.BeginRefresh | app/Sources/BrokerDashboardStore.swift:1330-1352 | a refresh's first segment is one event of the model |
| DashboardStore.DashboardStore.FinishRefresh | app/Sources/BrokerDashboardStore.swift:1354-1440 | its last segment is one event, returns its outcome, and resumes its waiters |
| DashboardStore.DashboardStore.StopRefreshing | app/Sources/BrokerDashboardStore.swift:488-511 | stopping is one event |
| DashboardStore.DashboardStore.TakeTurn | app/Sources/BrokerDashboardStore.swift:1464-1480 | one turn of a following mutation is one event |
| DashboardStore.DashboardStore.CancelRefreshOutcomeWaiter | app/Sources/BrokerDashboardStore.swift:1520-1528 | cancelling a waiter is one event |
| DashboardStore.DashboardStore.AdvanceServiceAuthorityEpoch | app/Sources/BrokerDashboardStore.swift:1655-1658 | a new epoch leaves no prompt pending |
| DashboardStore.DashboardStore.HandleLoadFailure | app/Sources/BrokerDashboardStore.swift:1417-1440 | what a failed load leaves known |
| DashboardStore.DashboardStore.SelectPane | app/Sources/BrokerDashboardStore.swift:115-127 | leaving a pane drops its prompts |
| Utf8.PushAllConcat | agent-harness/src/lib/runtime.ts:244-246 | decoding in pieces is decoding the whole |
| Utf8.DecodeUndoesEncode | agent-harness/src/lib/runtime.ts:300-320 | decoding an encoded text gives it back |
| Utf8.EncodeUndoesDecode | agent-harness/src/lib/runtime.ts:300-320 | where decoding shows no replacement character, the input was the text's encoding |
| Utf8.BrokenCharactersAreReplaced | agent-harness/src/lib/runtime.ts:300-320 | a character that breaks off costs one replacement and nothing of what follows |
| Utf8.StrayBytesAreReplaced | agent-harness/src/lib/runtime.ts:300-320 | so does a byte that can begin no character |
| Utf8.DecodedIsNoLonger | agent-harness/src/lib/runtime.ts:300-320 | replacement decoding yields no more characters than bytes |
| FailurePatterns.OccursIsExactly | agent-harness/src/lib/runtime.ts:235-239 | a pattern occurs when some stretch of the text reads like it once both are folded |
| FailurePatterns.UnitsReadBack | agent-harness/src/lib/runtime.ts:228-242 | characters beyond sixteen bits become surrogate pairs |
| FailurePatterns.OccursAcrossTheSeam | agent-harness/src/lib/runtime.ts:228-242 | searching only the carried-over end and the new text misses no literal pattern |
| FailurePatterns.FoundKeepsOrder | agent-harness/src/lib/runtime.ts:248-255 | the patterns found come in the order and as often as given |
| FailurePatterns.AllMatched | agent-harness/src/lib/runtime.ts:229-231 | stopping early on the number of matches is right even with repeated patterns |
| FailurePatterns.FailurePatternTracker.AppendDecodedText | agent-harness/src/lib/runtime.ts:228-242 | the tracker's matches are those of all text so far |
| FailurePatterns.FailurePatternTracker.GetMatches | agent-harness/src/lib/runtime.ts:248-255 | the patterns that occur, in the order given |
| FailurePatterns.TrackFailures | agent-harness/src/lib/runtime.ts:207-256 | for any chunking, even inside characters: exactly the patterns that occur in the whole decoded output |
| OutputAccumulator.CaptureAccountsForEveryByte | agent-harness/src/lib/runtime.ts:258-321 | the two ends are disjoint, fill the budget, and omit exactly the announced number of bytes |
| OutputAccumulator.TextIsExactly | agent-harness/src/lib/runtime.ts:300-320 | the reported text: beginning, marker, end |
| OutputAccumulator.MarkerReads | agent-harness/src/lib/runtime.ts:311-312 | the marker's words and the order of its three numbers |
| OutputAccumulator.DigitsReadBack | agent-harness/src/lib/runtime.ts:311-312 | the counts in the marker are decimal and read back as written |
| OutputAccumulator.OutputIsExactly | agent-harness/src/lib/runtime.ts:300-320 | every field of the report of a stream |
| OutputAccumulator.OutputAccumulator.Retain | agent-harness/src/lib/runtime.ts:274-298 | each chunk keeps the captured ends those of all bytes so far |
| OutputAccumulator.OutputAccumulator.Finish | agent-harness/src/lib/runtime.ts:300-320 | the report is that of the whole stream |
| OutputAccumulator.Capturing | agent-harness/src/lib/runtime.ts:258-321 | the report depends only on the concatenation of the chunks |
| ReadLimit.JsonReadsBack | agent-harness/src/lib/verify.ts:483 | the JSON string of a text reads back as its encoding |
| ReadLimit.LimitIsExactly | agent-harness/src/lib/detached-verify.ts:24-44 | the limit: six times the budgets, its defaults, allowances and floor |
| ReadLimit.StreamFits | agent-harness/src/lib/runtime.ts:300-320 | one stream's JSON encoding, marker included, takes at most six bytes per byte of budget and a small constant |
| ReadLimit.OutputFitsReadLimit | agent-harness/src/lib/detached-verify.ts:24-44 | all commands' encoded outputs fit the read limit and leave a megabyte |
| ReadLimit.SixIsNeeded | agent-harness/src/lib/detached-verify.ts:37 | some output of every size needs the factor six |
| OutputRelay.FittingIsLongest | agent-harness/src/lib/verify.ts:66-81 | taking characters while they fit gives the longest fitting beginning |
| OutputRelay.FittingFillsTheBudget | agent-harness/src/lib/verify.ts:66-81 | and wastes at most three bytes |
| OutputRelay.TakeUtf8Prefix | agent-harness/src/lib/verify.ts:66-81 | the loop computes it |
| OutputRelay.LogIsExactly | agent-harness/src/lib/verify.ts:92-115 | the log: the text if it fits, else its longest fitting beginning and one notice |
| OutputRelay.NoticeReads | agent-harness/src/lib/verify.ts:110-113 | the notice's words and the order of what it names |
| OutputRelay.LogIsFinal | agent-harness/src/lib/verify.ts:92-95 | nothing is written once the limit is passed |
| OutputRelay.BoundedDetachedOutputRelay.Relay | agent-harness/src/lib/verify.ts:92-115 | after each chunk the log is that of all text so far, with one notice exactly if it is too long |
| OutputRelay.RelayAll | agent-harness/src/lib/verify.ts:83-116 | the log does not depend on the chunking |
| VerificationPlan.RepeatedIds | agent-harness/src/lib/config.ts:470-478 | validation finds repeated profile names |
| VerificationPlan.CanSatisfyIsExactly | agent-harness/src/lib/proof.ts:17-50 | which coverage suits which obligation, kind by kind |
| VerificationPlan.ExplicitMatchesAre | agent-harness/src/lib/config.ts:516-531 | how a profile made for an obligation is told |
| VerificationPlan.AcceptableMeans | agent-harness/src/lib/config.ts:589-611 | the profiles listed for an obligation are those whose coverage can satisfy it |
| VerificationPlan.UsableProfilesCanSatisfy | agent-harness/src/lib/config.ts:562-564 | with unique names, looking them up finds exactly those |
| VerificationPlan.SelectionPrefers | agent-harness/src/lib/config.ts:565-576 | all profiles made for the obligation come first, then base profiles |
| VerificationPlan.NarrowestIsBest | agent-harness/src/lib/config.ts:533-583 | otherwise no usable profile has a smaller scope, or as small a scope and fewer commands |
| VerificationPlan.ObligationsAreResolved | agent-harness/src/lib/config.ts:613-640 | the plan has exactly the declared obligations that apply |
| VerificationPlan.PlanLists | agent-harness/src/lib/config.ts:642-680 | which profiles are base profiles and which an obligation adds |
| VerificationPlan.ResolvedPaths | agent-harness/src/lib/config.ts:613-640 | the paths listed with an obligation |
| VerificationPlan.PlanIsSorted | agent-harness/src/lib/config.ts:642-680 | the lists ascend without repetition, and base profiles are not listed again |
| VerificationPlan.PlanIsEnough | agent-harness/src/lib/config.ts:642-680 | once every required profile has passed, every required profile is satisfied and every obligation with an acceptable profile, and no other |
| VerificationPlan.CompletionIsExactly | agent-harness/src/lib/task-session.ts:1203-1290 | for any results: the task passes exactly when every required profile and every obligation has a current passing result, of an acceptable profile with suiting coverage for the latter, and the other checks pass; otherwise it is blocked exactly when blockers are declared |
| VerificationPlan.CompleteExactlyWhen | agent-harness/src/lib/task-session.ts:1200-1290 | then the task passes exactly when every obligation has an acceptable profile and the other checks pass |
| VerificationPlan.FindingMeans | agent-harness/src/lib/task-session.ts:506-589 | for each reason given for a required profile, the results it is given for, exactly |
| VerificationPlan.ExecutedIsExactly | agent-harness/src/lib/verify.ts:463-481 | what a run records; advisory profiles pass regardless |
| VerificationPlan.RunningAProfilePasses | agent-harness/src/lib/verify.ts:463-481 | a run of the profile found under a name is such a pass |
| VerificationPlan.RepeatedNamesBreakThePlan | agent-harness/src/lib/config.ts:562-564 | with a repeated name the plan can fall short of the gate |

## Left out

- Process probing, signalling and the platform tools behind it: liveness and termination are answers
  given from outside. The inspector's and the watchdog's tests are one and the same answer here.
- The generated shell, PowerShell and log-script programs; file input and output, hashing, clocks.
- Start-up orchestration beyond the artifact writes it makes; the transfer of path claims to a started
  process, which rewrites lock metadata, and the removal of such claims.
- Failures of the file system other than "exists" and "missing", and reads of half-written lock files.
- Result paths, failure messages, events and resume commands in the artifact; phase texts.
- Times finer than a millisecond, and dates that the two programs' date readers understand differently.
- `markProcessStarted`, the terminate and kill signals themselves, and reading a command's output.
- The capacity sheet and guided set-up of the store; feedback messages, selections and logging.
- Actor scheduling: events may come in any order, so the stranding run may need an unfair scheduler.
- Failure patterns other than literals; how case is folded is any function on code units.
- Text with lone surrogates, which cannot come from decoded output.
- The file formats around the encoded outputs, and the rest of a result in the read limit.
- Path patterns and string orders are parameters of the planner; command ids, pass signals and the
  remaining checks of validation and of task completion are one boolean or are left out.
