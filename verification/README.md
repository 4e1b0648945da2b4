# Verified model of the irrigation scheduler's engines

A model, in Dafny 4.11, of the pure logic that decides when a one-valve irrigation controller waters: the journaled executor that drives it, the planner that compiles the timeline, the recurrence engine, the JSON serializer, and the part of the coordinator that launches, retries and expires occurrences. Nothing here runs the original program; `dafny verify dfyconfig.toml` proves everything below.

## How it is built

Each engine has a specification made of functions on values, and beside it the code in the form it has in Python: classes whose methods and loops update their fields in place, each proved to leave exactly the state that the function gives. The theorems are about the functions, so they hold of the methods.

- `Domain`, `Sorting`, `Dedup`: shared types, Python's stable sort, the bounded window of finished occurrences.
- `ExecutorSpec` is one function per handler of the executor; a lock hold or a callback is one atomic transition, and what the world answers during it (clock, driver, at most one read, latencies, configuration) is an arbitrary input. `Executor` is the class. `ExecutorInvariant`, `ExecutorRecovery`, `ExecutorFrames`, `ExecutorRuns`, `ExecutorTermination`, `ExecutorOnce` and `ExecutorSoak` hold the theorems: what every transition keeps, recovery from every stored journal, and safety and termination over whole executions. `ExecutorCommands`, `ExecutorChecks` and `ExecutorAnswers` tell the same machine a second time, from outside, by commands, reports, armed callbacks and results, and prove that every execution answers so; `ExecutorJournal` says what a crash can lose.
- `PlannerSpec` is the planner; `Planner` and `PlannerCompile` are its objects and loops. `PlannerLayout` proves what the greedy layout of one occurrence guarantees, `PlannerSchedule` that whole runs are serial and what the collision detector accepts, `PlannerWindow` that work is cut only where the watering window forces it, `PlannerTimeline` what the compiled timeline promises. `SoakEndToEnd` joins compiled timelines and executions.
- `Recurrence` with `RecurrenceDays`, `Serde` with `SerdeModels`, and `CoordinatorSpec`, `CoordinatorRuns`, `CoordinatorReasons`, `Coordinator` cover the rest.

Instants are whole seconds, decimals are reals, identifiers are totally ordered values. A timezone is a function from instants to offsets in which changes of offset are at least a day apart around any wall clock time and move the clock by at most a day.

## What turned out false, and when it holds

- **Recovery can water a step again.** Outside the gap and the pauses, recovery does not look at the status of the step it starts (`executor.py:1715`).
  - A finished step: `NonResumableWrites` says which journals lead there, and there are three kinds of write: a late zone report in the gap (`executor.py:1398`, `CrashInOverrunCheckWatersAgain`), a resume over an ended step (`executor.py:1576`, `ResumeOverEndedStepWatersAgain`), and the last write of a run that ends while starting, waiting or reconciling (`executor.py:1780`; `CrashAfterFailureWatersAgain` is the case of a run given up).
  - A running step: recovery pauses over it when it sees foreign activity (`executor.py:1648`), a resume journals the run as WAITING over it (`executor.py:1576`), and a crash then starts it again: `PauseOverRunningStartsItAgain`. `NeverStartsRunning` shows that there is no other way, whatever crashes there are.
  - While neither kind of crash happens, `RecoveryStartsPendingIffResumable` is the exact condition for the started step to be PENDING.
- **Recovery that pauses over a running step** also loses the order of statuses: `RecoverRestoresStatuses` and `RecoverKeepsAttended` are if-and-only-if.
- **A step can be COMPLETED without having been watered.** Its recorded end is too early, because it was cut short or because a recovery started it again after it had ended (`StartedAgainIsCutShort`), and then a user skip and one late report of its zone, or a recovery that relies on that end, complete it. `CompletedMeansWatered` holds over all executions, with crashes after any write, in which neither happens; `SkipOfCutStepCompletesFalsely` and `TrustedShortEndCompletesFalsely` show that each of the two does complete a step falsely, so the condition is exact, and `RecoverKeepsWatered` is an if-and-only-if.
- **One step can be accepted twice** when the controller accepts a command only after the read that classifies it, or when that read fails. `NeverAcceptedTwice` holds without these; `LostStartAcceptsTwice` gives the second acceptance with them.
- **A start with seconds in the first minute of a spring-forward gap** resolves to a later instant than the transition, because the binary search works on whole minutes and gives up (`recurrence.py:80-82`), contrary to its own description. `GapSearchExact` and `ResolvesToFirstReached` are if-and-only-if.
- **Cycle numbers can be off** in two ways. A zone that meets a closed window after some of its cycles keeps the allocated count: `ClosedWindowMisnumbers` is an input, and `NumberedConsistently` and `NumberedUnlessGivenUp` are if-and-only-if, by the finished layout and by the branch taken. And a zone listed twice at one offset is renumbered as if its two listings were one (`planner.py:492-499`): `RepeatedRequestMisnumbers`. Nothing else that is proved of the planner needs requests to be distinct.
- **The collision detector** can refuse a run of zero length that is serial, if no gap is asked for: `ZeroLengthRefused`. `DetectorPasses` is the exact condition for all plans, and `DetectorExact` says that it is seriality wherever steps take time or there is a gap.
- **Two overlapping launches of one occurrence** can settle it twice: the checks are made before the wait for the adjustment, and a skip is recorded after it without asking again (`coordinator.py:996-1004`, `coordinator.py:1008-1016`). `CommitOnce` is the exact condition on one launch, `UndisturbedIsRaceFree` the condition on a whole history, and `AtomicLaunchesSettleOnce` the unconditional statement for launches that nothing interrupts.

In the table below the results come first; the rows from `Executor` on tie the methods of the classes to the functions that the results are about.

## Model

| member | source | states |
|---|---|---|
| ExecutorRuns.NoWedge | custom_components/rainbird_scheduler/executor.py:535-562 | In every execution from the idle start — any user calls, events, callbacks, driver answers, stale or missing reads, and a crash after any journal write — every state between two lock holds has exactly the one live callback it waits for: the expected-end callback at the expected end while watering, the gap callback in the gap, the callback of the reconcile context while reconciling, none when idle, at most a stop retry when paused; no other state rests |
| ExecutorRuns.StatusesInOrder | custom_components/rainbird_scheduler/executor.py:658-768 | If crashes only hit resumable journals (and recovery does not pause over a running step), steps before the current one are never PENDING, later ones are PENDING, RUNNING occurs only at the current step and only while watering or reconciling, with expected end = actual start + commanded duration |
| ExecutorRuns.FinishedRunsAreSettled | custom_components/rainbird_scheduler/executor.py:1772-1809 | Under the same condition a finished run reports no PENDING or RUNNING step, gives a reason for every step that did not complete, and its outcome is COMPLETED only if every step is |
| ExecutorRuns.CompletedMeansWatered | custom_components/rainbird_scheduler/executor.py:907-992 | In every execution with crashes after any journal write, as long as no user skip hits a step whose recorded end is too early and no recovery relies on such an end, the recorded start and end of every COMPLETED step (in the journal and in every reported run) are its commanded duration less the early-end tolerance apart, or more |
| ExecutorRuns.SkipOfCutStepCompletesFalsely | custom_components/rainbird_scheduler/executor.py:1012-1087 | The condition on skips is exact: from every state, after any crashes, in which the current step has an end that is too early (it was cut short, or started again after it had ended), a user skip, one late report of the zone and the overrun confirmation, each at its own time, the last when it is due and if it reads the zone as off, end with that step COMPLETED but not watered |
| ExecutorRuns.TrustedShortEndCompletesFalsely | custom_components/rainbird_scheduler/executor.py:1589-1612 | The condition on restarts is exact: a recovery that relies on too early an end reports the step COMPLETED at once (its time is long past), or waits out the gap after it and then does so after a late report of the zone and the overrun confirmation that follows |
| ExecutorRuns.StartedAgainIsCutShort | custom_components/rainbird_scheduler/executor.py:1715-1752 | How such an end survives: a recovery that starts an ended step again leaves it RUNNING with its old recorded end |
| ExecutorRecovery.RecoverKeepsWatered | custom_components/rainbird_scheduler/executor.py:1589-1766 | For every stored journal and every read, recovery keeps COMPLETED to mean watered if and only if it does not rely on a recorded end that is too early |
| ExecutorRuns.PauseCutsShort | custom_components/rainbird_scheduler/executor.py:287-316 | Pausing a watering step before its expected end less the tolerance reaches such a state |
| ExecutorRuns.CrashInOverrunCheckWatersAgain | custom_components/rainbird_scheduler/executor.py:1370-1404 | A late echo in the gap writes a RECONCILING journal over an ended step; recovering from that journal with a quiet controller sends that step's start command again |
| ExecutorRuns.ResumeOverEndedStepWatersAgain | custom_components/rainbird_scheduler/executor.py:1574-1578 | Resuming a run whose current step has ended writes a WAITING journal over that step; recovering from it with a quiet controller starts the ended step again |
| ExecutorRuns.CrashAfterFailureWatersAgain | custom_components/rainbird_scheduler/executor.py:1772-1783 | A run given up while reconciling is written once more before it is reset; recovering from that journal starts the failed step again |
| ExecutorRecovery.NonResumableWrites | custom_components/rainbird_scheduler/executor.py:1616-1766 | Of the journals a crash-free executor writes for a run that is not over, exactly those RECONCILING or WAITING over an ended step are not resumable |
| ExecutorRecovery.RecoverNeverWedges | custom_components/rainbird_scheduler/executor.py:485-502 | Whatever journal was stored and whatever the read says (or if it fails), recovery ends idle, paused, or with exactly the callback that its state calls for |
| ExecutorRecovery.RecoverRestoresStatuses | custom_components/rainbird_scheduler/executor.py:1616-1766 | For a resumable journal (current step PENDING or RUNNING, or in the gap, paused or stopping) recovery restores the full crash-free invariant if and only if it does not pause for foreign activity over a running step |
| ExecutorRecovery.RecoverySendsExactly | custom_components/rainbird_scheduler/executor.py:1715-1766 | Recovery sends a start command under exactly the stated conditions on journal, read, blocks and deadline, and for the journaled step |
| ExecutorRecovery.RecoveryStartsPendingIffResumable | custom_components/rainbird_scheduler/executor.py:1715-1766 | Of the journals written while crashes hit resumable journals only and no recovery pauses over a running step, the step that recovery starts is PENDING if and only if the journal is resumable, and it is never RUNNING |
| ExecutorRuns.NeverStartsRunning | custom_components/rainbird_scheduler/executor.py:1616-1766 | In every execution with crashes after any journal write, resumable or not, in which no recovery pauses over a running step, no journal ever written makes recovery start a RUNNING step |
| ExecutorRuns.PauseOverRunningStartsItAgain | custom_components/rainbird_scheduler/executor.py:1648-1653 | Otherwise one can: recovery that pauses for foreign activity over a running step leaves it RUNNING, resuming journals the run as WAITING over it, and a quiet recovery from that journal sends the running step's start again |
| ExecutorRecovery.RecoverKeepsAttended | custom_components/rainbird_scheduler/executor.py:1616-1766 | For every journal so written and every read, recovery keeps a running step one that is watered or reconciled if and only if it does not pause over it |
| ExecutorRuns.RunningIsAttended | custom_components/rainbird_scheduler/executor.py:658-768 | In every such execution a RUNNING current step has a recorded start, and is being watered or is in an overrun or early-end check |
| ExecutorTermination.RunTerminates | custom_components/rainbird_scheduler/executor.py:973-992 | From every state that satisfies the timer invariant, whatever crashes led to it, a run driven only by its own callbacks settles (idle or paused) within 15 times the pending steps plus 17 firings, for every driver answer, every read and every time at which each callback fires, the time it was armed for included |
| ExecutorTermination.EveryRunTerminates | custom_components/rainbird_scheduler/executor.py:535-562 | The same from every state that any execution from the idle start reaches, with crashes after any journal write |
| ExecutorTermination.FireProgress | custom_components/rainbird_scheduler/executor.py:1177-1276 | From every such state, each firing of the armed callback settles the run or strictly uses up fuel: rounds of pending steps, then phase, remaining attempts and overrun confirmations |
| ExecutorOnce.NeverAcceptedTwice | custom_components/rainbird_scheduler/executor.py:693-768 | If only this run drives the controller, successful reads are true, an open start is classified within its commanded duration, what is accepted is accepted before that, and the classifying read succeeds, then no interleaving of uncertain commands and retries of a run without crash, user pause or user skip makes the controller accept one step twice |
| ExecutorOnce.LostStartAcceptsTwice | custom_components/rainbird_scheduler/executor.py:1177-1276 | The last two hypotheses are needed: with every other one met, a command accepted only after the classifying read, or a classifying read that fails, leads to a second acceptance |
| ExecutorOnce.AcceptedAtMostOnceFromStart | custom_components/rainbird_scheduler/executor.py:1154-1276 | The same over every such execution from the idle start |
| ExecutorOnce.ShortTimeoutIsTimely | custom_components/rainbird_scheduler/executor.py:1154-1176 | The timeliness asked for follows when start latency, start-observation timeout, callback lag and read latency together are shorter than the step |
| ExecutorSoak.SoakedStartsWait | custom_components/rainbird_scheduler/executor.py:951-971 | In every execution without pause or skip, with a clock that does not go back and restarts from resumable journals, every start command of a cycle that must soak, those of recovery included, is sent at or after its compiled start, when every earlier step of the run has run to its end; and every start command comes the inter-zone gap after those ends, if all configurations ask for that gap and no zone report is from the future |
| ExecutorSoak.StartsKeepTheGap | custom_components/rainbird_scheduler/executor.py:951-971 | In every such execution from the idle start, restarts included, in which all configurations ask for a gap between zones or a longer one and no zone report is from the future, no start command of a step comes earlier than that gap after the recorded end of any earlier step of the run; each of those has an end and is COMPLETED |
| ExecutorSoak.RecoverHolds | custom_components/rainbird_scheduler/executor.py:1616-1766 | Recovery from any such journal settles or pauses the run, or leaves it waiting for the soak of its next cycle and the gap before it |
| ExecutorSoak.SoakedStartsWaitFromStart | custom_components/rainbird_scheduler/executor.py:951-971 | The same from the idle start |
| ExecutorInvariant.FireRest | custom_components/rainbird_scheduler/executor.py:541-562 | A callback of an older generation changes nothing; one of the current generation is the armed one, and its handler restores the invariant |
| ExecutorRuns.StepRest | custom_components/rainbird_scheduler/executor.py:210-502 | Every entry point, event, callback and recovery keeps the invariant, for each of the four kinds of history |
| ExecutorAnswers.EveryEventIsAnswered | custom_components/rainbird_scheduler/executor.py:210-502 | In every execution from the idle start, crashes after any journal write included, every call, event, callback and recovery is answered as spelled out in the predicates of this module, in terms of the driver commands and reports it adds, the callback it leaves armed, and the results of the steps: a stop is always sent; a pause, skip or freeze of a step that may be on stops the controller first; a second look at an overrunning zone stops it and fails the run; an uncertain start is accepted, tried again after 2, 2, 5, 10 and 20 seconds within its attempts and its time, or given up |
| ExecutorAnswers.StartRunAnswers | custom_components/rainbird_scheduler/executor.py:210-255 | A plan is refused, and nothing changes, while a run is active or while the window remembers its occurrence as finished; otherwise it claims the controller and its first step is next |
| ExecutorAnswers.UncertainAnswers | custom_components/rainbird_scheduler/executor.py:1177-1276 | An uncertain start whose zone is on was accepted when it was intended; a strange zone is a conflict; otherwise it is tried again, five attempts at most and not later than the tolerance after the later of the request and the first planned start, or the run fails |
| ExecutorAnswers.RecoverAnswers | custom_components/rainbird_scheduler/executor.py:1592-1766 | What recovery does with each journal, by the journaled state and results, the clock and one read |
| ExecutorAnswers.StopAnswers | custom_components/rainbird_scheduler/executor.py:618-641 | A stop command is journaled as intended before it is sent, its answer after, and while that is uncertain it is sent again after 5 and after 20 seconds |
| ExecutorCommands.StopAdds | custom_components/rainbird_scheduler/executor.py:256-286 | A user stop sends the stop command in every state, before the run, if there is one, is reported ABORTED_USER with its running step an external stop and its pending steps skipped |
| ExecutorChecks.ChecksMean | custom_components/rainbird_scheduler/executor.py:770-899 | What stands in the way of a start, in observed fields and policies: a positive rain delay that is honoured, a wet sensor where wet skips, a temperature at or below the threshold (or unknown, where that blocks) where freezing skips, and a zone that is on though no earlier step of the run explains it; in that order |
| ExecutorChecks.StartAnswers | custom_components/rainbird_scheduler/executor.py:693-849 | A step that is to be started: if nothing stands in the way and its zone resolves, exactly its start command is sent, journaled before; otherwise each obstacle ends the run, or pauses it, with its own reason |
| ExecutorChecks.EveryStartIsClear | custom_components/rainbird_scheduler/executor.py:770-899 | In every execution, crashes included, a start command is only ever sent for a step that was clear to start by what was last observed and by the results of the run so far, and whose zone resolved |
| ExecutorJournal.EveryStateIsJournaled | custom_components/rainbird_scheduler/executor.py:531-533 | In every execution the journal between two lock holds is one that was written, apart from its last observation: a crash there loses nothing of the run |
| ExecutorJournal.LastWrittenIsCurrent | custom_components/rainbird_scheduler/executor.py:531-533 | Without a restart in between, it is the one that was written last |
| ExecutorFrames.StartStepSends | custom_components/rainbird_scheduler/executor.py:693-768 | Starting a step sends exactly one start command, for that step, if nothing blocks it, and none otherwise; no status returns to PENDING |
| ExecutorFrames.AdvanceSends | custom_components/rainbird_scheduler/executor.py:658-682 | Going on with a run sends at most one start command, for the first pending step |
| Dedup.NewestSurvives | custom_components/rainbird_scheduler/models.py:875-887 | After recording, the occurrence is in the window if and only if it was there, there was room, or some entry is no newer than it |
| Dedup.WindowIsLatest | custom_components/rainbird_scheduler/models.py:875-887 | With a clock that never goes back, and occurrences that finish any number of times, the window holds the last finishes of the 500 occurrences that finished last: every entry is an occurrence's last finish, it is full if it can be, and none it lacks finished later than one it holds |
| Dedup.WindowSlides | custom_components/rainbird_scheduler/models.py:875-887 | If no occurrence finishes twice, the window is the last 500 entries of the history, in order |
| Dedup.FirstOldestGoes | custom_components/rainbird_scheduler/models.py:875-887 | Over the bound exactly one entry goes: of the oldest ones, the first in the order of the dictionary |
| Dedup.AgainKeepsItsPlace | custom_components/rainbird_scheduler/models.py:875-887 | So ties go by place: an occurrence recorded again at the same instant keeps its old place, and goes before all that were recorded in between |
| Dedup.NewestGoesFirst | custom_components/rainbird_scheduler/models.py:875-887 | The new entry is the one deleted exactly when it is strictly older than all others |
| PlannerLayout.QuantizeNearest | custom_components/rainbird_scheduler/planner.py:53-55 | The quantised runtime is a nearest whole minute, ties going away from zero |
| PlannerLayout.CyclesConserveAndBalance | custom_components/rainbird_scheduler/planner.py:58-68 | Cycles sum to the total, lie in 1..maximum, and differ by at most one minute, longer ones first |
| PlannerLayout.CyclesFewest | custom_components/rainbird_scheduler/planner.py:58-68 | No split of the total into cycles within the maximum is shorter |
| PlannerLayout.MinutesConserved | custom_components/rainbird_scheduler/planner.py:467-499 | Per work item, emitted minutes + minutes cut by the window = total; nothing is cut without a window; an item without any step is recorded as skipped |
| PlannerLayout.StepsAreCycles | custom_components/rainbird_scheduler/planner.py:501-522 | Each step is its item's next cycle: never before the request or its own soak, of the allocated length or, once and last, shorter |
| PlannerLayout.NumberedConsistently | custom_components/rainbird_scheduler/planner.py:473-499 | With no zone requested twice at one instant: the steps of a zone are numbered 1..k of k if and only if all its cycles are placed or one of them is cut short; otherwise a cycle met a closed window, the zone is recorded as skipped, and the steps keep the allocated count |
| PlannerLayout.NumberedUnlessGivenUp | custom_components/rainbird_scheduler/planner.py:437-499 | The same by the branch that is taken: the numbering is off if and only if the loop comes by a state in which the zone is next, has had a cycle placed, and finds the window closed or, under truncation, with less than a minute left |
| PlannerLayout.ClosedWindowMisnumbers | custom_components/rainbird_scheduler/planner.py:460-470 | Two cycles of a minute and a window that closes after the first: one step is left, numbered 1 of 2 |
| PlannerLayout.TruncatedIsRenumbered | custom_components/rainbird_scheduler/planner.py:473-499 | Once a step is cut short it is the last of its zone, and every step of the zone, earlier ones too, carries the number of steps there are |
| PlannerLayout.RepeatedRequestMisnumbers | custom_components/rainbird_scheduler/planner.py:492-499 | A zone listed twice at one offset, the second time cut short by the window, ends with a step numbered 2 of 1 |
| PlannerTimeline.WorkIsDistinct | custom_components/rainbird_scheduler/planner.py:283-376 | A program that lists no zone twice at one offset yields work items that request no zone twice at one instant |
| PlannerLayout.GreedyEveryRound | custom_components/rainbird_scheduler/planner.py:437-460 | For every step the loop came by a state in which that step was next: it starts at that state's cursor, its item has the least sort key of the ready ones, and no item with cycles left in that state, whether placed or given up to the window later, was kept waiting or left the controller idle |
| PlannerLayout.NeverIdlesAndLeastFirst | custom_components/rainbird_scheduler/planner.py:437-460 | For every step and every item placed then or later: the controller never idled while the item could start, and the step's sort key is no greater unless the item could not start yet |
| PlannerLayout.StaysInWindow | custom_components/rainbird_scheduler/planner.py:141-160 | Every step starts at a local time inside the window (going round the clock from its start, its end has not been reached); under truncation and an unchanged UTC offset every instant of the step lies inside, midnight-spanning windows included |
| PlannerLayout.WindowIsArc | custom_components/rainbird_scheduler/planner.py:141-147 | The window test by comparisons, with its case for windows past midnight, is that notion of being inside |
| PlannerWindow.CutOnlyByWindow | custom_components/rainbird_scheduler/planner.py:149-160 | Under truncation and an unchanged UTC offset every step ends by the next instant at which the clock shows the window's end, and a step shorter than its allocated cycle ends less than a minute before that instant; without truncation no step is ever shortened |
| PlannerWindow.GivenUpOnlyByWindow | custom_components/rainbird_scheduler/planner.py:460-474 | An item some of whose cycles are not placed, though none of them was cut short, was served at an instant at which the window was closed or, under truncation, closed within the minute |
| PlannerWindow.DroppedOnlyByWindow | custom_components/rainbird_scheduler/planner.py:525-562 | An occurrence is dropped, with all its steps and with one conflict for the zone concerned, if and only if its window defers or asks for intervention and the loop serves an item while the window is closed |
| PlannerWindow.SkipsAreCurtailed | custom_components/rainbird_scheduler/planner.py:474-486 | The zones that the layout records as skipped are exactly those of items not all of whose cycles were placed |
| PlannerLayout.UnwindowedStartsAtOnce | custom_components/rainbird_scheduler/planner.py:437-460 | Without a window the first step starts at the layout's first instant |
| PlannerSpec.RoundProgress | custom_components/rainbird_scheduler/planner.py:437-456 | Each round of the layout loop uses up a cycle, or moves the cursor to where one is ready |
| PlannerSchedule.BlocksInOrder | custom_components/rainbird_scheduler/planner.py:416-425 | Blocks of whole runs, soaks included, are disjoint, gap-separated and in claim order |
| PlannerSchedule.AllServed | custom_components/rainbird_scheduler/planner.py:416-425 | Each claim is served from the end of the last block before it plus the gap; with no window it starts exactly then, or at its earliest request if later |
| PlannerSchedule.SelfCheckExact | custom_components/rainbird_scheduler/planner.py:664-675 | Comparing neighbours accepts a run exactly if all its steps, in order of start, are separated by the gap |
| PlannerSchedule.DetectorSound | custom_components/rainbird_scheduler/planner.py:601-694 | On arbitrary builds (steps ending no earlier than they start) the survivors are pairwise gap-separated within and across runs, others are untouched, and every withheld run has a conflict |
| PlannerSchedule.DetectorExact | custom_components/rainbird_scheduler/planner.py:601-694 | Where steps take time, or there is a gap to keep, the detector refuses nothing if and only if the plan is already serial, and then changes nothing |
| PlannerSchedule.DetectorPasses | custom_components/rainbird_scheduler/planner.py:601-694 | For all steps that do not end before they start, also those of zero length without a gap: the detector refuses nothing, and then changes nothing, if and only if the active runs, in order of their first start, are each in series and each come after the ones before |
| PlannerSchedule.ZeroLengthRefused | custom_components/rainbird_scheduler/planner.py:677-694 | Without a gap, a run of zero length that starts together with another is serial with it, yet refused if it comes second |
| PlannerTimeline.ItemIsFresh | custom_components/rainbird_scheduler/planner.py:283-376 | A zone step becomes a skip with its reason (unknown zone, disabled, below resolution) or an untouched work item, requested at the occurrence's start plus the step's offset, for its quantised runtime capped at 1440 minutes, with the step's own limits on cycle and soak where it has any and the zone's otherwise, and the computed adjustment where there is one and the base runtime to the nearest minute otherwise |
| PlannerTimeline.ZonesInOrder | custom_components/rainbird_scheduler/planner.py:224-247 | The zones of a program are taken by position, and in the order listed where positions are the same |
| PlannerTimeline.ClaimsSorted | custom_components/rainbird_scheduler/planner.py:406-417 | Occurrences are served by earliest request, then priority, then creation, then id |
| PlannerTimeline.ScheduledIsSerial | custom_components/rainbird_scheduler/planner.py:379-425 | For every proper input the scheduled runs form a serial plan |
| PlannerTimeline.RunsAreLayouts | custom_components/rainbird_scheduler/planner.py:379-425 | Each scheduled run is the layout of its own work items under its own window, from the instant the earlier blocks are over; unwindowed it starts exactly there |
| PlannerTimeline.NothingWithheld | custom_components/rainbird_scheduler/planner.py:258-271 | After scheduling and lateness drops the detector withholds nothing, and the final sorts of runs and of steps change nothing |
| PlannerTimeline.TimelineIsSerial | custom_components/rainbird_scheduler/planner.py:187-275 | In the compiled timeline steps follow each other with the gap within a run, and runs never interleave |
| PlannerTimeline.OrderIndependent | custom_components/rainbird_scheduler/planner.py:194-197 | Every permutation of the candidates compiles to the same timeline |
| PlannerTimeline.LatenessDrops | custom_components/rainbird_scheduler/planner.py:565-598 | Exactly the builds of programs that skip missed runs whose every step starts later than the tolerance after some request of theirs are dropped, each with a conflict that says so; the others are left as they are |
| PlannerTimeline.NoSilentLoss | custom_components/rainbird_scheduler/planner.py:187-280 | Every candidate is a run of the timeline or in its conflicts |
| PlannerTimeline.DisabledIsReported | custom_components/rainbird_scheduler/planner.py:194-222 | A candidate has a build if and only if its program exists and is enabled or it was asked for by hand; otherwise a conflict says so and the timeline has no run of it |
| PlannerTimeline.RunsAreBuilds | custom_components/rainbird_scheduler/planner.py:262-281 | The runs of the timeline are those of the builds, with their steps and skips as they are, but for builds dropped before anything was planned or skipped |
| PlannerTimeline.EveryZoneAccounted | custom_components/rainbird_scheduler/planner.py:187-376 | A candidate that may run has one build: if it is dropped, a conflict says so and the timeline waters nothing of it; if not, its run in the timeline waters every zone step at that step's own request or records its zone as skipped |
| SoakEndToEnd.CyclesSoak | custom_components/rainbird_scheduler/planner.py:501-522 | A later cycle of a zone is planned at least the soak after the earlier one ends, and is marked as soaking |
| SoakEndToEnd.FirstStepNotSoaked | custom_components/rainbird_scheduler/planner.py:518 | The layout of an occurrence never begins with a soaking cycle |
| SoakEndToEnd.SoakSurvivesExecution | custom_components/rainbird_scheduler/executor.py:951-971 | In any on-plan execution of compiled runs, restarts included: when a cycle of a work item is commanded, every earlier cycle of it has run (and, where that can be told as in `ExecutorSoak.StartsKeepTheGap`, ended the inter-zone gap before), and the command comes no earlier than that cycle's recorded start + duration + soak − (its recorded start − its compiled start) |
| SoakEndToEnd.ZoneStepSoakSurvives | custom_components/rainbird_scheduler/executor.py:951-971 | The same for the cycles of a zone step, with the program's soak, where the program lists no zone twice at one offset |
| SoakEndToEnd.ZoneStepIsItem | custom_components/rainbird_scheduler/planner.py:283-376 | There the cycles of a zone step in a compiled run are those of one work item, with the soak of that zone step |
| SoakEndToEnd.RunIsOfClaim | custom_components/rainbird_scheduler/planner.py:379-425 | Every run of a compiled timeline that waters is what one claim was laid out as |
| SoakEndToEnd.CompiledCyclesSoak | custom_components/rainbird_scheduler/planner.py:501-522 | In every run of a compiled timeline, two cycles of one work item are planned its soak apart, and the later one is marked as soaking |
| SoakEndToEnd.CompiledBeginsUnsoaked | custom_components/rainbird_scheduler/planner.py:518 | No run of a compiled timeline begins with a soaking cycle |
| Recurrence.NonexistentIsGap | custom_components/rainbird_scheduler/recurrence.py:57-63 | A wall clock time fails the round trip exactly when it lies in a forward gap |
| Recurrence.RepeatedTwice | custom_components/rainbird_scheduler/recurrence.py:57-62 | In a repeated hour both folds show the time, fold 0 before the change and fold 1 after it |
| Recurrence.FirstValidInstant | custom_components/rainbird_scheduler/recurrence.py:66-87 | The loop computes the binary search |
| Recurrence.GapSearchExact | custom_components/rainbird_scheduler/recurrence.py:66-87 | For minute-aligned offsets and change, the search returns the change if and only if the start has no seconds or lies at least a minute into the gap; otherwise it returns the start under the old offset, which is later |
| Recurrence.OvershootExample | custom_components/rainbird_scheduler/recurrence.py:66-87 | 02:00:30 with clocks going from 02:00 to 03:00 resolves to 03:00:30 |
| Recurrence.ResolvesToFirstReached | custom_components/rainbird_scheduler/recurrence.py:89-103 | With the shift policy the result is the first instant whose wall clock is at or past the requested time — normal day, gap and repeated hour — if and only if the start does not overshoot a gap as above |
| Recurrence.PaddingMissesNothing | custom_components/rainbird_scheduler/recurrence.py:157-160 | A clock start that resolves into the window lies on a local date at most one day outside it |
| Recurrence.OccurrencesBetween | custom_components/rainbird_scheduler/recurrence.py:126-237 | The starts are strictly increasing and exactly the wanted resolved starts of the qualifying padded dates, not before the schedule stamp |
| Recurrence.PaddedIsExpansion | custom_components/rainbird_scheduler/recurrence.py:126-237 | For clock starts those are exactly the wanted starts of all qualifying dates whatsoever |
| Recurrence.WindowsSplit | custom_components/rainbird_scheduler/recurrence.py:126-237 | Expanding [a, c) gives the expansion of [a, b) followed by that of [b, c) |
| RecurrenceDays.QualifiesIsNamed | custom_components/rainbird_scheduler/recurrence.py:34-54 | A date qualifies if and only if it lies within the rule's dates and months and is one of the rule's weekdays; odd or even by day of the month; or a whole number of intervals from the anchor on |
| RecurrenceDays.IntervalDaysApart | custom_components/rainbird_scheduler/recurrence.py:49-53 | After a day of an interval rule the next one comes exactly the interval later |
| RecurrenceDays.OddOrEven | custom_components/rainbird_scheduler/recurrence.py:45-48 | Every day is named by exactly one of an odd-day and an even-day rule, and of two consecutive days of a month each takes one |
| RecurrenceDays.ResolvedExactly | custom_components/rainbird_scheduler/recurrence.py:74-103 | For starts that do not overshoot a gap, resolution answers the first instant at which the wall clock reads the time or later and, under the skip policy, only if it ever reads it |
| RecurrenceDays.ExpansionByRule | custom_components/rainbird_scheduler/recurrence.py:126-237 | An expansion holds exactly the starts that fall in the half-open window, not before the schedule stamp, on days that the rule names in its season |
| RecurrenceDays.ExpansionOnTheClock | custom_components/rainbird_scheduler/recurrence.py:126-237 | For clock starts: an expansion holds exactly the first instants, on such days, at which the wall clock reads the time or later |
| RecurrenceDays.OddAndEvenShare | custom_components/rainbird_scheduler/recurrence.py:45-48 | What an odd-day and an even-day program with the same starts hold together is what every day of the season would give |
| Serde.RoundTrip | custom_components/rainbird_scheduler/serde.py:40-65 | For every supported type, reading what was written gives the value back, for every well-typed normalised value at any nesting |
| Serde.LoadIsTyped | custom_components/rainbird_scheduler/serde.py:82-183 | Whatever is read successfully is well typed, at any depth |
| Serde.NullOnlyWhereOptional | custom_components/rainbird_scheduler/serde.py:84-104 | Null is read where the type is optional or Any, and is a value error everywhere else; a well-typed value is None only there |
| Serde.KeyRoundTrip | custom_components/rainbird_scheduler/serde.py:68-71 | Dictionary keys are read back from their text |
| Serde.DumpInjective | custom_components/rainbird_scheduler/serde.py:40-65 | Different values of one type are written differently |
| Serde.ReadingIsStable | custom_components/rainbird_scheduler/serde.py:82-183 | What was read, written and read again is the same |
| Serde.FieldsRoundTrip | custom_components/rainbird_scheduler/serde.py:134-155 | Every field of a written record is found under its name and read back |
| Serde.OtherRecordsRead | custom_components/rainbird_scheduler/serde.py:130-160 | A record that was stored with other fields is read field by field, whatever else was stored with it: a field that was not stored takes its default, and one without a default makes the record unreadable |
| Serde.FieldOfText | custom_components/rainbird_scheduler/serde.py:130-160 | A record sought in a plain text: a field whose name occurs in the text is an error other than a ValueError, and any other takes its default |
| Serde.EntriesWritten | custom_components/rainbird_scheduler/serde.py:55-56 | Typed keys are written to distinct texts, so no entry overwrites another |
| SerdeModels.StoredZoneStep | custom_components/rainbird_scheduler/models.py:412-438 | However it was written, a zone step is read without a zero or negative override, and read back as it is from then on |
| SerdeModels.ZoneStepKeeps | custom_components/rainbird_scheduler/models.py:424-438 | The constructor of a zone step drops a runtime override of zero and a cycle override of zero or less, and changes nothing else |
| SerdeModels.OldZoneStep | custom_components/rainbird_scheduler/models.py:413-422 | A zone step that was stored without them is enabled, at offset 0, and overrides nothing |
| SerdeModels.StoredStartTime | custom_components/rainbird_scheduler/models.py:454-486 | Likewise a start time, also from the plain strings of older stores: a clock time has its time and no offset, a solar one no time and an offset within ten hours |
| SerdeModels.StartTimeAccepted | custom_components/rainbird_scheduler/models.py:462-473 | A start time is accepted exactly with a time for the clock, or an offset within ten hours for the sun; the constructor clears what does not belong to its kind, and no more |
| SerdeModels.ZoneStepWellFormed | custom_components/rainbird_scheduler/models.py:424-438 | The constructor of a zone step yields well-typed values that it leaves alone when given them again |
| SerdeModels.StartTimeWellFormed | custom_components/rainbird_scheduler/models.py:462-486 | So does the constructor of a start time, and the reading of older strings |
| CoordinatorRuns.SettledAtMostOnce | custom_components/rainbird_scheduler/coordinator.py:938-1019 | Over any interleaving of the two halves of launches with retries, expiries, recalculations and finishes in which no launch races, an occurrence the window never forgot is run or recorded as skipped at most once, and never both |
| CoordinatorRuns.CommitOnce | custom_components/rainbird_scheduler/coordinator.py:984-1019 | The second half of a launch keeps every occurrence settled once if and only if it does not record a skip for an occurrence that was settled during its wait |
| CoordinatorRuns.OverlappingLaunchesSettleTwice | custom_components/rainbird_scheduler/coordinator.py:996-1004 | Two overlapping launches of one occurrence can both run it and record it as skipped |
| CoordinatorRuns.RaceNeedsSettlement | custom_components/rainbird_scheduler/coordinator.py:943-1019 | A launch races only if some other step settled its occurrence while it waited for its adjustment |
| CoordinatorRuns.UndisturbedIsRaceFree | custom_components/rainbird_scheduler/coordinator.py:938-1019 | A history in which every second half of a launch has its first half, with no other settlement of the occurrence between the two, has no race |
| CoordinatorRuns.AtomicLaunchesSettleOnce | custom_components/rainbird_scheduler/coordinator.py:938-1019 | Where every launch goes through without a step of another between its halves, an occurrence the window never forgot is settled at most once, whatever else happens |
| CoordinatorRuns.ExpirySettlesOverdue | custom_components/rainbird_scheduler/coordinator.py:831-857 | After an expiry every known run past its deadline was settled before it, or has been skipped by it |
| CoordinatorReasons.ExpiryExactly | custom_components/rainbird_scheduler/coordinator.py:831-857 | An expiry skips exactly the runs with steps, of known occurrences and programs, that are not settled and past the tolerance since their request (where the program skips missed runs) or since their first planned start; it drops their retries and changes nothing else but what the window forgets |
| CoordinatorReasons.ArmsRightly | custom_components/rainbird_scheduler/coordinator.py:859-907 | Arming expires first, and then arms for the first run that waters, is not settled, does not wait for a retry and is not too late, at its first planned start or at once, if and only if there is one and its occurrence is known |
| CoordinatorReasons.LaunchAnswers | custom_components/rainbird_scheduler/coordinator.py:938-1000 | A launch is stale, put off while it is not too late, skipped when it is or when it is blocked for good, or goes on when nothing is in its way; only a skip changes anything |
| CoordinatorReasons.EverySettlementHasReason | custom_components/rainbird_scheduler/coordinator.py:831-1053 | In every history each skip was of an occurrence that was too late, blocked for good, or had nothing left to run, and each run was of one that could be run and was neither running nor remembered as finished |
| CoordinatorRuns.ForgetsWhatDrops | custom_components/rainbird_scheduler/models.py:875-887 | What counts as forgotten is exactly what dropped out of the window on the way |
| CoordinatorRuns.ArmsFirstLaunchable | custom_components/rainbird_scheduler/coordinator.py:859-907 | The launch timer is armed for the first launchable run, at its planned start or at once, unless there is none or its occurrence is unknown |
| Executor.RunExecutor.constructor | custom_components/rainbird_scheduler/executor.py:157-205 | A fresh executor over a journal, nothing armed |
| Executor.RunExecutor.Write | custom_components/rainbird_scheduler/executor.py:531-533 | Hands the journal as it stands to the store |
| Executor.RunExecutor.CancelPendingTimer | custom_components/rainbird_scheduler/executor.py:535-539 | Drops the armed callback and advances the generation |
| Executor.RunExecutor.ArmAt | custom_components/rainbird_scheduler/executor.py:541-557 | Replaces the armed callback; the new one carries the new generation |
| Executor.RunExecutor.ArmIn | custom_components/rainbird_scheduler/executor.py:559-562 | The same, relative to now |
| Executor.RunExecutor.SendStop | custom_components/rainbird_scheduler/executor.py:618-641 | A stop is journaled before it is sent; an uncertain one is retried twice while the run is active |
| Executor.RunExecutor.HandleRetryUncertainStop | custom_components/rainbird_scheduler/executor.py:643-652 | A stop is re-sent only while the last one is still uncertain |
| Executor.RunExecutor.EndStep | custom_components/rainbird_scheduler/executor.py:907-914 | Ends one step, keeping an end already recorded |
| Executor.RunExecutor.SkipRemaining | custom_components/rainbird_scheduler/executor.py:916-924 | Pending steps become SKIPPED, a running one EXTERNAL_STOP; others are kept |
| Executor.RunExecutor.NextPendingIndex | custom_components/rainbird_scheduler/executor.py:684-691 | The first pending step, or none |
| Executor.RunExecutor.FinishRun | custom_components/rainbird_scheduler/executor.py:1772-1809 | Records the occurrence, persists, reports the results, and resets the journal |
| Executor.RunExecutor.PreStepBlock | custom_components/rainbird_scheduler/executor.py:770-849 | Rain delay, wet sensor, freeze and external activity are asked in that order |
| Executor.RunExecutor.StartStep | custom_components/rainbird_scheduler/executor.py:693-768 | A block ends or pauses the run; otherwise the start command is sent |
| Executor.RunExecutor.SendStart | custom_components/rainbird_scheduler/executor.py:693-768 | Rejected fails the run, uncertain reconciles, success waters until the commanded end |
| Executor.RunExecutor.ReconcileUncertainStart | custom_components/rainbird_scheduler/executor.py:1154-1175 | An uncertain start waits for the observation timeout |
| Executor.RunExecutor.Advance | custom_components/rainbird_scheduler/executor.py:658-682 | Starts the first pending step, or finishes with the outcome the statuses deserve |
| Executor.RunExecutor.ArmGapToNextStart | custom_components/rainbird_scheduler/executor.py:951-971 | Waits for the gap, or for the compiled start of a cycle that must soak |
| Executor.RunExecutor.CompleteStep | custom_components/rainbird_scheduler/executor.py:926-949 | Completes the current step and enters the gap |
| Executor.RunExecutor.HandleExpectedEnd | custom_components/rainbird_scheduler/executor.py:973-987 | At the end: still on by fresh evidence means overrun, otherwise complete |
| Executor.RunExecutor.HandleGap | custom_components/rainbird_scheduler/executor.py:989-996 | The gap is over: advance |
| Executor.RunExecutor.EnterOverrunReconcile | custom_components/rainbird_scheduler/executor.py:998-1010 | Start the overrun confirmation |
| Executor.RunExecutor.HandleConfirmOverrun | custom_components/rainbird_scheduler/executor.py:1012-1087 | Off or stale completes; on twice stops the controller and fails the run |
| Executor.RunExecutor.EnterEarlyEndReconcile | custom_components/rainbird_scheduler/executor.py:1093-1105 | Start the early-end confirmation |
| Executor.RunExecutor.HandleConfirmEarlyEnd | custom_components/rainbird_scheduler/executor.py:1107-1134 | On resumes the commanded clock; off classifies the early end |
| Executor.RunExecutor.ResumeWatering | custom_components/rainbird_scheduler/executor.py:1136-1148 | Back to watering until the commanded end |
| Executor.RunExecutor.ClassifyEarlyEnd | custom_components/rainbird_scheduler/executor.py:1406-1491 | Rain cut, power loss or external stop, each with its outcome |
| Executor.RunExecutor.HandleClassifyUncertain | custom_components/rainbird_scheduler/executor.py:1177-1269 | Zone on accepts, foreign zones conflict, otherwise retry or fail |
| Executor.RunExecutor.RetryOrFail | custom_components/rainbird_scheduler/executor.py:1177-1269 | Retries with growing delay up to five attempts and the latest permissible start |
| Executor.RunExecutor.HandleRetryStep | custom_components/rainbird_scheduler/executor.py:1271-1276 | Starts the current step again |
| Executor.RunExecutor.ExternalConflict | custom_components/rainbird_scheduler/executor.py:1493-1538 | Pauses or aborts, as the program says, after ending a running step |
| Executor.RunExecutor.ZoneEventDuringRun | custom_components/rainbird_scheduler/executor.py:1282-1368 | Own zone on or off, or a foreign zone, while starting, watering or reconciling |
| Executor.RunExecutor.ZoneEventDuringGap | custom_components/rainbird_scheduler/executor.py:1370-1404 | A late own echo re-enters the overrun check; a foreign zone conflicts |
| Executor.RunExecutor.ResumeOrExpire | custom_components/rainbird_scheduler/executor.py:1540-1586 | A paused run goes on, or expires by the tolerance that applies |
| Executor.RunExecutor.FreezeCut | custom_components/rainbird_scheduler/executor.py:444-483 | A freeze pauses, aborts or defers the rest, as the program says |
| Executor.RunExecutor.StartRun | custom_components/rainbird_scheduler/executor.py:210-254 | Single flight: busy and duplicate plans are refused, otherwise the plan claims the journal |
| Executor.RunExecutor.Stop | custom_components/rainbird_scheduler/executor.py:256-285 | Stops the controller and ends the run, even if the stop command stays uncertain |
| Executor.RunExecutor.PauseRun | custom_components/rainbird_scheduler/executor.py:287-315 | Stops a running or possibly accepted step and pauses |
| Executor.RunExecutor.ResumeRun | custom_components/rainbird_scheduler/executor.py:317-327 | Resumes only a paused run |
| Executor.RunExecutor.SkipCurrent | custom_components/rainbird_scheduler/executor.py:329-357 | Skips the current step and waits out the gap |
| Executor.RunExecutor.HandleZoneState | custom_components/rainbird_scheduler/executor.py:359-384 | Dispatch of a zone change by state |
| Executor.RunExecutor.HandleSensorState | custom_components/rainbird_scheduler/executor.py:386-397 | A dry sensor resumes a sensor pause |
| Executor.RunExecutor.HandleWeatherState | custom_components/rainbird_scheduler/executor.py:399-422 | A freeze cuts, a cleared freeze resumes |
| Executor.RunExecutor.Fire | custom_components/rainbird_scheduler/executor.py:541-557 | The generation guard, then the handler |
| Executor.RunExecutor.RecoverLocked | custom_components/rainbird_scheduler/executor.py:1616-1766 | Recovery of a journal with a plan, case by case |
| Executor.RunExecutor.Recover | custom_components/rainbird_scheduler/executor.py:485-502 | Reads once if it can, then recovers |
| Executor.ExecutionJournal.RecordOccurrenceFinished | custom_components/rainbird_scheduler/models.py:875-887 | Inserts the finish and deletes the oldest entries beyond 500 |
| Executor.ExecutionJournal.Claim | custom_components/rainbird_scheduler/executor.py:222-237 | The journal of a freshly claimed plan: all steps PENDING |
| Executor.ExecutionJournal.Reset | custom_components/rainbird_scheduler/executor.py:1798-1808 | The journal after a run; finished occurrences and counters stay |
| PlannerCompile.CompileTimeline | custom_components/rainbird_scheduler/planner.py:187-275 | The compiler over objects, end to end, returns exactly the specified timeline |
| PlannerCompile.Prepare | custom_components/rainbird_scheduler/planner.py:189-256 | Builds, work items and conflicts of the candidates |
| PlannerCompile.EnforceLateness | custom_components/rainbird_scheduler/planner.py:565-598 | Drops late builds in place and reports them |
| PlannerCompile.DetectCollisions | custom_components/rainbird_scheduler/planner.py:601-694 | Withholds colliding runs in place and reports them |
| PlannerCompile.SelfCollides | custom_components/rainbird_scheduler/planner.py:664-675 | Neighbouring steps in order of start are compared with the gap |
| PlannerCompile.CrossCheck | custom_components/rainbird_scheduler/planner.py:677-694 | Runs beginning inside the last survivor's block are refused |
| Planner.Schedule | custom_components/rainbird_scheduler/planner.py:416-425 | Claims in order, each from the instant the controller is free |
| Planner.ScheduleOccurrence | custom_components/rainbird_scheduler/planner.py:428-522 | The layout loop over work-item objects leaves exactly the specified layout |
| Planner.LeastReady | custom_components/rainbird_scheduler/planner.py:442-458 | The first of the ready items with the least sort key |
| Planner.NextEligible | custom_components/rainbird_scheduler/planner.py:447-456 | The earliest instant at which a remaining item may start |
| Planner.PlaceNext | custom_components/rainbird_scheduler/planner.py:460-522 | One cycle of the chosen item, cut short, placed or given up as the window says |
| Planner.Truncate | custom_components/rainbird_scheduler/planner.py:473-499 | Shortens the cycle, gives up later ones, and renumbers the steps already emitted |
| Planner.ApplyWindowViolation | custom_components/rainbird_scheduler/planner.py:525-562 | Skips the zone, or drops the whole occurrence with a conflict |
| Planner.OccurrenceBuild.Recount | custom_components/rainbird_scheduler/planner.py:492-499 | Rewrites the cycle count of exactly the zone's steps |
| Planner.WorkItem.TakeCycle | custom_components/rainbird_scheduler/planner.py:501-522 | The step of the next cycle, and the item's new eligibility |
| Coordinator.LaunchDesk.LaunchDeadline | custom_components/rainbird_scheduler/coordinator.py:779-808 | Planned start plus tolerance, or requested start plus tolerance for programs that skip missed runs |
| Coordinator.LaunchDesk.NextPendingRun | custom_components/rainbird_scheduler/coordinator.py:810-829 | The first run that is unsettled, not waiting for a retry and not past its deadline |
| Coordinator.LaunchDesk.ExpireStaleOccurrences | custom_components/rainbird_scheduler/coordinator.py:831-857 | Records a skip for every overdue run, dropping its retry |
| Coordinator.LaunchDesk.ArmNextOccurrence | custom_components/rainbird_scheduler/coordinator.py:859-907 | Expires, then arms or disarms the launch timer |
| Coordinator.LaunchDesk.OccurrenceLaunchDeadline | custom_components/rainbird_scheduler/coordinator.py:916-936 | The deadline of the timeline's run for the occurrence, or requested start plus tolerance |
| Coordinator.LaunchDesk.BeginLaunch | custom_components/rainbird_scheduler/coordinator.py:938-983 | The launch up to its first wait: stale, retried, skipped, or going on |
| Coordinator.LaunchDesk.CommitLaunch | custom_components/rainbird_scheduler/coordinator.py:985-1019 | The launch after its wait: nothing to run, busy, late, duplicate, or started |
| Coordinator.LaunchDesk.ArmLaunchRetry | custom_components/rainbird_scheduler/coordinator.py:1021-1044 | One retry timer for all blocked occurrences, and the normal arming beside it |
| Coordinator.LaunchDesk.RecordOccurrenceSkip | custom_components/rainbird_scheduler/coordinator.py:1046-1064 | A skip enters the window and the history |

## Left out

- Home Assistant plumbing (entities, services, WebSocket, config flow, diagnostics, registries, panel): foreign calls without logic of this kind.
- `driver/ha_entity.py` and `observations.py`: the driver is success, rejection or uncertainty, and observations are arbitrary inputs.
- Adjustment providers and `conditions.py`: the adjusted runtimes and the outcome of the preconditions are inputs.
- Solar starts: sunrise and sunset are an arbitrary function of date and start; the claims about all dates whatsoever are for clock starts.
- Message texts, event payloads, warnings, names, UUIDs, revisions, `updated_at_utc`, refresh requests and logging.
- Order of asynchronous execution inside one lock hold: a transition performs at most one driver start, stop and read, each with its own latency.
- Runs submitted manually, and the waiting of a launch for the executor's lock after its adjustment: the second half of a launch is one atomic step.
- Two occurrences with the same id in one compilation: the planner keeps builds in a dictionary, the model in a list, so ids of candidates are required to be distinct.
- Sub-second times, and decimal rounding beyond the half-up quantisation.
- Enum members that are not strings, tuples inside `Any` data, and `NaN` in the serializer; recursive types are not needed by the models.
- Executor.RunExecutor.PauseRun: reasons given by a user are a separate kind of value, so a user text equal to an internal reason code is not confused with it, as it would be in the source.
- Executor.RunExecutor.EndStep: step results are a sequence by position, where the source has a dictionary by step index with the same keys.
- PlannerCompile.DetectCollisions: collisions are found on a snapshot of the builds and the refused ones withheld afterwards, where the source withholds each at once; the outcome is the same.
- PlannerLayout.MinutesConserved: the minutes cut by the window are kept only by the model; the source records the number of cycles in a text.
- Planner.Schedule: items are grouped by a filter per occurrence, where the source builds a dictionary of lists.
- CoordinatorRuns.SettledAtMostOnce: occurrences that the window of 500 has forgotten may be settled again, as in the source.
- ExecutorRuns.CompletedMeansWatered: speaks of the recorded start and end; that the valve was on in between is not known where recovery completes a watering step by the clock (`executor.py:1669-1675`).
- ExecutorOnce.NeverAcceptedTwice: says nothing of runs with a crash, user pause or user skip, after which the source does command a step again.
- ExecutorSoak.SoakedStartsWait: says nothing of runs with a user pause or skip, after which the source goes on at once by intent (`executor.py:680-682`), nor of restarts from journals that are not resumable.
- ExecutorSoak.StartsKeepTheGap: the same, and it takes zone reports to carry the time at which they arrive or an earlier one, as the source stamps them, and a run not to begin with a soaking cycle, which `SoakEndToEnd.CompiledBeginsUnsoaked` proves of all compiled runs.
- PlannerTimeline.EveryZoneAccounted: a skip record of the source names the zone but not the request, so of a zone listed at two offsets it does not say which listing was skipped.
- SoakEndToEnd.ZoneStepSoakSurvives: for programs that list no zone twice at one offset; `SoakEndToEnd.SoakSurvivesExecution` is the same per work item for all programs.
- PlannerLayout.StepsAreCycles: the count that a step carries is left to `PlannerLayout.NumberedConsistently` and `PlannerLayout.TruncatedIsRenumbered`, which need distinct requests.
- Recurrence.PaddingMissesNothing: assumes that a change of offset moves the clock by at most one day, which the source's padding needs.
- Coordinator.LaunchDesk.CommitLaunch: the executor's acceptance is reduced to its active occurrence; `Executor.RunExecutor.StartRun` models it in full.
- Recurrence.ResolvesToFirstReached: a start that lies in a gap is resolved for offsets and changes on whole minutes, as all present-day zones have; with seconds in them the binary search is not characterised.
