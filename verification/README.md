# Verification of the power management service

A Dafny model of the decisions of the Librescoot power management service, and proofs of
what they guarantee in every run. Five parts are modelled:

- **The clock coordinator** (`clock_*.dfy`). A crash-recoverable protocol that decides when
  chrony's irreversible `makestep` may run. `clock_spec.dfy` gives every critical section as
  a function on memory and disk; `clock_engine.dfy` is the engine as an object whose methods
  are proved to do exactly that, and `clock_host.dfy` drives it through starts, crashes and
  sections as `clock_runs.dfy` says. `clock_runs.dfy`, `clock_fence.dfy`,
  `clock_evidence.dfy` and `clock_history.dfy` prove properties of all runs;
  `clock_decisions.dfy`, `clock_windows.dfy` and `clock_admission.dfy` say exactly when each
  decision falls, on the raw record, reports and clocks, and what it leaves;
  `clock_client.dfy` is the power manager's side of the prepare/resume protocol, with
  arbitrary steps of the coordinator between its requests.
- **The power state machine** (`power_*.dfy`). The ordered transition table, guards with their
  live readings, actions, entry actions and the FIFO event queue. `power_service.dfy` is the
  service as an object whose methods are proved equal to those functions, and
  `power_host.dfy` the loop around it. `power_decisions.dfy` and `power_events.dfy` say on raw
  readings when each condition holds, what every action and entry leaves, and what each
  event does in every state. `power_invariant.dfy` holds the invariant of all
  reachable machines; `power_runs.dfy`, `power_last_ditch.dfy`, `power_stability.dfy`,
  `power_reboot.dfy`, `power_races.dfy` and `power_progress.dfy` hold the theorems about
  runs.
- **The two together** (`suspend_safety.dfy`, `joint_host.dfy`). One time line for both
  machines: a suspend's own Prepare, its answer and the call of logind are points of the
  coordinator's run. `joint_host.dfy` runs the two objects side by side, with any steps of the
  coordinator in between, and derives that time line from the admission sequence.
- **The hibernation scheduler and its clock guard** (`scheduler*.dfy`, `schedule_search.dfy`,
  `wall_clock.dfy`), with the program's two-clock time values and with every other section
  allowed to run where the program has let go of its lock. `scheduler_host.dfy` drives the
  objects as `scheduler_runs.dfy` says, and `scheduler_decisions.dfy` says exactly what each
  section does and what armed every target.
- **The inhibitor mirror** (`inhibitors.dfy`), a list that must agree with a Redis hash.

`dafny verify dfyconfig.toml` checks everything.

## What is assumed

- librefsm: rows are tried in declaration order, an event that matches no row is dropped, a
  self-transition enters its state again, queued events are taken first in, first out, and a
  state's timeout does not act once that visit to the state is over. Where a wake or a late
  block lands is not assumed but proved.
- Go's `time.Time`: a value read from the clock carries a monotonic reading, adding to it
  keeps that reading, and two values that both carry one are compared by it alone. The
  saturation of very large differences (292 years) is not modelled.
- cron: `Next` returns the least activation after its argument, and activations are at least
  a minute apart.
- A cron expression that the program accepts has occurrences at least 15 minutes apart (it
  looks at a thousand of them).
- Boot time is positive (0 is the coordinator's mark for "no loss-detecting resume") and
  under 146 years, and does not go back from one resume to the next. Tracking ages are not
  negative and at most two hours, as the adapter sees to. A failed save leaves the file old or new. It is always the
  last effect of its section, so a crash point is a failed save followed by a restart.
- Residuals, uncertainties and skews are reals. `int64` bounds are kept where the program
  guards against overflow, `uint32` where it converts seconds.
- Redis, D-Bus, chrony, the nRF, the clocks and random ids answer arbitrarily: each answer is
  a parameter. Every evaluation of a guard gets a reading of its own.

## Where the code and its documentation differ

The model follows the code. Each of these is a lemma below.

- The fence a successful Prepare raises is only kept with one Prepare outstanding: when an
  older one times out it clears the newer one's flag (`OverlappingPreparesBreakFence`).
- The coordinator keeps counting the age of evidence it has withdrawn, and the client refuses
  any answer older than 30 s, so suspend is refused while a selected source has not been
  observed for that long (`RecoveryNeedsYoungStatus`).
- "Deferred hibernation keeps its original wake-by deadline" holds for targets found by
  catching up. A deferred cron tick keeps a monotonic reading, so its wall-clock deadline
  moves with every step of the wall clock (`WallDeadline`, `DeferredTickMissesStep`).
- The 15 minute cooldown can be undercut without any clock step: a catch-up decided before a
  tick and dispatched after it puts the older time over the newer
  (`StaleCatchUpShortensCooldown`). Exactly when that can happen is `CooldownCanFail`; an
  accepted tick always keeps its 15 minutes to the time recorded last, and to an earlier
  tick if nothing decided before that tick was recorded after it (`TicksKeepTheirDistance`).
- The drop of past targets that follows the first time sync never finds one
  (`NothingIsPendingBeforeSync`).
- A comment in the transition table has explicit hibernation taking over while
  issuing-low-power is busy. The user's commands arrive as another event, which that state has
  no row for, and are dropped (`ExplicitCommandsAreDroppedWhileIssuing`).
- When logind refuses a power-off the machine stays in issuing-low-power, where vehicle
  reports no longer count (`RefusalIsLeftByCommandsOnly`).
- A vehicle report that starts a low-power sequence keeps its target with one exception: a
  reboot pending while the vehicle goes from stand-by to shutting-down starts the default
  target instead (`NaturalEntryKeepsTarget`). It needs a default state of reboot, and then a
  racing change of it (`RebootsWaitOutsideStandby`, `RebootTurnsIntoSuspend`). Only in such
  runs can a sequence hold run, for which issuing-low-power has no command.
- A change of the default target replaces the target of an explicit request still waiting for
  the vehicle and leaves the request open, exactly if the two differ
  (`RequestsPinTheirTarget`). A timed hibernation then powers off with no wake timer
  (`TimedRequestLosesItsTimer`).
- The priority order is not transitive through `run` (`ReplacementChains`).
- An inhibitor under the empty hash key is added again at every synchronisation
  (`SyncMirrors`, `SecondSyncIsQuiet`).

## Model

| member | source | states |
|---|---|---|
| ClockRuns.StepBudget | internal/clockcontrol/engine.go:386-467 | In one boot, however steps, failed saves, crashes and restarts interleave: at most 3 makesteps plus one per resume that measured a loss over 2 s, at most twice as many StartStep calls, and never one while an earlier one is in flight or unresolved |
| ClockFence.BudgetIsTight | internal/clockcontrol/engine.go:386-403 | The bound of three is attained: a concrete run without loss starts three makesteps |
| ClockHistory.TrustRestsOnLaterEvidence | internal/clockcontrol/engine.go:183-207 | In every run, established trust in memory and on disk rests on an NTP observation made more than 5 s after the last resume acknowledged with a loss, or on a GPS sample received after it, across restarts and for submissions whose tracking read began before that resume |
| ClockRuns.MetadataIsNeverOlder | internal/clockcontrol/engine.go:251-271 | At every crash point a source's persisted metadata is absent or that of the last datagram handed to the refclock, survives the reload filter, and agrees with memory; the generation clients have seen never decreases |
| ClockRuns.RunIsSound | internal/clockcontrol/engine.go:97-136 | The inductive invariant behind the theorems on runs holds after every step, in memory and on disk |
| ClockFence.NoMakestepInsideFence | internal/clockcontrol/engine.go:481-536 | With at most one Prepare outstanding no makestep starts between a successful Prepare and the next Abort or Resume, even across restarts |
| ClockFence.FenceIsKept | internal/clockcontrol/engine.go:425-467 | From a fenced state every further step keeps the fence, its persisted baseline and a resolved outcome |
| ClockFence.OverlappingPreparesBreakFence | internal/clockcontrol/engine.go:495-506 | A concrete run with two Prepares outstanding starts a makestep inside the fence |
| ClockFence.PreparedUntilLifted | internal/clockcontrol/engine.go:481-536 | From a successful Prepare on, through any steps but an Abort or a Resume under its identity: baseline and generation are held in memory and on disk, across crashes, no command is unresolved and no makestep starts |
| ClockFence.ResumeMeasuresSinceBaseline | internal/clockcontrol/engine.go:550-596 | A resume inside the fence measures loss from the successful Prepare's baseline through any restarts, opens an episode and revokes trust exactly if boot time gained more than 2 s, and drops every sample |
| ClockEvidence.AcceptedSampleIsFresh | internal/clockcontrol/engine.go:228-243 | For all int64 requests: an accepted sample is at most 30 s old in boot time when handed on, and no sum overflows |
| ClockEvidence.MakestepRestsOnFreshEvidence | internal/clockcontrol/engine.go:404-433 | The report and the sample behind a started makestep are at most 30 s old in boot time at the last check before the start |
| ClockEvidence.ObservationIsNoNewer | internal/clockcontrol/engine.go:328-356 | An observation's age counts back exactly to the older of the report and the sample behind it |
| ClockHistory.QualityIsObserved | internal/clockcontrol/engine.go:288-378 | In every run, a known quality the engine keeps was observed by one of its refreshes, and its age counts back exactly to when that report, or the older sample behind it, was made |
| ClockHistory.PublishedQualityIsFresh | internal/clockcontrol/engine.go:138-149 | In every run, a kept source is published exactly while the observation it came from is at most 30 s old, with exactly that observation's age in boot time |
| ClockHistory.PublishedAgeFits | internal/clockcontrol/engine.go:138-149 | In every run, published ages are not negative and stay within 64 bits |
| ClockEvidence.RefreshQuality | internal/clockcontrol/engine.go:288-378 | After a refresh the kept quality is unknown, unchanged, or exactly what one observation said at its boot time |
| ClockEvidence.MovementProvesCorrection | internal/clockcontrol/engine.go:310-323 | If wall and boot time drift less than 0.9 s apart from a correction, the wall/boot test passes only if the dispatched correction was applied and the sample is the dispatched one |
| ClockEvidence.CorrectionIsRecognised | internal/clockcontrol/engine.go:307-323 | With chrony silent and the wall clock moved by the dispatched correction, a refresh declares the command reconciled, in memory and on disk, exactly while the dispatched sample is current and its evidence at most 30 s old; otherwise it stays unresolved |
| ClockEvidence.ReconciledOnlyOnEvidence | internal/clockcontrol/engine.go:310-378 | An unresolved command is declared reconciled only 10 s after its dispatch, and only if the wall clock moved by the dispatched correction to 0.1 s with the dispatched sample still current and at most 30 s old, or if a report and the sample behind it, made less than 5 s ago, leave less than 0.1 s with an uncertainty under 5 s; all in terms of the raw clock, report and samples |
| ClockEvidence.NrfConfirmationAfterLoss | internal/clockcontrol/engine.go:183-207 | An NTP report read for an NRF submission re-establishes trust exactly if it was made later than R + 5 s and is young and small enough, measured across the whole submission |
| ClockDecisions.MakestepStartsExactly | internal/clockcontrol/engine.go:288-440 | Exactly when a refresh asks for a makestep and starts one, on the raw record, report, samples and clocks: source, trust, outcome, window or late episode, age, uncertainty, residual of 1 s, and the last look at the clock |
| ClockDecisions.RefreshFollows | internal/clockcontrol/engine.go:386-440 | The same condition is necessary whatever becomes of the saves; an admitted makestep is recorded with its time, wall clock, residual, source and sample, expires if evidence or deadline fail the last look, and a refused start is tried once more |
| ClockDecisions.WeakSourcesNeedNoTrust | internal/clockcontrol/engine.go:405 | An NRF or holdover report never has a makestep asked for beside established external trust |
| ClockDecisions.RefreshLeaves | internal/clockcontrol/engine.go:366-404 | The window and the quality a refresh leaves: a late episode opens exactly when due, nothing else moves deadline, episode or late flags, and no quality is answered while the outcome is unknown or a makestep admitted |
| ClockDecisions.UnsavedEpisodeIsTakenBack | internal/clockcontrol/engine.go:386-404 | Whatever becomes of its saves, a refresh leaves the window it found or that of a late episode that was due and has been saved |
| ClockDecisions.TrustIsGainedExactly | internal/clockcontrol/engine.go:328-365 | Exactly when a refresh establishes external trust, in memory and on disk, and otherwise trust and samples stay |
| ClockDecisions.ReconciledExactly | internal/clockcontrol/engine.go:307-378 | Exactly when a refresh finds an unknown outcome reconciled, by the wall clock's movement or by what it sees |
| ClockDecisions.CorrectionIsFound | internal/clockcontrol/engine.go:307-324 | There and back: a makestep started by one refresh whose command ended unknown is recognised by a later one, from what the first recorded, if the wall clock has moved by the residual |
| ClockAdmission.SubmissionExactly | internal/clockcontrol/engine.go:163-271 | Exactly when a submission is accepted, exactly when and what is handed to the refclock (the sample and the offset to its time moved on to the wall clock read), exactly when its tracking read establishes trust instead, and that nothing else changes |
| ClockAdmission.AdmitsExactly | internal/clockcontrol/engine.go:208-250 | The admission tests on request, record and clocks: an NRF sample only advances the clock, a GPS sample agrees with good NTP within the uncertainties, at most 30 s old, at most a century off |
| ClockWindows.NrfIsEligibleExactly | internal/clockcontrol/engine.go:138-161 | Exactly when the coordinator answers that an NRF may set the clock |
| ClockWindows.StartsExactly | internal/clockcontrol/engine.go:97-136 | Exactly when an engine comes up and with what: a first window of 90 s in a new boot, the record found in the same boot with a command in flight turned unknown, and the metadata within its limits |
| ClockWindows.PrepareSucceedsExactly | internal/clockcontrol/engine.go:481-535 | Exactly when each phase of a Prepare succeeds |
| ClockWindows.PrepareLeavesExactly | internal/clockcontrol/engine.go:481-549 | What each phase of a Prepare, its timeout and an Abort leave when they succeed and when outcome, clock or save fail them |
| ClockWindows.AbortUndoesPrepare | internal/clockcontrol/engine.go:481-549 | An idle engine can always be prepared, and an aborted preparation leaves the record as it was but for the baseline |
| ClockWindows.ResumeExactly | internal/clockcontrol/engine.go:550-596 | Exactly when a resume is acknowledged and what it leaves in memory and on disk: after a loss over 2 s the resume window, unspent, until 90 s later, trust revoked and the late flags kept; otherwise budget and trust unchanged |
| ClockWindows.LossIsRecoverable | internal/clockcontrol/engine.go:550-596 | Prepare, lossy sleep and resume end to end: until 90 s after the resume, and no longer, an NRF is answered eligible, and an NTP report of 1 s or more made since starts a makestep |
| ClockWindows.TrustRulesOutRecovery | internal/clockcontrol/engine.go:386-405 | In every run, once trust is in memory and on disk and until a resume measures the next loss, across crashes: no makestep on an NRF or holdover report, and no NRF eligible |
| ClockEngine.Engine.Start | internal/clockcontrol/engine.go:97-136 | A restart resets another boot's record, turns an in-flight command into an unknown one, and hands out an engine only with its record saved |
| ClockEngine.Engine.Submit | internal/clockcontrol/engine.go:163-271 | Submission with its trust shortcut, admission tests, and invalidate, deliver, record order, for every failure of every save |
| ClockEngine.Engine.Refresh | internal/clockcontrol/engine.go:288-467 | One refresh: reconciliation, quality, trust, late episodes and dispatch, with roll-back on failed saves |
| ClockEngine.Engine.CommandDone | internal/clockcontrol/engine.go:446-466 | The end of a command resolves the outcome, or leaves it unknown if that cannot be saved |
| ClockEngine.Engine.PrepareStart | internal/clockcontrol/engine.go:481-493 | First phase: raises the flag without a baseline |
| ClockEngine.Engine.PrepareTimeout | internal/clockcontrol/engine.go:498-505 | A wait that runs out clears the flag, whoever raised it |
| ClockEngine.Engine.PrepareFinish | internal/clockcontrol/engine.go:508-535 | Second phase: succeeds only with a resolved outcome and a saved baseline |
| ClockEngine.Engine.Abort | internal/clockcontrol/engine.go:537-549 | Clears the flag, or keeps it if that cannot be saved |
| ClockEngine.Engine.Resume | internal/clockcontrol/engine.go:550-596 | Ends a preparation under a new generation and detects loss, all or nothing in memory |
| ClockHost.Coordinator.Do | internal/clockcontrol/engine.go:63-596 | The record on disk, the running engine object and each start, crash, section and end of a command follow the steps the run theorems speak of |
| ClockHost.Coordinator.DoAll | internal/clockcontrol/engine.go:63-596 | Any number of such steps is a run |
| ClockClient.TrustedQualityIsFresh | internal/service/clock_coordinator.go:59-76 | In every run, a quality the power manager trusts is what one refresh observed of GPS or NTP: report and sample were made at most 30 s of boot time before the exchange finished, residual and uncertainty of the report together at most 5 s, with no command unresolved and nothing prepared when it was served |
| ClockClient.QualityIsTrustedExactly | internal/service/clock_coordinator.go:59-76 | Exactly when the power manager trusts an answer, on the engine's record and the clocks of the exchange |
| ClockClient.RunsReach | internal/service/clock_coordinator.go:59-72 | Every run keeps the invariant and the bounds under which the client's 64-bit age arithmetic cannot overflow |
| ClockClient.RecoverClockPreparation | internal/service/clock_coordinator.go:92-110 | With arbitrary coordinator steps between status and resume: recovery succeeds exactly if nothing was prepared, or the resume under the answered identity is accepted by what the coordinator has become; nothing is prepared then |
| ClockClient.RecoveryNeedsYoungStatus | internal/service/clock_coordinator.go:59-72 | A status, and so recovery, is accepted exactly if the answered age plus round trip is at most 30 s; withdrawn evidence observed longer ago makes it fail |
| ClockClient.Prepare | internal/clockcontrol/engine.go:481-536 | One Prepare request with any steps while it waits: success means the second phase of the protocol succeeded at a step of this run |
| ClockClient.AdmitSuspend | internal/service/service.go:1367-1384 | With arbitrary coordinator steps, crashes and other clients' requests between its requests, a token is handed out only for a Prepare that succeeded in this run and an answer that still said prepared |
| ClockClient.TokenHoldsTheFence | internal/service/service.go:1367-1391 | From the Prepare a token answers on, until somebody sends an Abort or resumes its identity: baseline held in memory and on disk, no command unresolved, no makestep started, and a resume with the token accepted, through refreshes, failed saves, crashes and restarts |
| SuspendSafety.SuspendsAreFenced | internal/service/service.go:1365-1391 | For every suspend ever handed to logind, with both machines on one time line: the turn that issued it made a successful Prepare of its own and was answered prepared before the call; at the moment of the call, and from the answer until somebody sends an Abort or resumes that identity, the baseline of that Prepare is held in memory and on disk, no command is unresolved and no makestep has started since it |
| SuspendSafety.SuspendsPrepareAnew | internal/service/service.go:1367-1391 | No Prepare serves two suspends: each one's is made after the logind call of the one before |
| SuspendSafety.SleepIsMeasured | internal/clockcontrol/engine.go:550-596 | A resume with an admission's token is accepted and finds a loss exactly if boot time gained more than 2 s on UTC since the Prepare of that very suspend, however often the coordinator restarted |
| JointHost.AskingDecides | internal/service/service.go:1339-1391 | A turn that comes to the point of suspending issues exactly one suspend under whatever admission it gets and no command without one; any other turn does not depend on admission |
| JointHost.Joint.Turn | internal/service/service.go:1357-1411 | Asks the coordinator only where the turn comes to suspending, calls logind exactly if admitted and under that admission, hands the token back by resume or abort, and keeps both runs on one time line, with any coordinator steps between |
| JointHost.Joint.SuspendsAreHeld | internal/service/service.go:1367-1391 | Of these objects, after any use: every suspend they handed to logind was backed by a Prepare of its own turn and held when logind was called, unless that Prepare was lifted in between |
| PowerPolicy.LatchRemembers | internal/service/service.go:641-652 | The aux latch is set exactly if a known reading fell below the enter threshold and none since reached the exit threshold, or it was set before and none did |
| PowerPolicy.PriorityIsByRank | internal/service/service.go:1664-1691 | The case table is a total preorder by rank below run; run is always admitted and always replaceable |
| PowerPolicy.ReplacementChains | internal/service/service.go:1659-1691 | A chain of two admitted commands lowers the priority exactly when it goes through run |
| PowerTable.Choose | internal/fsm/definition.go:18-47 | The first enabled row in declaration order, none only if no row is enabled |
| PowerEvents.TableByEvent | internal/fsm/definition.go:18-520 | The whole table by event: with readings that agree during a turn, where each event leads from every state, by what action, and when it is dropped, all on raw readings |
| PowerDecisions.MayEnterExactly | internal/service/service.go:1563-1627 | Which targets may be entered from which vehicle state; a suspend only with both slots read or last known empty and inactive and nobody online who counts |
| PowerDecisions.CancelsExactly | internal/service/service.go:1494-1552 | Exactly when a sequence under way is called off: automatic hibernation when the reserves no longer run out, a suspend when it is no longer clear in stand-by, nothing else |
| PowerDecisions.LastDitchExactly | internal/service/service.go:652-720 | The last-ditch condition on the charges, presence, voltages and latch of both slots and both reserves, with the fresh readings folded in |
| PowerDecisions.ExplicitExactly | internal/service/hibernate_request.go:38-62 | Where a user's hibernation is taken: stand-by, or parked unless something but the modem blocks it |
| PowerDecisions.EntryIssuesExactly | internal/service/service.go:1234-1427 | A whole visit to issuing-low-power: exactly when it hands logind its one command, and otherwise which event it sends and what it leaves, the modem, the wake reason and the batteries re-read on wake included |
| PowerDecisions.WaitExactly | internal/service/service.go:1213-1232 | What entering the wait for inhibitors sends, and exactly when it tells the modem to stop |
| PowerDecisions.OtherEntriesExactly | internal/service/service.go:1180-1211 | Entering any other state does nothing, but that the countdown to a timed hibernation asks for its wake timer anew |
| PowerDecisions.CommandLeavesExactly | internal/service/service.go:1827-1872 | What a command leaves: taken, turned away or not passed on; target, duration, request, provenance and modem |
| PowerDecisions.ReportLeavesExactly | internal/service/service.go:1728-1776 | What a vehicle report leaves: exactly when an open request outlives it, when target and provenance go back to the default, and the modem |
| PowerDecisions.LeavingLeavesExactly | internal/service/service.go:1780-1802 | What leaving stand-by leaves |
| PowerDecisions.BatteryLeavesExactly | internal/service/service.go:1805-1824 | A battery report sets its own slot, and brings the modem back under a suspend with an active pack |
| PowerDecisions.DitchLeavesExactly | internal/service/service.go:881-907 | What last-ditch hibernation takes over and remembers |
| PowerDecisions.DitchCancelLeavesExactly | internal/service/service.go:1878-1900 | What calling it off gives back, and the vehicle report it sends |
| PowerDecisions.DefaultLeavesExactly | internal/service/service.go:1926-1939 | What a new default state leaves |
| PowerDecisions.FailureLeavesExactly | internal/service/hibernate_request.go:145-156 | A failed preparation ends the request it names and no other |
| PowerDecisions.ActionsExactly | internal/fsm/definition.go:18-520 | Which of these each action of the table does, on which event |
| PowerDecisions.CancellingActionsExactly | internal/service/service.go:1554-1561 | The same for taking over, calling off and the modem |
| PowerInvariant.TableShape | internal/fsm/definition.go:24-520 | What every row of the table does: its target state, guards and admissible events by action |
| PowerInvariant.ActionFits | internal/service/service.go:1709-1940 | From any sound machine every row's action leaves targets that fit the new state, confined provenance and a valid latch, whatever the environment answers |
| PowerInvariant.EntryFits | internal/service/service.go:1189-1411 | Every entry action settles the visit: awaiting exactly the event it sent, or committed with a safe command |
| PowerInvariant.EntryKeepsIntent | internal/service/service.go:1189-1411 | Entry actions never change target or provenance and can only end a request |
| PowerRuns.RunIsSound | internal/fsm/definition.go:18-520 | Every machine reached by any interleaving of turns, arrivals and setting changes is sound |
| PowerRuns.CommandsAreSafe | internal/service/service.go:1286-1421 | In every run, on the readings each command rested on: no inhibitor of a kind that blocks its target, and never target run; a suspend only admitted, with the vehicle read in stand-by twice after the nRF knew, for each slot no pack and none active by the read or, where it failed, the last known value, and nothing connected that is to keep the vehicle awake; hibernate-for only with a duration of at least 1 s that the latched acknowledgement echoed; automatic hibernation only while the reserves have run out |
| PowerRuns.ProvenanceIsConfined | internal/service/service.go:899-907 | Pre-suspend and suspend-imminent hold only suspend; provenance is set only with hibernate in the hibernate path's states or with run in running; suspended is never entered |
| PowerRuns.WakesReachTheirVisit | internal/fsm/definition.go:489-527 | A wake taken in issuing-low-power is that of the very visit that slept, with target suspend |
| PowerRuns.NeverStranded | internal/fsm/definition.go:434-527 | An event sent on abort or wake is queued, and taking the queue through it leaves issuing-low-power, whatever stands before it and arrives meanwhile |
| PowerRuns.RefusalIsLeftByCommandsOnly | internal/service/service.go:1419-1422 | After a refused power-off, or with a target that has no command, only run, automatic hibernate, manual and scheduled events end the visit, and under automatic provenance those that can call it off; run does end it |
| PowerRuns.ExplicitCommandsAreDroppedWhileIssuing | internal/fsm/definition.go:439-464 | An explicit hibernation taken in issuing-low-power is dropped |
| PowerRuns.NaturalEntryKeepsTarget | internal/service/service.go:1728-1776 | A vehicle report that starts a low-power sequence keeps the target, except exactly for a reboot pending while stand-by turns to shutting-down |
| PowerReboot.RebootsWaitOutsideStandby | internal/fsm/definition.go:126-133 | In every run without a default state of reboot: running never holds a reboot in stand-by, so that exception does not arise; no low-power sequence holds run; and issuing-low-power always has a command |
| PowerRaces.RebootTurnsIntoSuspend | internal/service/service.go:2150-2187 | A run from the start in which that exception does arise: the default state set to reboot and back while the vehicle starts to shut down |
| PowerLastDitch.CancellationRestores | internal/service/service.go:1878-1915 | Between trigger and cancellation, whatever else happens while provenance stays set: the cancellation passes through running, ends provenance, queues the vehicle state and restores the last default-state update taken meanwhile, or the target replaced |
| PowerLastDitch.FallbackFollows | internal/service/service.go:1905-1915 | While provenance stays set only default-state updates move the fallback |
| PowerLastDitch.OnlyRefusalKeepsProvenance | internal/service/service.go:1827-1838 | A command ends provenance unless it is an explicit hibernation refused in its action; the target is then run |
| PowerStability.HibernationIsNotDisturbed | internal/fsm/definition.go:307-477 | A requested hibernate, hibernate-manual or hibernate-timer under way keeps its target and never returns to running under battery, eligibility, inhibitor, last-ditch, default-state, timeout and stale events and commands of lower rank |
| PowerStability.RequestsPinTheirTarget | internal/service/service.go:1926-1939 | A turn keeps an explicit request with the target and duration it asked for or ends it, except exactly for a default-state update, taken in running while the request is open, to another target |
| PowerStability.RequestsStayPinned | internal/service/service.go:1926-1939 | In every run without such a turn an open request holds the target and duration it asked for |
| PowerRaces.RequestIsReplaced | internal/service/service.go:1926-1939 | A run from the start that separates a timed request from its target and duration: one change of the default state, with both events its handler sends |
| PowerRaces.TimedRequestLosesItsTimer | internal/service/service.go:1926-1939 | The same run continued: the machine powers off under that request with no wake timer armed |
| PowerProgress.TimedHibernationCompletes | internal/fsm/definition.go:106-109 | A scheduled hibernation in stand-by, with no blocking inhibitor, an echoed timer and a willing logind, powers off in three turns with exactly one command, carrying the duration it was given, whatever is queued behind |
| PowerProgress.TimedRequestCompletes | internal/service/service.go:1827-1872 | So does a user's request in stand-by, in four turns and under the request's own id |
| PowerProgress.SuspendSleeps | internal/service/service.go:1286-1411 | With clear readings throughout, an admitted suspend is handed to logind exactly once and its wake queued behind whatever has arrived |
| PowerProgress.WakeStartsOver | internal/fsm/definition.go:502-506 | A wake of a vehicle still eligible starts over with the suspend delay and unchanged data |
| PowerProgress.WakeTurnsToHibernation | internal/fsm/definition.go:489-496 | A wake with a low reserve goes to automatic hibernation that remembers the suspend |
| PowerProgress.LastDitchComesAndGoes | internal/service/service.go:881-907 | A low reserve in stand-by takes over from run or suspend; disabling it gives that target back |
| PowerHost.StateMachine.TakeTurn | internal/fsm/definition.go:18-520 | The loop around the service object (queue, rows in order, action, entry) follows the turns the run theorems speak of |
| PowerHost.StateMachine.Run | internal/service/service.go:1286-1421 | Any run of these objects is a run of the machine, and from the start every command they have handed to logind is safe |
| PowerService.Service.RunPowerCommand | internal/service/service.go:1827-1872 | The command action, with refusal, failed preparation and the vehicle event of stand-by |
| PowerService.Service.PrepareExplicitHibernate | internal/service/hibernate_request.go:105-132 | Records the request id and succeeds exactly if published and, from parked, handed to the vehicle service |
| PowerService.Service.TakeVehicleReport | internal/service/service.go:1728-1776 | Interrupted shutdowns end the request with target run; leaving stand-by or riding off resets to the default |
| PowerService.Service.LeaveLowPower | internal/service/service.go:1780-1802 | Leaving stand-by ends request and provenance and resets to the default |
| PowerService.Service.TakeBatteryReport | internal/service/service.go:1805-1824 | Per-slot battery state, and the modem back on when a suspend is called off by it |
| PowerService.Service.CancelLastDitch | internal/service/service.go:1878-1900 | Restores the fallback or the default and queues the live vehicle state |
| PowerService.Service.CancelLowPower | internal/service/service.go:1554-1561 | Cancels by provenance, or gives the modem back |
| PowerService.Service.BeginAutomaticLastDitch | internal/service/service.go:899-907 | Records what is replaced once, and resets duration and latch |
| PowerService.Service.FailPreparation | internal/service/hibernate_request.go:145-156 | Only the current request's failure counts; it ends in run |
| PowerService.Service.WaitForWakeTimer | internal/service/hibernate_request.go:16-36 | True exactly if some echo before the deadline is positive and equals the requested duration |
| PowerService.Service.CancelIneligible | internal/service/service.go:1539-1552 | Sends the cancellation event of the provenance exactly if eligibility is lost |
| PowerService.Service.EnterWaiting | internal/service/service.go:1213-1232 | Cancel, proceed, switch the modem off, or wait |
| PowerService.Service.CommitSuspend | internal/service/service.go:1309-1411 | The suspend path from announcement to wake, each abort with its event and its modem |
| PowerService.Service.EnterIssuing | internal/service/service.go:1234-1427 | Issuing-low-power: what is sent, what is handed to logind and where the visit stands |
| ScheduleSearch.PreviousOccurrence | internal/hibernation/scheduler.go:577-591 | Returns the greatest activation in (now - lookback - 1 s, now], none exactly if there is none, and never exhausts its fuel for windows up to the one used and far beyond |
| SchedulerSpec.PendingSecondsFit | internal/hibernation/scheduler.go:600-615 | Zero exactly for a passed target; otherwise within the cap and less than 1 s after the target, and less than 1 s before it unless the cap binds |
| SchedulerSpec.ImmediateSecondsFit | internal/hibernation/scheduler.go:356-368 | The same for the duration of an immediate dispatch |
| SchedulerSpec.WallDeadline | internal/hibernation/scheduler.go:355-375 | The wall-clock wake time is the target within 1 s, plus, for a target with a monotonic reading, exactly the wall clock's drift since it was armed |
| SchedulerSpec.DeferredTickMissesStep | internal/hibernation/scheduler.go:355-375 | A deferred cron tick overshoots its wall-clock wake-by time by any forward step of 2 s or more |
| SchedulerSpec.JumpIsOffsetChange | internal/hibernation/scheduler.go:407-416 | The jump the monitor acts on is the change of the wall clock's offset to the monotonic clock |
| SchedulerRuns.RunIsSound | internal/hibernation/scheduler.go:222-575 | The invariant behind the scheduler's theorems holds in every interleaving of sections and unlocked dispatches |
| SchedulerRuns.TargetsAreDispatchedOnce | internal/hibernation/scheduler.go:270-315 | No armed target is dispatched twice, in any interleaving |
| SchedulerRuns.DispatchesAreGated | internal/hibernation/scheduler.go:318-340 | The gate before every dispatch saw the schedule enabled, time synced, and a wall clock that lost at most 2 minutes against boot time since the mark |
| SchedulerRuns.DispatchesMeetTheirTarget | internal/hibernation/scheduler.go:555-575 | Every dispatched duration is between 1 and its cap and wakes within 1 s of what it was computed from |
| SchedulerRuns.TicksKeepTheirDistance | internal/hibernation/scheduler.go:341-354 | An accepted tick comes 15 minutes after the time recorded last, and 15 minutes after any earlier accepted tick if nothing recorded between the two was decided before that tick |
| SchedulerRuns.CooldownCanFail | internal/hibernation/scheduler.go:341-354 | The exact condition under which the cooldown can fail, for every reachable system whose schedule may fire: some tick can still come too early if and only if the fire recorded last is older than the tick accepted last and that one's 15 minutes have not passed |
| SchedulerRuns.CooldownFailsExactly | internal/hibernation/scheduler.go:341-354 | The pointwise form of that condition: in any reachable system with the gate open, a tick is accepted too early if and only if it comes 15 minutes after the fire recorded last and not yet 15 minutes after the tick accepted last |
| SchedulerRuns.StaleCatchUpShortensCooldown | internal/hibernation/scheduler.go:520-538 | A run on a quarter-hourly schedule, with the clock in step throughout, in which two accepted ticks come less than 15 minutes apart |
| SchedulerRuns.NothingIsPendingBeforeSync | internal/hibernation/scheduler.go:232-257 | Nothing is armed before the first time sync, so its drop of past targets never drops anything |
| SchedulerRuns.CatchUpActsOnMissed | internal/hibernation/scheduler.go:489-549 | Catching up acts exactly if an occurrence in the 48 h window, after process start and the last fire, still has its target ahead, and then on the latest occurrence |
| SchedulerDecisions.TickExactly | internal/hibernation/scheduler.go:318-378 | Exactly when a tick is accepted and what it leaves: outside stand-by the tick plus the configured duration is armed, on both clocks |
| SchedulerDecisions.ReportExactly | internal/hibernation/scheduler.go:270-303 | Exactly when entering stand-by takes, keeps or drops a deferred target |
| SchedulerDecisions.RetryExactly | internal/hibernation/scheduler.go:555-564 | Exactly when the retry takes it |
| SchedulerDecisions.CatchUpStartsExactly | internal/hibernation/scheduler.go:489-511 | Exactly when catching up begins |
| SchedulerDecisions.PlanExactly | internal/hibernation/scheduler.go:512-530 | A catch-up is due at the occurrence plus the duration, on the wall clock alone; at once in stand-by, deferred otherwise |
| SchedulerDecisions.CommitExactly | internal/hibernation/scheduler.go:531-549 | What committing a plan leaves |
| SchedulerDecisions.StepDropsExactly | internal/hibernation/scheduler.go:455-466 | A clock step drops the deferred target exactly if it is past |
| SchedulerDecisions.StaleDropExactly | internal/hibernation/scheduler.go:455-466 | If the target was replaced meanwhile, only a replacement not in the future is dropped |
| SchedulerDecisions.SyncDropsExactly | internal/hibernation/scheduler.go:232-257 | The drop after the first time sync |
| SchedulerDecisions.StepIsSeenExactly | internal/hibernation/scheduler.go:407-453 | A step is seen exactly if the wall clock's offset changed by more than a minute, forward or back |
| SchedulerDecisions.LookExactly | internal/hibernation/scheduler.go:436-446 | What a look at the clocks records |
| SchedulerDecisions.ClockIsValidExactly | internal/service/service.go:2541-2549 | The clock is valid exactly while it has lost at most 2 minutes against boot time since the mark |
| SchedulerDecisions.TargetsAreArmed | internal/hibernation/scheduler.go:341-378 | In every run, every target ever pending, on its way or dispatched was armed by a tick outside stand-by, for the tick plus the duration then configured, or by a deferred catch-up of the schedule then in force |
| SchedulerDecisions.DeferredTickIsMet | internal/hibernation/scheduler.go:270-315 | A deferred tick still pending when stand-by is entered with an open gate is dispatched within 1 s of what is left until the tick plus the duration, or the cap |
| SchedulerDecisions.ImmediateTickIsMet | internal/hibernation/scheduler.go:355-378 | A tick accepted in stand-by is dispatched within 1 s of the duration configured at the tick, or the cap |
| SchedulerDecisions.MissedOccurrenceIsMet | internal/hibernation/scheduler.go:512-549 | A missed occurrence found in stand-by is dispatched within 1 s of what is left until it plus the duration, or the cap |
| SchedulerHost.Host.Do | internal/hibernation/scheduler.go:138-575 | The scheduler object, its clock guard and the dispatches under way follow the steps the run theorems speak of |
| SchedulerHost.Host.Run | internal/hibernation/scheduler.go:138-575 | Any run of these objects is a run of the scheduler, and from the start every dispatch is gated and computed from its basis |
| Scheduler.Scheduler.Fire | internal/hibernation/scheduler.go:318-378 | A cron tick: refused, dispatched at once (dropping any deferred target), or deferred |
| Scheduler.Scheduler.OnVehicleStateChanged | internal/hibernation/scheduler.go:270-303 | Entering stand-by takes, keeps or drops the pending target |
| Scheduler.Scheduler.DispatchPending | internal/hibernation/scheduler.go:555-564 | The retry takes the pending target only in stand-by with an open gate |
| Scheduler.Scheduler.CommitCatchUp | internal/hibernation/scheduler.go:531-549 | The second section: an immediate dispatch is not re-checked, a deferral is |
| Scheduler.Scheduler.LookAtClocks | internal/hibernation/scheduler.go:436-450 | Records both clocks and returns the jump |
| Scheduler.Scheduler.DropPast | internal/hibernation/scheduler.go:455-466 | Drops a target the jump put in the past, only if the current one is past as well |
| Scheduler.Scheduler.SetTimeSynced | internal/hibernation/scheduler.go:232-245 | The latch acts once |
| Scheduler.ClockGuard.Valid | internal/service/service.go:2541-2549 | Accepts exactly a marked clock that has lost at most 2 minutes against boot time |
| Scheduler.ClockGuard.MarkValidated | internal/service/service.go:2531-2537 | Anchors the wall reading without its monotonic part, with boot time |
| Inhibitors.SyncMirrors | internal/inhibitor/redis.go:44-107 | After a synchronisation each parseable key has exactly one inhibitor and local ones keep content and order, exactly if the empty string is not such a key |
| Inhibitors.SecondSyncIsQuiet | internal/inhibitor/redis.go:66-107 | A second synchronisation with the same hash changes nothing, under the same exact condition |
| Inhibitors.KindsBlock | internal/inhibitor/inhibitor.go:195-219 | By kind: block blocks every target, suspend-only exactly run and suspend, delay none |
| Inhibitors.KindIsRead | internal/inhibitor/redis.go:82-90 | Which kind a hash entry is read as |
| Inhibitors.Manager.SyncRedisInhibitors | internal/inhibitor/redis.go:44-107 | The two loops over list and hash; notifies exactly if the list changed; a failed read changes nothing |
| Inhibitors.Manager.DropUnwanted | internal/inhibitor/redis.go:66-85 | The loop that keeps local and still wanted inhibitors and leaves the missing ids |
| Inhibitors.Manager.AddWanted | internal/inhibitor/redis.go:86-101 | The loop that appends one inhibitor per missing id |
| Inhibitors.Manager.HasBlockingInhibitors | internal/inhibitor/inhibitor.go:195-219 | True exactly if some socket or listed inhibitor blocks the target |
| Inhibitors.Manager.AddInhibitor | internal/inhibitor/inhibitor.go:134-152 | Appends a new handle |
| Inhibitors.Manager.RemoveInhibitor | internal/inhibitor/inhibitor.go:154-172 | Removes that inhibitor and nothing else, from its connection if one holds it |
| Inhibitors.Manager.Connect | internal/inhibitor/inhibitor.go:87-118 | A connection holds one inhibitor |
| Inhibitors.Manager.Disconnect | internal/inhibitor/inhibitor.go:119-132 | and releases it when it ends |

## Left out

- The `LowPowerStateIssued` flag and modem liveness: the quiesce timeout does not reset the flag and a failed preparation does not re-enable the modem, so no clean invariant exists; that the modem wait ends in the command is not claimed, because the re-check before logind counts the modem too.
- The suspended state: nothing sends the event that enters it; its rows are not modelled.
- At most once per cron occurrence: catching up lets go of the lock between its checks and its dispatch and does not record deferrals; only armed targets are proved to be dispatched once.
- Scheduler.Scheduler.Fire: does not model the cron engine that calls it, nor the rebuild of its entry.
- PowerService.Service.WaitForWakeTimer: the channel, the timer and service shutdown are the end of the sequence of echoes; the draining of one old echo before arming is part of that sequence.
- PowerService.Service.EnterIssuing: the wait for fresh telemetry after a wake is part of the next reading of the reserves; the coordinator's answer is a parameter here, which JointHost.Joint.Turn obtains from the coordinator.
- PowerRuns.RunIsSound: the bounded size of the event queue (100) is not modelled.
- PowerInvariant.TableShape: the delay inhibitor added and removed around the issuing state is not part of this model.
- Existing Redis inhibitors keep their old content when their hash entry changes, so the mirror is stated for ids and for the content of newly added entries only.
- ClockEngine.Engine.Refresh: the wrap-around of the generation counter and NaN results of tracking are not modelled.
- Parsing (chronyc output, settings, charges and voltages), JSON, sockets, file locks, D-Bus and systemd notifications, publishing, log output, the CPU governor, wakeup sources, flags and configuration.
- The idle timer, the calendar plausibility floor and the scheduled-hibernate marker file, each a single comparison or file access.
