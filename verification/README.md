# NAM-Plug coordination layer: a Dafny model with proofs

NAM-Plug runs a neural amplifier model inside a digital audio workstation. Its hard code is not the
signal processing, which lives in the engine crate, but the layer that lets a main thread, an audio
thread, GUI and dialog threads and a host agree on one state without locks on the audio thread. This
project models that layer and proves what it promises.

| file | what it models |
|---|---|
| `Payloads.dfy`, `SwapDomain.dfy` | the commands, the heap resources they carry, and what installing each one does to the DSP state |
| `SwapFields.dfy`, `FinalState.dfy` | what commands and events do, field by field and resource by resource; the state read off a command sequence, where the last writer of each part decides |
| `Processor.dfy` | the cold handlers as in-place code, proved against `SwapDomain` |
| `CommandProducer.dfy`, `CommandConsumer.dfy`, `Rings.dfy` | both ends of the command ring as classes |
| `Channel.dfy` | the whole protocol as a transition system: producer, bounded ring, drain, parking, supersession, acknowledgment, slimmable ring, GUI and host parameter changes, the render mode, models that wait, activation, failed activation, deactivation |
| `ChannelMeaning.dfy`, `ChannelProgress.dfy`, `ChannelResources.dfy` | what its runs amount to; that everything asked for can come in; ownership, latency reports, the pending restart and the controllers over whole runs |
| `ChannelOrigins.dfy`, `LatestModel.dfy`, `LatestRebuild.dfy` | where the running model comes from; which of the models handed over, and which of its rebuilds, runs in the end |
| `Rollback.dfy`, `ChannelReplay.dfy`, `Recovery.dfy` | the rollback guard of a failed activation; what becomes of each recovered command; what a failure does to the meaning |
| `Quiescence.dfy` | teardown: mutex, condition variable, in-flight count, any number of threads, dialog completions |
| `Gestures.dfy` | the gesture bitmap and its fail-closed drain into the host's queue |
| `ParkingLot.dfy`, `Generations.dfy` | the garbage parking lot with its dirty latch; the model-generation counter |
| `CivilCalendar.dfy`, `Iso8601.dfy` | both copies of the days-to-date conversion, and the timestamp text |
| `Prewarm.dfy`, `Certification.dfy` | the prewarm budget; the release gate and its re-verification |

How the pieces fit. The code that updates things in place is written as classes whose methods state the
whole new state as a function of the old one; the theorems are about those functions. The concurrent
parts are transition systems: `Runs(s, acts)` says that every action of `acts` is enabled when it is
taken, `After(s, acts)` is the state reached, and a theorem about every `acts` is a theorem about every
interleaving. `CommandProducer.TryPushIsARun` and `CommandConsumer.HooksAreChannelSteps` tie the classes
to the channel's steps, the methods of `Gestures.GuiShared` are proved to be the steps of its runs, and the channel's install and discard steps use the very functions `Processor`
is proved against. The engine's drain is not in the repository; here it is every order of the steps its
hooks allow (`src/clap/plugin/command_scheduler.rs:467-506`, `src/clap/processor/events.rs:423-454`): pop
and install, pop and hold, park, resolve by installing, discard a candidate whose immediate successor has
the same coalesce key, stop at any point.

What turned out to be conditional. Each of these is stated as an if-and-only-if, and where the code fails
the plain promise a lemma gives a run or an input that shows it.

- Latest-wins supersession is exact unless an accepted impulse response is discarded in favour of one the
  live sample rate refuses (`SwapDomain.SupersessionIsExact`).
- A restore transaction is installed, or recovered and then replayed once or still waiting for its replay,
  unless the plugin deactivates while one is parked or while a recovered one waits for the first callback.
  Either way `deactivate` leaves it acknowledged and never applied (`ChannelReplay.RestoresSurvive`; the two
  losses happen in `ChannelReplay.ParkedRestoreIsLost` and `ChannelReplay.UnreplayedRestoreIsLost`).
- Each failed activation puts its batch in front, so replay keeps the sending order only if at most one
  failed activation since the last success staged anything; the comment at
  `src/clap/processor/rollback.rs:128` says the opposite of what the code does with a second batch
  (`ChannelReplay.ReplayOrder`, `ChannelReplay.TwoFailuresReverse`).
- A failed activation followed by a successful one changes nothing but possibly the model. The model is kept
  exactly if no plain load was in the ring, or the last command that brings a model is a plain load newer than
  every other one; with a model already waiting, exactly if the ring holds no newer plain load
  (`Recovery.FailureThenSuccess`). A restore behind a load (`Recovery.OlderModelWins`) and a load prepared in the
  background that is sent behind a newer one (`Recovery.NewerModelReturns`) end differently.
- A load that found the ring full waits, and is sent after newer loads that found room. The newest model handed
  over runs in the end exactly if it was not itself sent past a waiting one and every later one was
  (`LatestModel.NewestSurvives`, `LatestModel.DeferredModelWins`).
- In real time the adaptive controller runs the mode its parameter says, unless it has drifted: coming back from
  offline rendering takes the mode from the GUI's cell, and an unchanged snapshot does not correct it
  (`ChannelResources.ControllersFollow`, `SwapDomain.ModeDrifts`).
- Inside a drain the announced tail can be ahead of what the tail extension answers, because the published
  latency is only stored at the end of the callback (`SwapDomain.TailReaderInsideDrain`,
  `SwapDomain.TailAheadOfReader`).
- Gesture streams stay legal exactly under the steps of `Gestures.Tolerated`: a begin on a closed gesture whose
  end still waits, a second begin after the first was drained, and a change or an end with no gesture open and
  no end waiting break them (`Gestures.RunsAreSafeExactly`). Nothing in the handlers prevents the second: the
  knob's wheel handler begins a gesture of its own while the knob may be held
  (`src/clap/gui/slint/RotaryKnob.slint:128-161`, `Gestures.WheelBreaksStream`).
- A release can be `CERTIFIED` although verification must refuse it, namely when a run id is missing
  (`Certification.CertifyThenVerify`, `Certification.CertifiedWithoutRunIds`).
- Timestamps sort as text up to the last second of the year 9999 and no further
  (`Iso8601.SortableExactlyBefore10000`).

Where the code and its comments disagree the code is modelled. The comments at
`src/clap/processor/params.rs:51` and `:69` give -40..40 dB and -100..0 dB for the output gain and the gate,
while the sanitizer they call clamps to the engine's gain limits and to -90..-40 dB
(`src/clap/extensions/params/mod.rs:84-104`). The engine's limits are not part of the repository; -20 and
20 dB are what the comment on the input gain gives; the two numbers appear in `SwapFields.Reflects` only.

## Model

| member | source | states |
|---|---|---|
| CivilCalendar.CivilFromDaysIsCorrect | src/bin/nam_perf_guard.rs:1238-1249 | for every integer the result is a Gregorian date whose day count, added up year by year and month by month, is the input |
| CivilCalendar.CivilRoundTrip | src/bin/nam_perf_guard.rs:1238-1249 | converting the day count of any date gives the date back, so the conversion is a bijection |
| CivilCalendar.CivilSuccessor | src/bin/nam_perf_guard.rs:1238-1249 | one more day is the next calendar day, across months, leap days and years |
| CivilCalendar.DayNumberIsMonotone | src/bin/nam_perf_guard.rs:1233-1249 | calendar order is day-count order, and equal counts mean equal dates |
| CivilCalendar.YearOfEraIsExact | src/bin/nam_perf_guard.rs:1242-1244 | the year estimate lands on the year of the era that contains the day |
| CivilCalendar.EraIsFloor | src/bin/nam_perf_guard.rs:1239-1241 | with truncating division the conditional dividend yields the floor quotient for negative days too |
| CivilCalendar.MonthTable | src/bin/nam_perf_guard.rs:1245-1248 | the March-based month formula agrees with month lengths added up from January |
| CivilCalendar.UnsignedCopyAgrees | src/receipt/release.rs:43-52 | the unsigned copy gives the same date for every day it can be given |
| Iso8601.TextOrderIsTimeOrder | src/bin/nam_perf_guard.rs:1209-1231 | before the year 10000 text order is time order and distinct seconds have distinct texts |
| Iso8601.SortableExactlyBefore10000 | src/bin/nam_perf_guard.rs:1209-1231 | the timestamps of all seconds before a limit sort as text if and only if the limit is not past the end of the year 9999 |
| Iso8601.OrderBreaksAtYear10000 | src/bin/nam_perf_guard.rs:1221-1231 | the first second of the year 10000 sorts before its predecessor |
| Iso8601.FirstTexts | src/bin/nam_perf_guard.rs:1221-1231 | the layout: the first second of 1970, and one late on its second day, written out |
| Iso8601.ParseReadsFormat | src/bin/nam_perf_guard.rs:1221-1231 | reading the text as an RFC 3339 section 5.6 UTC date-time gives the seconds back |
| Iso8601.FormatReadsParse | src/bin/nam_perf_guard.rs:1221-1231 | every readable text from 1970 on is the one the formatter writes |
| Iso8601.TimestampsAgree | src/receipt/release.rs:31-55 | both timestamp writers produce the same text for every second |
| Quiescence.NoHostCallAfterQuiesce | src/clap/plugin/quiescence.rs:64-156 | in every interleaving, from the return of a quiesce on, the coordinator is inactive, nothing is in flight and no thread is inside a host call, for ever |
| Quiescence.ReachableAccounting | src/clap/plugin/quiescence.rs:230-238 | the count equals the live guards, the saturating decrement never saturates, and a sleeper with nothing in flight has a notification coming |
| Quiescence.StepInv | src/clap/plugin/quiescence.rs:82-145 | every step of every thread keeps mutual exclusion, the exact count, closedness and the absence of lost wake-ups; after closing no step adds to the release work owed and a step of an owing thread reduces it |
| Quiescence.QuiesceCanReturn | src/clap/plugin/quiescence.rs:82-156 | from every such state a closed teardown thread can be brought to its return by steps of owing threads, the mutex holder and itself, along a decreasing measure |
| Quiescence.FenceStopsEntries | src/clap/plugin/quiescence.rs:283-300 | for the coordinator that tests the fence: once it is down no call is added to those in flight |
| Quiescence.LateDialogsAreDiscarded | src/clap/gui/file_dialogs.rs:132-160 | once the fence is down and no dialog is past its check, no outcome is ever written again |
| Quiescence.LateOutcomesAreBounded | src/clap/gui/file_dialogs.rs:132-160 | once the fence is down, outcomes written and dialogs past their check add up to the same number for ever, so no more outcomes are written than dialogs were past their check |
| Quiescence.CheckedOutcomesAreWritten | src/clap/gui/file_dialogs.rs:132-160 | over every run outcomes written and dialogs past their check grow together by exactly the checks that found the fence up, whatever happens to the fence afterwards; once it is down no check passes |
| Quiescence.DialogGetsThrough | src/clap/gui/file_dialogs.rs:132-160 | with the fence up a dialog can write its outcome and goes on to notify the host |
| Quiescence.LateDialogTurnsBack | src/clap/gui/file_dialogs.rs:132-160 | with it down the check discards the outcome and the second look does not notify |
| Quiescence.EnterIsExact | src/clap/plugin/quiescence.rs:189-196 | `enter` counts the call exactly when the coordinator is active, the mutex is not poisoned and, for the host-call coordinator, the fence is up; otherwise it refuses and changes nothing |
| Quiescence.NobodyIsRefused | src/clap/plugin/quiescence.rs:283-300 | over every run from the start that begins no teardown, poisons nothing and lowers no fence this coordinator tests, no thread is ever refused |
| Quiescence.CallGetsThrough | src/clap/plugin/quiescence.rs:283-300 | from every such state with the mutex free a call reaches the host by its own steps, adding exactly one to the calls in flight |
| Quiescence.CallGivesBack | src/clap/plugin/quiescence.rs:224-245 | a call that is over gives its count back by its own steps, and exactly the last one goes on to notify |
| Quiescence.NotifierWakes | src/clap/plugin/quiescence.rs:224-245 | a notification reaches every sleeper of both waits |
| Quiescence.StallCanHappen | src/clap/plugin/quiescence.rs:82-125 | a teardown whose grace period runs out with calls in flight gives up that wait and goes into the unbounded one |
| Quiescence.StalledExactlyAfterExpiry | src/clap/plugin/quiescence.rs:82-156 | over every run `quiesce` answers that it stalled exactly when its grace period ran out with calls in flight |
| SwapDomain.SupersessionIsExact | src/clap/processor/events.rs:531-552 | discarding the older of two same-kind commands equals installing both, resources included, if and only if the newer is accepted or the older is refused or changes nothing |
| SwapDomain.SnapshotHidesSnapshot | src/clap/processor/params.rs:406-447 | a parameter snapshot right after another leaves no trace of the first |
| SwapDomain.InstallKeepsLatency | src/clap/processor/events.rs:764-841 | every command keeps the cached latency the 32-bit sum of stream, oversampler and partition size, the dry delay that sum as far as the line reaches, and the published stream, partition and tail figures those of what is installed |
| SwapDomain.FiguresAreExact | src/clap/processor/events.rs:764-841 | as long as sum and product fit 32 bits the figures are the plain sum, the partition size and partitions times block latency |
| SwapDomain.InstallReportsTail | src/clap/processor/events.rs:824-841 | every command keeps the tail-changed calls equal to the changes of the reported tail |
| SwapDomain.CallbackEndAgrees | src/clap/processor/events.rs:107-115 | at the end of a callback the tail reader answers exactly the last announced tail |
| SwapDomain.TailReaderInsideDrain | src/clap/extensions/tail.rs:20-41 | right after an accepted impulse-response swap the reader answers the announced tail if and only if the latency published before is the one after the swap, or both sums are beyond 32 bits |
| SwapDomain.TailAheadOfReader | src/clap/processor/events.rs:824-841 | loading a 128-sample impulse response after a quiet callback announces a tail 128 samples longer than the one the host can read |
| SwapDomain.PendingRoundTrip | src/clap/plugin/shared.rs:96-139 | encoding and decoding the pending restart are inverse, and only "none" encodes to 0 |
| SwapDomain.RequestTracks | src/clap/processor/params.rs:137-148 | a host or GUI oversampling change while active leaves the pending restart at the requested factor |
| SwapDomain.InstallTracks | src/clap/processor/params.rs:369-396 | so does every ring command |
| SwapDomain.InstallKeepsControllers | src/clap/processor/params.rs:406-447 | passing on changed parameters only never lets the slim override or the activation functions differ from the parameters, keeps a mode that follows, and corrects a drifted mode exactly when the snapshot changes it |
| SwapDomain.ModeDrifts | src/clap/processor/events.rs:117-165 | a mode changed by a snapshot during offline rendering is not the controller's mode afterwards, nor after the same snapshot again |
| SwapDomain.InstallConserves | src/clap/processor/events.rs:581-753 | what a command carries plus what was owned before is owned after, as multisets |
| SwapDomain.InstallKeepsGeneration | src/clap/processor/events.rs:693-701 | the left model stays tagged with the active generation |
| SwapDomain.InstallRespectsMeaning | src/clap/processor/events.rs:581-620 | states equal in meaning stay equal under every command |
| SwapFields.ItemsAreBrought | src/clap/processor/events.rs:628-672 | the resources counted for a command are those its fields carry: both models, resampler and stream, both engines, the impulse response, each as often as it occurs |
| SwapFields.OwnedAreInstalled | src/clap/processor/events.rs:677-864 | the resources counted for the processor are those its fields hold and those retired |
| SwapFields.ReplacedIsRetired | src/clap/processor/events.rs:581-753 | for every command and resource: installed plus retired grows by what the command carries, nothing comes back from the collector, and what is installed less often afterwards has been retired |
| SwapFields.DiscardedIsRetired | src/clap/processor/events.rs:628-672 | a superseded command leaves all it carries with the collector and changes nothing else |
| SwapFields.RebuildTakesItsPlace | src/clap/processor/events.rs:397-420 | an installed rebuild replaces the left model, which is retired, and a refused one is retired itself; nothing else changes |
| SwapFields.LoadRuns | src/clap/processor/events.rs:677-753 | after a model load models, generation, resampler, stream, gains and cost are the load's, the prewarm is reset, the controller knows the channels, and nothing else changes |
| SwapFields.StaleIsRefused | src/clap/processor/events.rs:780-842 | an impulse response for another rate than the host's is flagged, retired and changes nothing else; any other one, or none, takes the place of the old, which is retired |
| SwapFields.EnginesTakeTheirPlace | src/clap/processor/events.rs:847-864 | both engines are the command's, and the applied factor is the left engine's |
| SwapFields.SnapshotIsApplied | src/clap/processor/params.rs:406-447 | every snapshot: gains and gate within their limits and equal to the snapshot's when that is, the others equal, each smoother aimed at its own gain plus its modulation, the gate flag raised exactly on a changed gate, changes passed on, a changed factor put through the policy |
| SwapFields.RestoreIsApplied | src/clap/processor/events.rs:875-891 | a restore leaves its model, its impulse response if accepted, its parameters and its generation |
| SwapFields.HostFactorIsAdopted | src/clap/processor/params.rs:137-148 | a changed factor from the host becomes the parameter and the GUI's cell and is put through the policy; an unchanged one changes nothing |
| SwapFields.SyncAfterHostFactor | src/clap/processor/params.rs:137-148 | reading the GUI's cells right after a host change does not take it back, and changes nothing at all where the adaptive cell was in step |
| SwapFields.SyncAfterHostMode | src/clap/processor/params.rs:105-113 | the same for the adaptive mode |
| SwapFields.SyncAdoptsCells | src/clap/processor/params.rs:307-354 | what the GUI stored last is what the next read adopts |
| SwapFields.OfflineIsFullQuality | src/clap/processor/events.rs:117-165 | every callback that sees offline rendering leaves the adaptive controller off, and the first one sets the standard activation functions |
| SwapFields.OfflineRoundTrip | src/clap/processor/events.rs:117-165 | going offline and back restores the parameters and activation functions of before, and takes the mode from the cell |
| SwapFields.RawCodes | src/clap/plugin/shared.rs:96-139 | the raw codes of the pending restart: 0 for none, 1 to 3 for the factors |
| SwapFields.KeysAreKinds | src/clap/plugin/shared.rs:210-247 | latest wins among models, among impulse responses and among engines, and never between kinds, for snapshots or for restores |
| FinalState.InstallationIsLastWrites | src/clap/processor/events.rs:581-891 | plain installation ends, field by field, with the last model, accepted impulse response, engines, parameters (within their limits, smoothers aimed at them) and restore of the sequence, each of them whole |
| FinalState.DrainedRunEndsAtLastWrites | src/clap/processor/events.rs:423-454 | so does every channel run that starts and ends with nothing outstanding, with consistent latencies |
| FinalState.LastWritesOne | src/clap/processor/events.rs:581-891 | the sequence leaves no choice: two states that both are its last writes are the same but for latency, retired resources and side |
| Channel.AckStep | src/clap/plugin/command_scheduler.rs:457-506 | every step of producer, drain and activation keeps pushed = processed + parked + queued and processed = acknowledged + resolved |
| Channel.AckIsExact | src/clap/plugin/command_scheduler.rs:425-427 | in every reachable state pushed, processed, parked and queued add up, the acknowledgment covers settled fates only, and every waiting command has a larger position; the acknowledgment leads the counter by at most one |
| Channel.AckIsMonotone | src/clap/processor/events.rs:564-573 | the acknowledgment never goes back, no fate is revised, and a callback ends with it at the consumer's position |
| Channel.FatesStep | src/clap/plugin/shared.rs:223-247 | a superseded command was overtaken by its immediate successor of the same kind |
| ChannelReplay.RestoresSurvive | src/clap/processor/mod.rs:1410-1428 | every resolved restore was installed, or recovered and then replayed once or still waits for its replay, if and only if the run never deactivates with a restore parked or with one waiting for its replay |
| ChannelReplay.EveryRecoveredCommandOnce | src/clap/processor/rollback.rs:128-166 | in every reachable state each recovered command other than a model is staged, moved in, replayed or lost, exactly once, and the staging areas hold exactly those commands |
| ChannelReplay.UnreplayedRestoreIsLost | src/clap/processor/mod.rs:1410-1520 | a run in which a recovered restore is acknowledged and dropped by a deactivation before its replay |
| ChannelReplay.ParkedRestoreIsLost | src/clap/processor/mod.rs:1410-1428 | a run in which the second of two restores is parked by the budget, acknowledged by the deactivation and never applied |
| ChannelReplay.ReplayOrder | src/clap/processor/rollback.rs:128-166 | over every run the staged commands stand in sending order if and only if at most one failed activation since the last success staged anything |
| ChannelReplay.TwoFailuresReverse | src/clap/processor/rollback.rs:128-166 | two failed activations with a command before each leave the later command first |
| ChannelReplay.FailedActivationAccountsForAll | src/clap/processor/rollback.rs:114-195 | a failed activation in any reachable state empties the ring, acknowledges everything pushed, stages every other command exactly once and keeps a model at least as new as each one taken out |
| Recovery.FailureThenSuccess | src/clap/plugin/main_thread/mod.rs:234-420 | in every reachable state without a command left from an earlier failure, failing, flushing and activating keep what the outstanding commands amount to in all but the model; with one generation per model, the model, outstanding or waiting, is kept if and only if no plain load was in the ring, or, none waiting, the last command bringing a model is a plain load newer than every other plain load, or, one waiting, no plain load in the ring is newer |
| Recovery.RecoveryAgainstPlain | src/clap/processor/rollback.rs:128-179 | for any command sequence with one generation per model: other commands first and the newest load last, against plain order; equal in all but the model, and in the model if and only if the last one is a plain load newer than every other plain load |
| Recovery.OlderModelWins | src/clap/processor/mod.rs:1281-1316 | a run in which a restore's newer model ends replaced by the older load in front of it |
| Recovery.NewerModelReturns | src/clap/plugin/main_thread/housekeeping.rs:729-733 | a run in which a load prepared in the background is sent behind a newer one: plain order ends with the late one, the recovery with the newer one |
| ChannelMeaning.SupersedeMeans | src/clap/processor/events.rs:423-454 | a discard step does not change what the outstanding commands amount to |
| ChannelMeaning.PushMeans | src/clap/plugin/command_scheduler.rs:286-302 | coalescing a snapshot amounts to appending it |
| ChannelMeaning.StepMeans | src/clap/processor/events.rs:541-573 | each step adds to the eventual state exactly what it asks for |
| ChannelMeaning.LiveRunsQualify | src/clap/processor/events.rs:785-796 | when every impulse response is built for the live rate, every schedule meets the condition of the next two rows |
| ChannelMeaning.ScheduleDoesNotMatter | src/clap/processor/events.rs:423-573 | for every run in which supersession happens only where it is exact, installing what is outstanding gives the state and retired resources of plain in-order installation of everything asked for |
| ChannelMeaning.DrainedRunIsPlainInstallation | src/clap/processor/events.rs:423-573 | in particular a run that starts and ends drained equals plain installation |
| ChannelProgress.ComesToRest | src/clap/processor/events.rs:423-573 | from every state of the channel a run brings it to rest, installing whatever waits, is parked, was recovered or is still coalesced, with nothing dropped or superseded |
| ChannelProgress.LastWritesAreReached | src/clap/processor/events.rs:423-573 | every qualified run from rest has a continuation, asking for nothing more, at whose end everything is acknowledged and the last writes of the run are installed |
| ChannelProgress.RebuildComesIn | src/clap/processor/events.rs:374-420 | the next slimmable rebuild is installed within a callback over a model of its own generation, and retired otherwise |
| ChannelMeaning.OneStructuralInstallPerCallback | src/clap/processor/events.rs:50-78 | both rings draw on one budget of one, so at most one structural command of either is installed between two callback starts; that each install is preceded by the budget check is the engine's part and a guard of the model |
| ChannelResources.NothingLostNothingDuplicated | src/clap/processor/events.rs:437-439 | over whole runs each resource, counted over the fields of rings, slots, staging, DSP state, collector and main-thread frees, occurs as often as it was there at the start plus sent |
| ChannelOrigins.RebuildReplacesItsOwnModel | src/clap/processor/events.rs:374-402 | over every run in which each model handed over has a generation of its own (`Generations.TagsAreNotReused`), a rebuild tagged with a model's generation is installed only over that very model, whatever deferrals, rollbacks, flushes and replays it went through |
| ChannelOrigins.OriginRun | src/clap/processor/events.rs:677-753 | every run keeps the running model, the waiting model and every command that carries one traceable to a command of the main thread |
| ChannelResources.LeftModelIsOfActiveGeneration | src/clap/processor/events.rs:693-701 | across both rings the left model's own tag is the active generation, and a rebuild is installed over a model with the rebuild's tag |
| ChannelResources.ReportsAreConsistent | src/clap/processor/events.rs:222-244 | after every run the cached latency is the sum of stream, oversampler and partition size while that fits 32 bits, the dry delay, the published partition size and the tail product are those of what is installed, the tail calls are the changes of the tail, and after a callback the host reads the announced one |
| ChannelResources.PendingRestartIsCurrent | src/clap/processor/params.rs:307-396 | over every run, through host events, the GUI, the ring and the replay of recovered commands: once the requested factor has changed since the last successful activation, the pending restart is the factor requested now; without such a change nothing is pending after an activation, or still what was pending at the start |
| ChannelResources.ControllersFollow | src/clap/processor/events.rs:117-165 | over every run, offline rendering included: slim override and activation functions are the parameters', and in real time the adaptive mode is the parameter's if and only if it has not drifted since a return from offline rendering |
| LatestModel.WinnerRuns | src/clap/plugin/main_thread/load.rs:560-620 | over every run within an activation, however scheduled: the generation that runs in the end is that of the last model handed over that was not sent past a waiting one |
| LatestModel.NewestSurvives | src/clap/plugin/main_thread/load.rs:599-620 | the newest model handed over survives if and only if it was not sent past a waiting model and every later one was |
| LatestModel.WinnerIsRunning | src/clap/plugin/main_thread/mod.rs:234-420 | once nothing is on its way and nothing waits, that model is the running one |
| LatestModel.FinalIsIntended | src/clap/plugin/main_thread/mod.rs:234-420 | it is the model that installing everything outstanding, and then the waiting one, leaves running |
| LatestModel.DeferredModelWins | src/clap/plugin/main_thread/load.rs:599-620 | a run in which a load deferred on a full ring ends up running although a newer one was sent meanwhile |
| LatestRebuild.LeftRun | src/clap/processor/events.rs:369-420 | over every run that installs no model command and does not deactivate, however both rings are drained: what the rebuilds in flight will leave as the left model is the last one sent for the running generation, or what it was |
| LatestRebuild.NewestRebuildRuns | src/clap/processor/events.rs:369-420 | in particular, once none is in flight the last rebuild of the running model runs, and none for another generation ever does |
| Rollback.ActivateRollbackGuard.Defuse | src/clap/processor/rollback.rs:62-82 | success moves the three channel ends out; an error leaves what was not yet taken |
| Rollback.ActivateRollbackGuard.Drop | src/clap/processor/rollback.rs:85-203 | everything extracted goes back, the taken restart request unchanged; the ring is recovered in one pass |
| Rollback.ActivateRollbackGuard.RecoverRing | src/clap/processor/rollback.rs:115-187 | the loop stages the other commands in front, keeps the newest model and adds the number drained to the acknowledgment |
| Rollback.NewestIsMaximum | src/clap/processor/rollback.rs:148-163 | the kept model has the strict maximum generation, the first one among equals, and exists when a load was in the ring |
| Rollback.SlotOnlyGrows | src/clap/processor/rollback.rs:169-179 | a waiting model is never replaced by an older one |
| Rollback.WaitsOrCarriesOn | src/clap/processor/rollback.rs:148-179 | after a rollback the newest load of the ring waits, generation, models, rate and gains carried on, exactly when it is newer than what waited; otherwise what waited still does |
| Rollback.StagedInRingOrder | src/clap/processor/rollback.rs:130-135 | staged commands are the ring's non-model commands in ring order, each position once |
| Rollback.EveryNonModelStaged | src/clap/processor/rollback.rs:130-135 | and none is left out |
| CommandProducer.SnapshotRoundTrip | src/clap/plugin/command_scheduler.rs:81-150 | a parameter snapshot survives encoding into and decoding from the slots |
| CommandProducer.CoalesceBuffer.Set | src/clap/plugin/command_scheduler.rs:73-79 | writes one slot and its dirty bit; ids past the last slot are ignored |
| CommandProducer.CoalesceBuffer.TakeSnapshot | src/clap/plugin/command_scheduler.rs:81-136 | returns exactly the pending snapshot, no default showing through, and empties the buffer |
| CommandProducer.CoalesceBuffer.RestoreSnapshot | src/clap/plugin/command_scheduler.rs:141-150 | makes the given snapshot the pending one |
| CommandProducer.Producer.PushParams | src/clap/plugin/command_scheduler.rs:286-302 | replaces the pending snapshot and says whether a batch was opened |
| CommandProducer.Producer.ForceFlush | src/clap/plugin/command_scheduler.rs:359-376 | delivers the snapshot and numbers it, or on a full ring changes nothing |
| CommandProducer.Producer.TryPushCommand | src/clap/plugin/command_scheduler.rs:328-345 | flushes first; on a full ring the command comes back to the caller |
| CommandProducer.Producer.PushCommand | src/clap/plugin/command_scheduler.rs:314-316 | the same outcome without handing the command back |
| CommandProducer.CoalescingRefinesPlainQueue | src/clap/plugin/command_scheduler.rs:286-376 | for every history the ring carries exactly the accepted commands in order, each after the last parameters pushed before it, and the last parameters are never lost |
| CommandProducer.RefusedExactlyWithoutRoom | src/clap/plugin/command_scheduler.rs:314-376 | a structural command is refused exactly when the ring has no room for it and the snapshot ahead of it; the snapshot goes in even then if it alone fits; numbers count what went in |
| CommandProducer.FailedFlushIsRetried | src/clap/plugin/command_scheduler.rs:366-371 | a failed flush loses nothing and a retry delivers the latest snapshot |
| CommandProducer.SequenceIsPosition | src/clap/plugin/command_scheduler.rs:338-342 | the number handed out is the command's position among everything delivered |
| CommandProducer.FlushIsARun | src/clap/plugin/command_scheduler.rs:359-376 | a flush is a run of channel steps |
| CommandProducer.TryPushIsARun | src/clap/plugin/command_scheduler.rs:328-345 | so is a push of a structural command |
| CommandProducer.AcknowledgedMeansSettled | src/clap/plugin/command_scheduler.rs:328-427 | in every state after a push the returned number is still that command's position; once `is_acked` says yes its fate is settled, and outside a callback it says yes exactly then |
| CommandConsumer.Consumer.constructor | src/clap/plugin/command_scheduler.rs:435-442 | the position starts from the published acknowledgment |
| CommandConsumer.Consumer.PopBoxed | src/clap/plugin/command_scheduler.rs:457-465 | takes the head and its number, or nothing |
| CommandConsumer.Consumer.Peek | src/clap/plugin/command_scheduler.rs:471-473 | shows the head without consuming it |
| CommandConsumer.Consumer.ResolveParked | src/clap/processor/mod.rs:1417-1428 | what deactivation does with a parked command's number |
| CommandConsumer.HooksAreChannelSteps | src/clap/plugin/command_scheduler.rs:562-594 | in reachable states each channel step moves ring and position as the hooks do, and rolling back never wraps |
| CommandConsumer.NewConsumerContinues | src/clap/plugin/command_scheduler.rs:430-442 | a consumer built at activation or after a rollback starts where the last one stopped |
| Processor.Processor.RecomputeEffectiveLatency | src/clap/processor/events.rs:764-774 | adding the contributions one by one in 32 bits gives the wrapped total, and the dry delay follows |
| Processor.Processor.CheckTailChanged | src/clap/processor/events.rs:222-244 | announces the tail exactly when it changed |
| Processor.Processor.PublishLatency | src/clap/processor/events.rs:107-115 | the end of process_events |
| Processor.Processor.ApplyOversample | src/clap/processor/params.rs:369-396 | the latency policy: pending restart while active, rebuild request while not |
| Processor.Processor.SetOversample | src/clap/processor/params.rs:137-148 | a changed factor is adopted, stored in the GUI's cell and put through the policy; an unchanged one does nothing |
| Processor.Processor.SyncParamsFromGui | src/clap/processor/params.rs:345-354 | adaptive mode and factor the GUI stored are adopted where they differ, the factor through the policy |
| Processor.Processor.SetAdaptiveCompute | src/clap/processor/params.rs:105-113 | a host event sets parameter, cell and controller |
| Processor.Processor.HonorRenderMode | src/clap/processor/events.rs:117-165 | entering, staying in and leaving offline rendering, as the code does them one assignment at a time |
| Processor.Processor.ApplyParamsFromSpsc | src/clap/processor/params.rs:406-447 | the full snapshot: clamped values, smoother targets, and each changed one of adaptive mode, slim override, factor, activation functions and gate passed on |
| Processor.Processor.ColdLoadModel | src/clap/processor/events.rs:677-753 | the in-place model swap, the adaptive controller told the channels of a dynamic model |
| Processor.Processor.ColdLoadCabsim | src/clap/processor/events.rs:780-842 | the in-place impulse-response swap, with the stale-rate refusal |
| Processor.Processor.ColdLoadOs | src/clap/processor/events.rs:847-864 | the in-place engine swap; the applied factor comes from the engine |
| Processor.Processor.ColdApplyRestoreTxn | src/clap/processor/events.rs:875-891 | model, impulse response and parameters in one step, the generation published last |
| Processor.Processor.InstallCommand | src/clap/processor/events.rs:541-620 | routes each command and counts it |
| Processor.Processor.DiscardCommand | src/clap/processor/events.rs:549-672 | retires every resource of a superseded command and counts it |
| Processor.Processor.AfterDrain | src/clap/processor/events.rs:564-573 | adds the count to the acknowledgment |
| Processor.Processor.ReplayRecoveredCommands | src/clap/processor/events.rs:178-187 | installs everything staged, in order, without acknowledging it a second time |
| Processor.Processor.InstallRebuilt | src/clap/processor/events.rs:397-402 | swaps the left model only |
| Processor.Processor.DiscardRebuilt | src/clap/processor/events.rs:411-420 | retires the rebuild and counts stale ones only |
| ParkingLot.Lot.DrainParkingLot | src/clap/processor/gc.rs:22-38 | moves the first parked items that fit, in slot order; the latch is left set exactly when something remains, and a clean latch means all slots are empty |
| ParkingLot.Lot.Park | src/clap/processor/gc.rs:14-20 | parking raises the latch and fails only when all sixteen slots are taken |
| ParkingLot.SweepConserves | src/clap/processor/gc.rs:26-34 | what a sweep takes and what it leaves is what was parked |
| ParkingLot.SweepIsACut | src/clap/processor/gc.rs:22-38 | a sweep takes everything up to some slot, leaves the rest where it was, and stops early only in front of a resource with no room left |
| ParkingLot.SweepsAddUp | src/clap/processor/gc.rs:11-38 | two sweeps take what one sweep with the room of both would |
| Generations.TagsAreNotReused | src/clap/plugin/shared.rs:1059-1071 | two calls of an allocator return the same tag exactly when a whole round of the counter lies between them; so with the reserved tag 0 |
| Gestures.WordIsASet | src/clap/plugin/shared.rs:1145-1160 | the bitmap behaves as a set of (parameter, kind) pairs, and putting a taken bit back restores it |
| Gestures.GuiShared.TakeGesture | src/clap/plugin/shared.rs:1152-1160 | clears one bit and returns whether it was set |
| Gestures.GuiShared.WriteGuiEvents | src/clap/plugin/shared.rs:1223-1319 | the whole drain, fast path and early return included, as a step of the transition system, and when it raises the backpressure flag |
| Gestures.GuiShared.ValueChanged | src/clap/gui/slint_view_model.rs:899-910 | a moved control stores its value and marks it, as two steps of the transition system |
| Gestures.DrainTells | src/clap/plugin/shared.rs:1283-1319 | wherever it is refused, a drain leaves what the host was told followed by what it is due unchanged |
| Gestures.DrainIsACut | src/clap/plugin/shared.rs:1283-1319 | for every word and refusal point: bits before are bits emitted plus bits after, in order of parameter then begin, value, end, stopping only at a refusal whose bit stays set |
| Gestures.FullDrainEmpties | src/clap/plugin/shared.rs:1283-1319 | room for 24 events leaves nothing pending |
| Gestures.StreamsAreLegal | src/clap/plugin/shared.rs:1208-1222 | over every run of GUI steps and refused drains whose steps on a parameter are all tolerated (no second begin once the first was drained, no begin on a waiting end, no change or end with neither an open gesture nor a waiting end), its stream is a prefix of (begin value* end)* |
| Gestures.RunsAreSafeExactly | src/clap/plugin/shared.rs:1128-1149 | tolerated runs are exactly those along which the stream is legal and can still stay so |
| Gestures.ActionIsSafe | src/clap/plugin/shared.rs:1128-1149 | from any such state, gesture open or not, a begin, change, end or drain keeps the stream legal under every orderly continuation and every refusal if and only if it is tolerated |
| Gestures.InStepExactly | src/clap/plugin/shared.rs:1128-1319 | the stream can stay legal if and only if what was told and is due together is legal and open exactly when the GUI has a gesture open |
| Gestures.WheelBreaksStream | src/clap/gui/slint/RotaryKnob.slint:128-161 | turning the wheel while the knob is held, drained in between, tells the host begin, begin, value, end, end |
| Gestures.LastValueIsTold | src/clap/plugin/shared.rs:1208-1222 | over every run whatever, once a change is marked and drained the host's last value is the GUI's last stored one |
| Gestures.HostKnowsLastStored | src/clap/plugin/shared.rs:1208-1222 | over every run from the start: once the last value the GUI stored has been marked and its bit drained, it is the last value the host was told |
| Prewarm.StepIsLargestThatFits | src/clap/processor/prewarm_policy.rs:154-200 | the step is the largest one that fits the deadline budget and the proportional rule, and 0 exactly when one sample per chain does not fit |
| Prewarm.BudgetIsRespected | src/clap/processor/prewarm_policy.rs:154-200 | with every fallback and figure written out (930, 75 and 500 ns, factors 4 and 16, the cap at 50 microseconds, 48 kHz): a positive step costs, with 1500 ns overhead, at most 75% of the block period, is at most 1024 and in proportion to the block; no other such step is larger; and it is 0 exactly when one sample does not fit |
| Prewarm.MeasuredCostIsRespected | src/clap/processor/prewarm_policy.rs:177-200 | a positive measured cost, capped at 50 microseconds, times the step and the chains, plus overhead, is within 75% of the block period |
| Prewarm.DocumentedSteps | src/clap/processor/prewarm_policy.rs:105-123 | the documented steps for 32, 64 and 256 frames |
| Prewarm.DocumentedMeasuredSteps | src/clap/processor/prewarm_policy.rs:154-200 | the same with measured costs, 49 for 64 frames at 48 kHz and 20 microseconds |
| Prewarm.StepIsMonotone | src/clap/processor/prewarm_policy.rs:154-200 | longer blocks, fewer chains and cheaper models never get a smaller step |
| Certification.DeclaredArtifact | src/receipt/long_artifact.rs:189-233 | the loop answers missing, incomplete, conflicting or the one declared artifact, each exactly when it should |
| Certification.DeclarationIsUnique | src/receipt/long_artifact.rs:184-188 | the four answers exclude one another |
| Certification.ReadEntries | src/receipt/long_artifact.rs:159-182 | the entries of a readable receipt, or an error for bad lines and empty files |
| Certification.VerifyReceiptArtifact | src/receipt/long_artifact.rs:314-387 | match, mismatch, absent or incomplete, with the reason each stands for |
| Certification.MatchMeans | src/receipt/long_artifact.rs:308-387 | a match exactly when every line declares the hash on disk and at most one path is named |
| Certification.CheckBuild | src/receipt/release.rs:257-299 | lists exactly the faults of the build receipt: another hash, not strict, not passed, another run id than expected, and its gaps; none exactly when it is in order |
| Certification.CheckEntry | src/receipt/release.rs:396-446 | lists exactly the faults and gaps of one phase line |
| Certification.CheckLines | src/receipt/release.rs:366-474 | lists exactly the faults and gaps of the lines and the roster phases no line carries; the run id is the last non-empty one |
| Certification.CheckDisk | src/receipt/release.rs:224-299 | lists exactly what is missing, unreadable or wrong of artifact and build receipt |
| Certification.CheckAudit | src/receipt/release.rs:300-474 | lists exactly what the audit receipt can be blamed for; the token says match exactly when every line declares the hash on disk for at most one path |
| Certification.EvaluateCertification | src/receipt/release.rs:224-514 | CERTIFIED if and only if disk, build receipt and every audit line agree in the sense of `Certifiable`; otherwise fails and gaps are exactly the faults of the three files, and the consistency token is a match exactly when the audit matches the disk |
| Certification.VerifyReleaseReceipt | src/receipt/release.rs:134-214 | success exactly when the receipt is certified and clean, hash, audit, run ids and a declared bundle all reconcile; the problems listed are exactly the objections of `Objects` |
| Certification.CertifyThenVerify | src/receipt/release.rs:134-214 | on unchanged files verification succeeds exactly when certified, both run ids are present, non-empty and equal, and a declared bundle matches |
| Certification.CertifiedBytesOnly | src/receipt/release.rs:132-214 | whatever changes in between, bytes that pass verification are the bytes that were certified |
| Certification.CertifiedWithoutRunIds | src/receipt/release.rs:489-514 | a concrete family of receipts that is certified without any run id |

## Left out

- ChannelMeaning.ScheduleDoesNotMatter: covers the command ring within one activation; slimmable rebuilds,
  host and GUI parameter changes and activation boundaries are outside that equivalence (`Recovery` treats a
  failed activation, and the acknowledgment, ownership, origin and latency theorems cover all steps). A run may
  discard an impulse response only where `SupersessionIsExact` allows it; `LiveRunsQualify` says when that is
  every run.
- SwapDomain.InstallRespectsMeaning: the meaning of a state leaves out what depends on when callbacks end or
  what was seen on the way: published latency, reported tail and its calls, pending restart, rebuild request,
  gate flag, contract-violation flag, what the adaptive controller was told, the activation functions, the
  render mode and the GUI's cells. The theorems about those are separate.
- ChannelMeaning.OneStructuralInstallPerCallback: replay of recovered commands ignores the budget in the code
  and is not counted.
- Gestures.StreamsAreLegal: one drain is atomic against each GUI call; a begin set between two bit operations
  of a running drain is not modelled.
- ChannelProgress.ComesToRest: shows a run to rest from every state, not that the engine's drain and the host's
  callbacks take it. Coming to rest needs a ring with room for one command.
- Quiescence.FenceStopsEntries: only for the host-call coordinator; the host-log one never looks at the fence.
- Quiescence.QuiesceCanReturn: shows a way to the return from every state, not that a scheduler takes it;
  spurious wake-ups and new callers are steps like any other.
- Prewarm.StepIsLargestThatFits: over the reals; IEEE rounding is not modelled.
- Processor.Processor.ApplyParamsFromSpsc: parameter values are reals, so the defaults the sanitizer substitutes
  for NaN and infinities do not appear.
- CommandProducer.SnapshotRoundTrip: single and double precision values are reals, and the engine's decoders of
  the four enumerated parameters are assumed to invert its encoders; the engine may add snapshot fields, which
  the code would reset to their defaults.
- Processor.Processor.DiscardCommand: the remaining match arm is unreachable because the drain discards only
  commands with a coalesce key; the requires clause says so.
- Processor.Processor.RecomputeEffectiveLatency: the release build's wrapping sums; a debug build would stop on
  overflow. The gain table is taken as the identity on decibels, and the host's modulation is constant.
- The adaptive compute controller's own decisions, what the engine does with its activation functions, requests
  for slimmable rebuilds, and the GUI's cells other than the adaptive mode and the factor: engine state, one-line
  hand-overs, or further instances of the same pattern.
- Recovery.FailureThenSuccess: one failure at a time; after several the staged batches stand in reverse, which
  `ChannelReplay.ReplayOrder` describes. Discarding the DSP state after a panic is not a step of the model.
- ChannelResources.ControllersFollow: an activation builds a processor from the engine's default parameters and the
  GUI's cells; the model carries parameters and controllers over instead.
- LatestModel.WinnerRuns: a load may be deferred in the model whenever the ring is full or the plugin is inactive;
  the code defers while inactive only before the first buffer size is known.
- Building models, streams and engines inside `activate`, and the failures of a flush: only the steps that move
  commands, counters and resources are modelled, and a flushed model gets any resampler, stream and cost.
- File reading, JSON, SHA-256, clocks and logging: a file is what reading it gives, a hash is a string, time and
  mutex poisoning are nondeterministic, and the reason texts of the receipts are omitted.
- 64-bit wrap-around of sequence numbers, memory orderings weaker than sequential consistency, and deallocation
  of box shells: numbers are naturals, steps are atomic, resources are values.
- Updating resources in place inside a record: `Processor` groups the source's fields into the records of
  `SwapDomain` and replaces a record's field at a time; aliasing between fields is not modelled.
- The spin-wait for an acknowledgment, the channel's extraction and restoration behind locks, `is_active` and
  `in_flight_count`: single reads.
- The second days-to-date caller's text apart from its date, the Slint view model, window handling, instance
  counters and CPU pinning: interface plumbing.
