# Verification of the slingshot operator

This project models the stateful parts of the slingshot operator in Dafny and proves what they
promise: the CXIDriver reconciler, the retry-handler supervisor, the device plugin's allocator,
the node-label pass, the restart counter with the text it is fed from, the device watch loop, the
switch-id arithmetic and the sidecar injector. `dafny verify dfyconfig.toml` checks all of it.

## The reconciler

`Controller.dfy` is a step machine. The state holds the CXIDrivers (name, uid, resource version,
generation, deletion mark, finalizer, spec, status), the singleton ConfigMap, the DaemonSets, the
webhook configurations, a clock, and one worker with a program counter. Every client call of
`Reconcile` is one step, and its outcome is success, an error before the write took effect, or an
error after it. Between any two calls users may create, edit or delete drivers, pods may change,
the garbage collector may run, the clock may tick and the manager may be restarted. All reads go
through the manager's informer cache (cmd/main.go:210-212). The drivers' view of it may lag
arbitrarily behind the API server but never goes back, and a lookup of a DaemonSet or webhook
configuration may be answered as of an earlier time; updates of drivers are refused when the
resource version does not match.

The assumptions are: one worker, since `SetupWithManager` sets no concurrency and leader election
is on; ConfigMap reads see the worker's own writes; a restarted manager's first list of drivers is
no older than what the manager before it had seen; nobody else edits the ConfigMap, the finalizer or
the status, or writes the DaemonSets and webhook configurations. `StaleReadSeatsTwo` is a run
without the second assumption in which two live drivers are rolled out, and `OldRelistSeatsTwo` one
without the third. Within these assumptions lagging reads of drivers, DaemonSets and webhooks are
not excluded by any theorem over runs; where one matters, the theorem says so through the history of
the run (`overlooked`).

`ControllerHistory`, `ControllerElection`, `ControllerCleanup`, `ControllerStatus` and
`ControllerGeneration` each hold one invariant and show that every step keeps it.
`ControllerTheorems` draws the conclusions for all runs. `ControllerQuiet` and
`ControllerConvergence` study calls that nothing fails or disturbs. `ControllerRuns` holds the runs
that refute natural but false claims. `ControllerMethods` is the reconciler in the program's own
form: methods that change a CXIDriver object and the cluster call by call, with failures and
interference between any two calls. They are proved to make exactly the step machine's calls, with
the same arguments, and to end where the machine ends, so what is proved of the machine's runs
holds of them; and each of the machine's calls is proved to change the API server's objects as its
request says. `ControllerObserved` lifts the claims about the observed generation to whole runs,
`ControllerRemoval` follows the call that removes a driver, `ControllerOwners` asks when a rollout
outlasts the garbage collector, and `ControllerQueue` adds the work queue and the watches to ask
when a driver is looked at again. `ControllerReports` says what every status tells, kind by kind: a
refusal, the component that failed, or a complete rollout. `ControllerPending` says how every call
ends, read off its last client call, and draws the conclusion for whole runs with the queue: nothing
is forgotten (`NothingForgotten`). A driver that is neither queued nor in work, and whose present
generation the cache shows, is not marked for deletion, and its status answers that generation.

Five claims one would expect turn out false of the code, and each has its exact condition.

- "The observed generation never exceeds the generation, and never decreases." The status is
  written by name onto whatever object is there. A driver that was refused, deleted and created
  again while its refusal was being reported receives the old incarnation's status
  (`ObservedAheadOfGeneration`), and its next report may lower it again (`ObservedDecreases`). Over
  a whole run the first half holds if and only if no status write meets an object of smaller
  generation than the worker's copy (`RunWithinIff`); a step lowers a driver's observed generation
  if and only if it is a status write from a copy whose generation is below it (`LowersIff`). Only
  the report of a driver that was refused before it had the finalizer can land on another
  incarnation (`MixedOnlyRefused`), and every incarnation that did not receive another one's status
  satisfies both halves (`ObservedBounded`, `ObservedMonotone`).
- "Deleting a driver removes its webhook." Cleanup looks at the current retry-handler mode only, and
  its lookup may be answered from before the webhook was created. `CleanupLeavesIff` says exactly
  when the call that removes the driver leaves the webhook behind; `ModeEditLeaks` and
  `LaggingLookupLeaks` are runs.
- "A settled driver stays settled." An update in place keeps the owner of a predecessor's DaemonSet,
  and the garbage collector takes such a DaemonSet away. `SettledForGood` says exactly when, read off
  the state before the call, and `AdoptedRolloutCollected` is a run.
- "When the active driver is deleted, a refused one takes over." A refusal ends with an empty result,
  and the controller watches only the drivers and their DaemonSets, so nothing calls a refused driver
  again when the holder disappears (`HandOverStalls`); `FreedWhileAsleep` gives the calls after which
  the pointer is free for a driver that nobody looks at. `LooksAgainIff` says exactly which steps
  bring it back: a change that a watch can show of that very driver or its DaemonSets, or a restart.
- "Every device name survives the status text"; see below.

## The other components

`Supervisor` interleaves one goroutine per device, `Stop`, the processes and the clock.
`Stop` may miss a run that has passed the check of the stop channel but not stored its cancel
function. `MissedIff` says that these are exactly the processes that run on uncancelled, while the
context `Stop` itself does not end is alive, and `StopMayMiss` that there are such runs.
`SupervisorRounds` accounts for every round of a handler over whole runs: the restart count is the
rounds begun, less the processes that exited with status zero, less the round under way.
`SupervisorMethods` writes the goroutines and `Stop` as methods that change the handlers' fields
while everything else may move, and shows each write to be a step of the machine.
`DeviceWatch` is the debounce loop with its event queue and timer, as a machine and as a method;
`EveryArrivalServed` says that no relevant event is lost from its arrival on, and that what a
rediscovery finds is delivered.
`Allocator`, `NodeLabels`, `RestartCounter`, `StatusText` and `SidecarInjector` hold the loops of
the program as methods, each proved equal to a specification function about which the properties are proved. `Json` is a
parser for RFC 8259 (sections 2 to 7), against which the supervisor's hand-written printer is
checked; `Numerals` holds decimal and hexadecimal numerals; `Conditions` the three operations on
status conditions; `Basics` what several modules share.

`RestartRuns` composes supervisors, their text and the exporter: whole runs of supervisor steps,
replacements of the supervisor, and texts that are written, then entered or lost while the
supervisor goes on, with the true number of failed runs beside them.

The JSON round trip holds under an exact condition: `%q` writes control characters other than
backspace, tab, newline, form feed and carriage return, the delete character, and unprintable
characters beyond the basic plane, with escapes that JSON does not have. The text is a JSON document
if and only if no name contains one of them; names made of printable ASCII never do. The Unicode
table of printable characters is a parameter, so the result holds for every table.

## Model

| member | source | states |
|---|---|---|
| ControllerTheorems.SingletonSafety | internal/controller/cxidriver_controller.go:133-228 | whenever an incarnation is in the component phase, the ConfigMap names it, and every other incarnation that was in that phase earlier in the run is gone or marked for deletion; for every interleaving of calls, failures, restarts and user actions |
| ControllerTheorems.FinalizerHeld | internal/controller/cxidriver_controller.go:161-168 | an incarnation that reached the component phase carries the finalizer for as long as it exists |
| ControllerTheorems.RemovedAfterCleanup | internal/controller/cxidriver_controller.go:112-131 | such an incarnation disappears only when marked, by the update that follows a cleanup at the version that is removed; if a webhook of its name is still there then, the mode at that moment is not sidecar or a cleanup overlooked it |
| ControllerRemoval.CleanupLeavesIff | internal/controller/cxidriver_controller.go:110-131 | seen from its start, the call that removes a driver leaves the webhook behind if and only if it is there at the fetch and the mode of the copy fetched is not sidecar or the call's own lookup of it is answered as of an earlier time; through any interference between the calls |
| ControllerRemoval.OverlookedLeavesIff | internal/controller/cxidriver_controller.go:110-131 | the same through the history of the run: a webhook there at the fetch stays if and only if the mode is not sidecar or the incarnation is now among the overlooked ones, for one not among them before |
| ControllerRemoval.OverlookedRunIff | internal/controller/cxidriver_controller.go:1100-1112 | an incarnation joins the overlooked ones in a run if and only if, somewhere in it, a cleanup of that incarnation looked for a webhook that was there and was answered as of an earlier time |
| ControllerTheorems.NoWebhookLeft | internal/controller/cxidriver_controller.go:1096-1116 | once a rolled-out incarnation is gone whose retry-handler mode was never edited and whose cleanup overlooked nothing, no webhook written by it remains |
| ControllerTheorems.WebhooksOwned | internal/controller/cxidriver_controller.go:1012-1116 | while no mode was edited and no webhook overlooked, every webhook configuration was written by an existing driver in sidecar mode |
| ControllerTheorems.PersistedConsistent | internal/controller/cxidriver_controller.go:929-954 | in any run a driver's status is the empty one it was created with, or has distinct condition types and an Available condition, which is true only with Degraded absent, Progressing false, the driver agent ready and no other component not ready |
| ControllerTheorems.EveryWriteConsistent | internal/controller/cxidriver_controller.go:959-974 | every status the worker writes, in any run, is of the second kind |
| ControllerTheorems.ObservedBounded | internal/controller/cxidriver_controller.go:959-982 | the observed generation is at most the generation for every incarnation that never received a status computed for another one |
| ControllerTheorems.ObservedMonotone | internal/controller/cxidriver_controller.go:959-982 | for these no step of any run makes the observed generation smaller, across conflict retries |
| ControllerTheorems.WriteBoundedIff | internal/controller/cxidriver_controller.go:959-974 | a status write keeps the observed generation within the generation exactly if the worker's copy has no larger generation than the object written; always so for the same incarnation |
| ControllerTheorems.MixedOnlyRefused | internal/controller/cxidriver_controller.go:139-158 | a status lands on another incarnation exactly when the reported driver was deleted and created again meanwhile; its conditions then say that it was refused because another driver is active, and it had no finalizer |
| ControllerObserved.RunWithinIff | internal/controller/cxidriver_controller.go:959-974 | over a whole run all observed generations stay within the generations if and only if no status write meets an object of smaller generation than the copy's |
| ControllerObserved.LowersIff | internal/controller/cxidriver_controller.go:959-974 | a step lowers a driver's observed generation if and only if it is a status write to it from a copy whose generation is below the observed one |
| ControllerTheorems.RunInv | internal/controller/cxidriver_controller.go:91-238 | the five invariants together are kept by every run |
| ControllerElection.StepKeepsElection | internal/controller/cxidriver_controller.go:1149-1224 | every step keeps the pointer on the live rolled-out driver, and on the worker's driver once it is elected |
| ControllerCleanup.StepKeepsCleanup | internal/controller/cxidriver_controller.go:112-131 | every step keeps finalizers on rolled-out drivers and accounts for every webhook |
| ControllerStatus.StepKeepsStatus | internal/controller/cxidriver_controller.go:170-233 | every step keeps all statuses consistent, the persisted ones and the one being assembled |
| ControllerStatus.SummaryConsistent | internal/controller/cxidriver_controller.go:909-957 | after a complete rollout the summary is consistent for every node count |
| ControllerGeneration.StepKeepsGeneration | internal/controller/cxidriver_controller.go:959-974 | every step keeps the observed generation within what the cache has shown, and the worker's copy at least as recent as its own last report |
| ControllerHistory.StepKeepsHistory | internal/controller/cxidriver_controller.go:91-131 | every step keeps uids, resource versions and generations in the order the API server gives them, in the cache and in the worker's copy |
| ControllerQuiet.WorkFalls | internal/controller/cxidriver_controller.go:91-238 | every client call, whatever its outcome, brings the end of Reconcile nearer |
| ControllerQuiet.GoneClears | internal/controller/cxidriver_controller.go:96-107 | an undisturbed call for a driver that is gone clears the pointer if and only if it names that driver, and does nothing else |
| ControllerQuiet.DeletionCleans | internal/controller/cxidriver_controller.go:112-131 | an undisturbed call for a marked driver with the finalizer removes it, its webhook exactly in sidecar mode, and the pointer exactly if it names the driver, and leaves the DaemonSets alone |
| ControllerReports.EveryReportTells | internal/controller/cxidriver_controller.go:139-233 | in every reachable state the report under way tells of a refusal because of a named driver, of one enabled component that failed after those before it were rolled out, or of a complete rollout with what follows from the node counts; and the results the call may end with go with it |
| ControllerReports.FailureReported | internal/controller/cxidriver_controller.go:178-227 | after a client call for a component that fails or is not accepted, in every run, the status that the call stores says that this very component failed and those before it are ready, and the call ends with a retry in 30 seconds |
| ControllerReports.UnknownModeStored | internal/controller/cxidriver_controller.go:202-212 | an undisturbed call with an unknown retry mode stores the driver agent as ready, the device plugin as ready or absent, the retry handler as failed, and the driver as degraded and not available for that; everything else stays and the call asks for a retry in 30 seconds |
| ControllerReports.RefusalStored | internal/controller/cxidriver_controller.go:139-158 | an undisturbed call of a refused driver stores that it is ignored and because of whom, keeps every other condition and field, and is done |
| ControllerPending.HowCallsEnd | internal/controller/cxidriver_controller.go:91-238 | every call ends with a retry in 30 seconds exactly if it reports a failed component, else with one in 5 seconds exactly if its last client call failed or was not accepted, else at once exactly if it added the finalizer, and otherwise with an empty result |
| ControllerPending.TroubleEnds | internal/controller/cxidriver_controller.go:107-166 | before the rollout a client call that fails or is not accepted ends the call at once with a retry in 5 seconds, so that nothing is refused, claimed or removed on the strength of an error |
| ControllerPending.TroubleIsQueued | internal/controller/cxidriver_controller.go:107-166 | a driver whose call ends after a failed or refused client call is queued again |
| ControllerPending.NothingForgotten | internal/controller/cxidriver_controller.go:91-238 | in every run with the work queue, a driver that is neither queued nor in work and whose present generation the cache shows is not marked for deletion, and its status answers that generation with a refusal or a complete rollout |
| ControllerPending.MarkedIsAttended | internal/controller/cxidriver_controller.go:112-131 | a driver marked for deletion is queued or in work until it is gone, as soon as the cache shows the mark |
| ControllerPending.ConflictsRetried | internal/controller/cxidriver_controller.go:959-974 | a call tries to write a status at most four times; a conflict ends it on the fourth try, and before that has the same status tried again on a fresh read |
| ControllerQuiet.ReconcileIsRun | internal/controller/cxidriver_controller.go:91-238 | the undisturbed call is one of the machine's runs |
| ControllerQuiet.NoWedge | internal/controller/cxidriver_controller.go:1195-1224 | from every state whose pointer is empty or names no existing driver, one undisturbed call of any unmarked driver makes it the holder |
| ControllerQuiet.RefusedQuiet | internal/controller/cxidriver_controller.go:133-158 | an undisturbed call of a driver that may not hold the pointer leaves pointer, DaemonSets and webhooks alone |
| ControllerConvergence.ConvergesInTwo | internal/controller/cxidriver_controller.go:161-238 | an unmarked driver that may hold the pointer and has a known retry mode is settled by at most two undisturbed calls: every object equals its builder's output and the status says so |
| ControllerConvergence.ReachableConverges | internal/controller/cxidriver_controller.go:161-238 | the same from every state that any run reaches, failures and crashes included |
| ControllerConvergence.FirstCallPrepares | internal/controller/cxidriver_controller.go:161-168 | without the finalizer the call claims the pointer, adds the finalizer, changes nothing else about the drivers and asks to be requeued |
| ControllerConvergence.OneCallSettles | internal/controller/cxidriver_controller.go:170-238 | with the finalizer one undisturbed call settles the driver and returns an empty result |
| ControllerConvergence.SettlesIffModeKnown | internal/controller/cxidriver_controller.go:297-344 | with the finalizer the undisturbed call returns an empty result if and only if the retry mode is known, and otherwise asks for a retry in 30 seconds |
| ControllerConvergence.FurtherCallChangesNothing | internal/controller/cxidriver_controller.go:240-344 | a further call on a settled driver changes nothing but its resource version and transition times |
| ControllerRuns.ModeEditLeaks | internal/controller/cxidriver_controller.go:1100-1112 | in some run a driver is gone and its webhook is not |
| ControllerRuns.LaggingLookupLeaks | internal/controller/cxidriver_controller.go:1101-1112 | in some run without any mode edit a driver is gone and its webhook is not |
| ControllerRuns.ObservedDecreases | internal/controller/cxidriver_controller.go:959-974 | in some run the observed generation of an incarnation decreases |
| ControllerOwners.ReconcileOwners | internal/controller/cxidriver_controller.go:240-295 | an undisturbed call keeps the owners of existing DaemonSets, owns what it creates, and leaves the incarnations as they are |
| ControllerOwners.SettledForGood | internal/controller/cxidriver_controller.go:240-344 | the rollout of an undisturbed call outlasts a garbage collection if and only if that does not take a DaemonSet which the driver needs and which was an orphan before the call |
| ControllerOwners.AdoptedRolloutCollected | internal/controller/cxidriver_controller.go:262-265 | in some run a driver created anew is settled on its predecessor's DaemonSet and unsettled by the next collection |
| ControllerRuns.StaleReadSeatsTwo | internal/controller/cxidriver_controller.go:1149-1224 | with a stale ConfigMap read, in some run two live drivers are rolled out |
| ControllerRuns.OldRelistSeatsTwo | internal/controller/cxidriver_controller.go:1195-1224 | with current ConfigMap reads but a restarted manager that lists drivers as of an earlier time, in some run two live drivers are rolled out |
| ControllerQueue.AsleepRun | internal/controller/cxidriver_controller.go:1119-1131 | a driver that is not queued, not worked on and fully seen stays so, unchanged and without the pointer, through every run in which nobody restarts the manager or touches that driver, its pods or its DaemonSets, whatever becomes of the holder |
| ControllerQueue.LooksAgainIff | internal/controller/cxidriver_controller.go:1119-1131 | such a driver is queued after a step, once the cache has caught up, if and only if the step changed what a watch shows of it or of its DaemonSets, or was a restart with the driver listed |
| ControllerQueue.RefusalRepeats | internal/controller/cxidriver_controller.go:139-158 | refusing a driver a second time for the same holder changes nothing about it |
| ControllerQueue.RefusedOnceIsRefusedAlready | internal/controller/cxidriver_controller.go:139-158 | so the call after a written refusal finds the status as it would write it |
| ControllerQueue.RefusedFallsAsleep | internal/controller/cxidriver_controller.go:133-158 | that call ends with an empty result, the driver not queued, and the pointer as it was |
| ControllerQueue.HandOverStalls | internal/controller/cxidriver_controller.go:133-158 | after it, in every run in which nobody touches the refused driver, it is never looked at and never becomes the holder |
| ControllerQueue.FreedWhileAsleep | internal/controller/cxidriver_controller.go:112-131 | an undisturbed call that removes the holder leaves the pointer free for such a driver, and the driver unqueued |
| ControllerRuns.ObservedAheadOfGeneration | internal/controller/cxidriver_controller.go:959-974 | in some run a driver with the finalizer has an observed generation above its generation |
| ControllerMethods.Reconciler.Reconcile | internal/controller/cxidriver_controller.go:91-238 | written call by call, under any failures and interference, the call is a run of the step machine that ends with the result returned; undisturbed it is the call studied for convergence |
| ControllerMethods.EveryCallDoesItsRequest | internal/controller/cxidriver_controller.go:91-238 | every call in a reachable state changes the API server's objects exactly as its request says if it takes effect and is accepted, and otherwise not at all |
| ControllerMethods.CallReaches | internal/controller/cxidriver_controller.go:91-238 | from a reachable state such a call leads to a reachable state, so everything proved of reachable states holds after it |
| ControllerMethods.Reconciler.ReconcileFetched | internal/controller/cxidriver_controller.go:94-131 | fetch, deletion branch and not-found branch follow the machine |
| ControllerMethods.Reconciler.ReconcileLive | internal/controller/cxidriver_controller.go:133-168 | election, refusal and finalizer follow the machine |
| ControllerMethods.Reconciler.ReconcileComponents | internal/controller/cxidriver_controller.go:170-237 | the four components, their conditions and the status follow the machine |
| ControllerMethods.Reconciler.ReconcileDaemonSet | internal/controller/cxidriver_controller.go:240-295 | create-or-update sends the builder's output and reports an error exactly where the machine fails the component |
| ControllerMethods.Reconciler.ReconcileRetryHandler | internal/controller/cxidriver_controller.go:297-344 | each retry mode leads to a DaemonSet, a webhook, nothing, or an error |
| ControllerMethods.Reconciler.ReconcileSidecarWebhook | internal/controller/cxidriver_controller.go:1012-1094 | create-or-update of the webhook configuration |
| ControllerMethods.Reconciler.UpdateStatus | internal/controller/cxidriver_controller.go:909-957 | counts nodes, sets the conditions step by step and persists the machine's summary |
| ControllerMethods.Reconciler.UpdateStatusRetryOnConflict | internal/controller/cxidriver_controller.go:959-974 | re-reads and writes at most four times, retrying conflicts only |
| ControllerMethods.Reconciler.UpdateStatusWithRetry | internal/controller/cxidriver_controller.go:976-982 | records the observed generation, writes, and turns an error into a retry in 5 seconds |
| ControllerMethods.Reconciler.CleanupResources | internal/controller/cxidriver_controller.go:1096-1116 | deletes the webhook in sidecar mode only, tolerating its absence and a lookup answered as of an earlier time |
| ControllerMethods.Reconciler.FinalizeDriver | internal/controller/cxidriver_controller.go:112-131 | cleanup, then the update without the finalizer, then the pointer |
| ControllerMethods.Reconciler.GetActiveCXIDriver | internal/controller/cxidriver_controller.go:1135-1145 | the pointer, with a missing ConfigMap read as empty |
| ControllerMethods.Reconciler.SetActiveCXIDriver | internal/controller/cxidriver_controller.go:1149-1191 | a claim succeeds exactly where the machine makes the worker the holder; a clear always ends the call |
| ControllerMethods.Reconciler.IsActiveCXIDriver | internal/controller/cxidriver_controller.go:1195-1224 | claims an empty or stale pointer, and tells holder, refused and error apart as the machine does |
| ControllerMethods.CXIDriver.SetDegradedCondition | internal/controller/cxidriver_controller.go:997-1010 | afterwards Degraded is true and Available false for the given reason, every other type keeps its condition, transition times move only with the truth value, and the list is consistent if its types were distinct |
| ControllerMethods.CXIDriver.SetComponentCondition | internal/controller/cxidriver_controller.go:984-995 | the component's type shows the result, with a transition time that moves only with the truth value; every other type keeps its condition and types stay distinct |
| Supervisor.OneProcessPerDevice | pkg/retryhandler/supervisor.go:126-191 | in every interleaving at most one cxi_rh per device is alive |
| Supervisor.WaitClosedForm | pkg/retryhandler/supervisor.go:34-40 | the k-th wait is min(2^k, 60) seconds |
| Supervisor.WaitSumClosedForm | pkg/retryhandler/supervisor.go:34-40 | n >= 6 waits add up to 63 + 60 (n - 6) seconds |
| Supervisor.RestartRate | pkg/retryhandler/supervisor.go:143-191 | in every interleaving the launch n >= 6 waits after a device's first comes at least 63 + 60 (n - 6) seconds after it |
| Supervisor.LateLaunchAtMostOnce | pkg/retryhandler/supervisor.go:112-191 | after Stop has closed the channel each handler launches at most once more |
| SupervisorRounds.RoundsAccounted | pkg/retryhandler/supervisor.go:143-220 | in every run a handler's restart count is the number of rounds it began, less those whose process exited with status zero, less the one under way; so a missing binary, a failed start and any other exit each count once |
| SupervisorRounds.RunningShown | pkg/retryhandler/supervisor.go:162-219 | a handler shows running while it waits for its process, and otherwise at most until it has taken note of the end; a live process shows so as soon as the flag is set |
| SupervisorRounds.NeverGivesUp | pkg/retryhandler/supervisor.go:143-184 | a handler goroutine returns only once the stop channel is closed |
| SupervisorRounds.WaitExact | pkg/retryhandler/supervisor.go:171-189 | the k-th wait is set to exactly min(2^k, 60) seconds from the end of the run, and ends with its timer, not before |
| SupervisorRounds.NothingStartsAfterwards | pkg/retryhandler/supervisor.go:154-211 | once the parent context is done, no step of any run starts a process |
| Supervisor.ShutdownFalls | pkg/retryhandler/supervisor.go:112-220 | then every effective step of a goroutine, a process exit or Stop lowers the measure |
| Supervisor.BoundedShutdown | pkg/retryhandler/supervisor.go:112-220 | then every run has boundedly many such steps, and when none is left every goroutine has finished, no process is alive, every running flag is false and Stop has returned |
| Supervisor.OnlyArmIsMissed | pkg/retryhandler/supervisor.go:149-159 | a process that outlives Stop's cancel calls uncancelled belongs to a goroutine that had passed the check but not stored its cancel function |
| Supervisor.MissedIff | pkg/retryhandler/supervisor.go:112-159 | once Stop's cancel calls are made, a live process is uncancelled if and only if its goroutine had passed the check but not stored its cancel function when Stop came by, and the parent context lives |
| Supervisor.StopMayMiss | pkg/retryhandler/supervisor.go:112-124 | in some run Stop waits for a process that no cancel reaches |
| SupervisorMethods.Process.RunHandler | pkg/retryhandler/supervisor.go:143-191 | written as the loop runs, under any interference, a handler goroutine moves only along the machine's runs, and finishes only after the stop channel is closed |
| SupervisorMethods.Process.BeginRound | pkg/retryhandler/supervisor.go:148-160 | the check of the stop channel, the storing of the cancel function and the run |
| SupervisorMethods.Process.EndRun | pkg/retryhandler/supervisor.go:162-184 | clears the running flag, counts a failed run, and starts a wait of the present backoff unless stopped |
| SupervisorMethods.Process.Grow | pkg/retryhandler/supervisor.go:186-189 | the doubled and capped backoff is the machine's next one |
| SupervisorMethods.Process.RunCXIRH | pkg/retryhandler/supervisor.go:193-220 | missing binary, failed start and exit of the process are reported as the machine does |
| SupervisorMethods.Process.StopAll | pkg/retryhandler/supervisor.go:112-124 | closes the channel, calls the stored cancel functions in any order, and returns only when every goroutine has finished |
| SupervisorMethods.Process.StartHandler | pkg/retryhandler/supervisor.go:126-141 | at most one goroutine per device name |
| StatusText.GetStatus | pkg/retryhandler/supervisor.go:222-243 | lists every handler exactly once, in whatever order the map gives |
| StatusText.IsHealthy | pkg/retryhandler/supervisor.go:245-262 | true if and only if every handler is running |
| StatusText.WriteStatus | pkg/retryhandler/supervisor.go:284-297 | the printer writes the document of the list |
| StatusText.Fetch | pkg/metrics/helpers.go:61-91 | an error exactly for an unreachable server, a status code other than 200 or an undecodable body; otherwise the decoded handlers in order, with field names matched without regard to letter case |
| StatusRoundTrip.DocumentReads | pkg/retryhandler/supervisor.go:284-297 | what is written is one JSON document, the expected one, if and only if every device name is readable; otherwise not even its first value parses |
| StatusRoundTrip.StatusRoundTrip | pkg/metrics/helpers.go:51-91 | the exporter reads back the same devices, running flags, pids and counts in order if and only if every name is readable |
| StatusRoundTrip.ScrapeEndToEnd | pkg/metrics/exporter.go:272-287 | from the supervisor's map through text and decoder to the counter: after one scrape each handler's count is noted and its rise counted, in whatever order the map was listed |
| StatusRoundTrip.FieldAnyCase | pkg/metrics/helpers.go:51-59 | a field's name is recognised in any mixture of cases, and its last occurrence counts |
| StatusRoundTrip.GaugesEndToEnd | pkg/metrics/exporter.go:272-277 | after one scrape of its text the gauge of every handler of the supervisor shows whether that is running, and other gauges stay |
| StatusRoundTrip.CharReads | pkg/retryhandler/supervisor.go:289-290 | a character written by %q is read back by a JSON string parser exactly if the two agree on it |
| Numerals.ShowDenotes | pkg/driveragent/agent.go:505-523 | a written numeral denotes its number in base 10 and 16 |
| RestartCounter.Exporter.ScrapeRetryHandlerStatus | pkg/metrics/exporter.go:256-288 | one scrape enters every status in order and sets the gauges; an unreachable handler only counts an error |
| RestartCounter.CounterIsRises | pkg/metrics/exporter.go:279-287 | after any scrapes the counter is the sum of the positive differences seen |
| RestartCounter.GaugeShows | pkg/metrics/exporter.go:272-277 | a device's running gauge shows the flag of the last status of that device, and stays if there is none |
| RestartCounter.RisesTelescope | pkg/metrics/exporter.go:279-287 | last minus first when counts never drop |
| RestartRuns.CountFollowsFailures | pkg/retryhandler/supervisor.go:162-169 | in every state of the supervisor's invariant a device's count goes up by exactly one with each failed run of its cxi_rh |
| RestartRuns.FailuresAreRounds | pkg/retryhandler/supervisor.go:143-220 | the failures the counter is measured against are, over all supervisors, the rounds begun, less the exits with status zero, less those cut off by a new supervisor, less the one under way |
| RestartRuns.NeverOvercounts | pkg/metrics/exporter.go:272-287 | over all runs of supervisor steps, replacements, and texts written, entered or lost, with failed runs between writing and entering, the exported counter of a device never exceeds its failed runs since the writing of the first text entered that shows it, and is zero before |
| RestartRuns.ExactAfterScrape | pkg/metrics/exporter.go:272-287 | right after a text that shows the device is entered it equals the failed runs from the first writing to that of this text, if the supervisor was not replaced since the first |
| Allocator.CXIDevicePlugin.SelectPreferredDevices | pkg/deviceplugin/plugin.go:383-465 | the loops compute the selection for every sharing mode, count and list |
| Allocator.CXIDevicePlugin.SelectExclusive | pkg/deviceplugin/plugin.go:396-464 | required ids, then the preferred node's, then the others, up to the count |
| Allocator.CXIDevicePlugin.BuildNUMAMap | pkg/deviceplugin/plugin.go:468-477 | the map from device name to node; of two devices with one name the last counts |
| Allocator.CXIDevicePlugin.AdvertisedExclusive | pkg/deviceplugin/plugin.go:305-324 | the advertised ids are the device names in order |
| Allocator.CXIDevicePlugin.Allocate | pkg/deviceplugin/plugin.go:482-535 | the mounts of one container: in shared mode every device's path in order whatever the ids, in an unknown mode none, in exclusive mode only paths of devices named in the ids |
| Allocator.MountsOneMore | pkg/deviceplugin/plugin.go:494-503 | in exclusive mode each id adds the path of the first device of that name, or nothing if there is none |
| Allocator.SelectionEdges | pkg/deviceplugin/plugin.go:383-412 | nothing for a count that is not positive; in shared mode the first ids offered; and if as many are required as asked for, the first of those |
| Allocator.SelectionInOrder | pkg/deviceplugin/plugin.go:434-464 | behind the required ids come those on the preferred node, then the others, on either side in the order in which they were offered |
| Allocator.SelectionShape | pkg/deviceplugin/plugin.go:383-465 | an exclusive selection is duplicate-free, starts with the required ids, has the requested size or all there is, and is drawn from what is available |
| Allocator.SelectionOptimal | pkg/deviceplugin/plugin.go:414-464 | no admissible selection of that size has more devices on the preferred node |
| Allocator.NodeMapIs | pkg/deviceplugin/plugin.go:468-477 | with distinct names the map holds every device's own node and nothing else; any other id counts as on node 0 |
| Allocator.SelectionOptimalByDevice | pkg/deviceplugin/plugin.go:396-464 | the same over the devices' own nodes, with the preferred node that of the first required device whose node is known, failing that of the first available one |
| Allocator.MountsFollowIds | pkg/deviceplugin/plugin.go:494-519 | advertised ids are mounted one to one and in order |
| Allocator.SelectionMounted | pkg/deviceplugin/plugin.go:383-531 | so is every exclusive selection, without a duplicate mount |
| Allocator.NoSharedDevice | pkg/deviceplugin/plugin.go:487-531 | over any run of allocations and releases, through changes of the device list, no two containers have the same device mounted |
| NodeLabels.Node.UpdateNodeLabels | pkg/driveragent/agent.go:479-559 | the in-place pass yields exactly the wanted labels, and sends an update if and only if they differ from the old ones |
| NodeLabels.Node.SetSwitchLabels | pkg/driveragent/agent.go:514-536 | the pass over the devices, with its changed flag true exactly if a label changed |
| NodeLabels.Node.PruneLabels | pkg/driveragent/agent.go:538-546 | removes exactly the stale switch labels, in any order of the map |
| NodeLabels.RefinesWanted | pkg/driveragent/agent.go:485-550 | the passes over the map together give foreign labels, presence, count and switch labels |
| NodeLabels.WantedSwitchLabels | pkg/driveragent/agent.go:514-546 | a switch label exists exactly for the devices with a valid NID and shows their switch |
| NodeLabels.OthersKept | pkg/driveragent/agent.go:485-546 | every label is kept that is neither of the two always set nor of the form "slingshot.hpe.com/" + x + "-switch-id"; the two show whether there are devices and how many |
| NodeLabels.ForeignKept | pkg/driveragent/agent.go:538-546 | labels of others are kept |
| NodeLabels.HistoryForgotten | pkg/driveragent/agent.go:485-550 | after any sequence of device sets the labels depend on the last one and the foreign labels only |
| NodeLabels.SecondPassIdle | pkg/driveragent/agent.go:548-550 | with unchanged devices a second pass changes nothing |
| SwitchId.DecimalNID | pkg/deviceplugin/discovery.go:146-154 | a number in any decimal spelling, with any white space around it, is recovered if and only if it fits 32 bits |
| SwitchId.HexNID | pkg/deviceplugin/discovery.go:146-154 | the same for any hexadecimal spelling, in either case and with either prefix |
| SwitchId.WrittenNID | pkg/deviceplugin/discovery.go:146-154 | in particular for the spellings strconv writes |
| SwitchId.LineNID | pkg/deviceplugin/discovery.go:129-134 | and so as sysfs ends a line |
| SwitchId.RejectedNID | pkg/deviceplugin/discovery.go:146-154 | any other text is rejected: what is read is, between white space, decimal digits or hexadecimal ones behind 0x or 0X, and fits 32 bits |
| SwitchId.AndBits | pkg/deviceplugin/discovery.go:55-60 | a bit of the switch id is set exactly if it is in both NID and mask |
| SwitchId.DefaultSwitchID | pkg/deviceplugin/discovery.go:55-65 | for NIDs below 2^20 the default mask gives 64 (nid / 64); -1 stands for the invalid NID and no other |
| SwitchId.SameLabelSameSwitch | pkg/driveragent/agent.go:516-523 | two such devices get the same label text if and only if nid / 64 agrees |
| SwitchId.Int32Lossless | pkg/driveragent/agent.go:446-449 | the conversion to int32 loses nothing for any NID if and only if the mask is below 2^31, and otherwise wraps by a multiple of 2^32 |
| DeviceWatch.UnservedIsPending | pkg/deviceplugin/discovery.go:195-239 | an unserved event has an update pending and a timer armed or fired, and only the start of a rediscovery serves it |
| DeviceWatch.UnservedIsServed | pkg/deviceplugin/discovery.go:195-239 | unless stopped, the loop can finish what it is doing, let the timer run out and start a rediscovery for it |
| DeviceWatch.EveryRunServes | pkg/deviceplugin/discovery.go:195-239 | in every unstopped run at most two loop steps remain until a rediscovery begins for a received event, and 500 ms later the loop cannot be out of steps without having begun one |
| DeviceWatch.EveryArrivalServed | pkg/deviceplugin/discovery.go:195-239 | from an event's arrival in the backlog on: whatever else arrives and whatever the loop was doing, when an unstopped loop has run out of steps and again 500 ms later, a rediscovery has begun since the arrival, every one begun has ended, and every one that found the devices has delivered them |
| DeviceWatch.RediscoveriesAccounted | pkg/deviceplugin/discovery.go:226-238 | in every run each rediscovery begun finds the devices or fails, and each that finds them delivers them or gives them up to a stop, but for one under way |
| DeviceWatch.RateBounded | pkg/deviceplugin/discovery.go:195-239 | rediscoveries are at least 500 ms apart and no more numerous than relevant events |
| DeviceWatch.Watcher.WatchDevices | pkg/deviceplugin/discovery.go:195-239 | written as the loop runs, with its own pending flag and under any arrival of events, it moves only along the machine's runs |
| DeviceWatch.Watcher.ReceiveEvent | pkg/deviceplugin/discovery.go:206-218 | a relevant event sets the pending flag and arms the timer only if none is pending |
| DeviceWatch.Watcher.Rediscover | pkg/deviceplugin/discovery.go:226-238 | one rediscovery per fired timer, delivered, dropped on error, or given up when stopped |
| SidecarInjector.InjectionPreserves | pkg/webhook/sidecar_injector.go:154-204 | an injection keeps containers and volumes as prefixes, adds exactly one container, keeps volume names unique, makes the sidecar's mount resolve, and leaves a pod that handling does not change again |
| SidecarInjector.AtMostOneSidecar | pkg/webhook/sidecar_injector.go:132-152 | through any reinvocations and mutators that keep the number of containers of that name, a pod that starts with none has at most one |
| SidecarInjector.Injector.Handle | pkg/webhook/sidecar_injector.go:72-152 | a pod that was injected before is answered unchanged; any other gains a container of the sidecar's name if and only if its annotation is "true" or "enabled" or, without the annotation, a container or init container limits or requests a resource whose name begins with "hpe.com/cxi" |
| SidecarInjector.SidecarPlaced | pkg/webhook/sidecar_injector.go:154-244 | as a native sidecar it is the last init container, kept running, and otherwise the last container; it mounts the device directory, gets the path of cxi_rh, and the device option exactly if a container limits a CXI resource |
| SidecarInjector.Injector.Inject | pkg/webhook/sidecar_injector.go:154-195 | the step-by-step changes to the copy give the injected pod |
| SidecarInjector.Injector.DecideInjected | pkg/webhook/sidecar_injector.go:132-152 | finds the annotation or a container of the sidecar's name in either list |
| Conditions.SetFind | internal/controller/cxidriver_controller.go:984-1010 | setting a condition shows under its own type and leaves the others |
| Conditions.SetIdle | internal/controller/cxidriver_controller.go:171-176 | setting what is already there moves at most a transition time |

## Left out

- The contents of the DaemonSet and webhook builders (images, probes, mounts, environment) are uninterpreted: a template is a function of component, name and spec.
- Owner references, the CA bundle and cert-manager annotations are not modelled beyond the owner's uid that garbage collection looks at.
- Finalizers of other controllers are not modelled: a marked driver without the operator's finalizer is gone.
- Node counts are read as they are: a lagging read would count older pods, and every count gives a consistent status. A ConfigMap read by setActiveCXIDriver is current; a stale one makes its write fail, as a failing write does here.
- A client request that takes effect after the manager was restarted is not modelled; a restart falls between calls.
- The three create-or-update methods for driver agent, device plugin and metrics exporter differ only in their builder and are one method here.
- Go's int32 node counts are unbounded here; they come from DaemonSet statuses and are only subtracted for the updating count.
- ControllerQueue.LooksAgainIff: the queue is a set without delays or order; a periodic resync of the informers, which queues every driver as a restart does, is not modelled.
- ControllerPending.NothingForgotten: says nothing about whether the node counts in a status are still current; a failed count is taken as zero and not retried, as in the program.
- Disabled components keep their DaemonSets and there is no claim about them.
- ControllerQuiet.ReconcileIsRun: brings the cache up to date first, because a lagging cache may make an undisturbed call act on an older object.
- SupervisorMethods.Process.RunHandler: the endless loop and its blocking waits run for a given number of rounds, any number, since a method must end; the health server and the last error's text are left out.
- DeviceWatch.Watcher.WatchDevices: runs for a given number of rounds, any number, for the same reason; watcher errors, which are only printed, are left out.
- StatusText.GetStatus: works on the handlers as one value, while the program takes each handler's lock in turn.
- StatusRoundTrip.StatusRoundTrip: device names are Unicode text; bytes that are no UTF-8 are not modelled.
- StatusText.Fetch: the last of several members with one field's name counts; the printer never writes more than one.
- RestartRuns.NeverOvercounts: counters are integers instead of floating point, counts stay below 2^63, and the exporter itself is not restarted.
- Allocator.CXIDevicePlugin.SelectPreferredDevices: shared mode ignores required ids, as the program does; no claim is made that they are kept.
- Allocator.SelectionOptimal: is about the node the program prefers, the first one found, not about the best node.
- Shared-mode advertisement, topology hints, environment variables and health in the device plugin are left out: flat constructions.
- NodeLabels.Node.UpdateNodeLabels: the Get before and the Update after are one atomic pass; a conflicting writer makes the update fail and the pass is repeated later.
- SidecarInjector.AtMostOneSidecar: other mutators may do anything to a pod that keeps the number of containers of the sidecar's name.
- The polling fallback of the watch loop, discovery itself, driver download, archive extraction and module loading are host input and output.
- The CXIDriver validator, generated deep copies, flag parsing, gRPC registration, HTTP servers and Prometheus registration hold no deep property.
- CXIDevice objects are created and never deleted by the agent, so nothing is claimed about their set.
