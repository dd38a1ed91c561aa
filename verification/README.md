# Wapo in Dafny

Wapo runs WebAssembly programs with an asynchronous guest runtime, a host that meters and wakes them, and a
worker daemon that deploys and queries them. This project models the stateful protocols in it and proves what
they keep over whole runs.

| files | what they model |
|---|---|
| `TaskSet.dfy`, `GuestTables.dfy`, `GuestRuntime.dfy` | the host's ready queue and message queue; the guest's waker slots, free-id cache and task slots |
| `WakerProtocol.dfy`, `WakerIdentity.dfy`, `WakerProgress.dfy`, `WakerDelivery.dfy`, `WakerHandles.dfy`, `WakerTasks.dfy`, `WakerPolls.dfy` | guest polls, running tasks and concurrent host wakes, clones and drops as one step system, and its theorems |
| `WorkerModel.dfy`, `WorkerState.dfy`, `WorkerInvariants.dfy`, `WorkerTheorems.dfy`, `WorkerRuns.dfy`, `WorkerAccounts.dfy`, `WorkerOutcomes.dfy` | the worker's apps and instances: deploy, resize, demand start with eviction, query guards, clean-up after exit, metrics |
| `Metrics.dfy`, `MemoryLimits.dfy`, `Gas.dfy` | saturating metrics, the enclave memory limit, fuel and gas |
| `ModuleLoader.dfy`, `ModuleLoaderRuns.dfy`, `ModuleCache.dfy` | the single-flight compilation service with its cache, queue and threads |
| `SniAgent.dfy`, `SniAgentRuns.dfy`, `SniDelivery.dfy` | the SNI connection agent: subscriptions, queues, timeouts |
| `ArgsStack.dfy`, `OcallArgs.dfy`, `OcallDispatch.dfy`, `OcallReturns.dfy` | the ocall ABI: arguments into words and back, tagged results, the two-phase return buffer |
| `HostRequests.dfy`, `HostRequestRuns.dfy`, `HostDelivery.dfy` | the resource table, and the queries and HTTP requests pushed to a guest through it |
| `Downloader.dfy` | the IPFS downloader's queue |

Two layers recur. Code that updates state is a class, and each of its methods is proved equal to a function on
values (`Model() == Spec(old(Model()), ...)`). Concurrency is a `Step` datatype over those functions, one step per
lock region; `Enabled`, `Apply`, `IsRun` and `Exec` give the runs, and the theorems quantify over every run or every
reachable state. Ghost bookkeeping in the run states (generations of wakers, serial numbers of apps and
compilations, lists of what was handed out, answered or merged) says who is who; no step decides by it.

Choices the source leaves to its environment are inputs of the steps: which future a task spawns and when it ends,
whether a compilation succeeds, which app a hash map offers first for eviction, meter readings, and time as a
counter that never goes back.

Points where the code departs from what one would expect, and what is proved there:

- The halves of a 64-bit ocall argument are joined with a bitwise and. `OcallArgs.WideArrives` says what arrives, and
  `OcallDispatch.ArgsRoundTripIff` that arguments survive exactly when every 64-bit one is zero.
- The query counter is a plain `usize` in a release build, so it wraps. `WorkerRuns.StaleGuardUnderflows` reaches the
  wrap with a guard that outlives its app. Counting is exact in runs that never deploy at an address where such a guard
  is left (`WorkerRuns.GuardsAreCounted`), and `WorkerRuns.CalmIff` says that this is the condition.
- Ending a query can lose readings: of the query's own instance, and of all instances of an on-demand app that falls
  idle. `WorkerTheorems.EndQueryLoses` says which, `WorkerTheorems.EndQueryConservesIff` when nothing is lost, and
  `WorkerRuns.IdleClearLosesReading` reaches the second case.
- Resizing an app that is neither resizable nor running to more than one instance fails after it has started the first:
  `WorkerOutcomes.PlainGrowth` gives the condition and what is left.
- The timeout scan of a connection queue reads the clock at every entry, so it need not remove a prefix:
  `SniAgentRuns.AdvancingClockSkips`, with the exact condition in `SniAgents.PrefixForEveryTimeoutIff`.
- A guest may close or answer through an entry before it has received the message that names it:
  `HostRequestRuns.ImpoliteGuestLosesReply`, with the exact condition in `HostRequestRuns.PoliteIff`.
- The ready queue looks back eight entries for duplicates: `TaskSets.PushDuplicatesIff` is the exact condition.
- Rounding a size up to pages wraps near the top of `u64`: `MemoryLimits.PagesRoundUpIff`.
- A result of 2 GiB or more does not reach the guest: `OcallReturns.OcallEnv.CallEncodedOutput`.
- `sni-tls-listener/src/agent/tests.rs:139-144` expects a domain's listener subscription to survive the last drop;
  `sni-tls-listener/src/agent.rs:346-353` removes it. The model follows the code.

## Model

| member | source | states |
|---|---|---|
| TaskSets.PushRefinesSet | wapo-host/src/runtime/vm_context.rs:73-79 | as a set a push adds exactly its id, nothing queued moves, and any nine neighbours stay distinct |
| TaskSets.PopRefinesSet | wapo-host/src/runtime/vm_context.rs:81-83 | a pop removes only the front entry and keeps neighbours distinct |
| TaskSets.FewIdsNoDuplicates | wapo-host/src/runtime/vm_context.rs:73-79 | with at most eight ids in play the queue has no duplicate and at most eight entries |
| TaskSets.QueueHistory | wapo-host/src/runtime/vm_context.rs:63-88 | over any sequence of pushes and pops neighbours stay distinct, and with at most eight ids there is never a duplicate |
| TaskSets.PushDuplicatesIff | wapo-host/src/runtime/vm_context.rs:73-79 | a push duplicates an id exactly when the id sits further back than the look-back reaches |
| TaskSets.TaskSet.WithTask0 | wapo-host/src/runtime/vm_context.rs:64-71 | starts with task 0 ready and no messages |
| TaskSets.TaskSet.PushTask | wapo-host/src/runtime/vm_context.rs:73-79 | the queue becomes the specified push of the old one |
| TaskSets.TaskSet.PopTask | wapo-host/src/runtime/vm_context.rs:81-83 | returns and removes the front, or nothing on empty |
| TaskSets.TaskSet.IsEmpty | wapo-host/src/runtime/vm_context.rs:85-87 | true exactly on the empty queue |
| TaskSets.TaskSet.PushWake | wapo-host/src/runtime/async_context.rs:60-65 | a wake appends the id itself |
| TaskSets.TaskSet.PushDrop | wapo-host/src/runtime/async_context.rs:36-43 | a drop appends minus one minus the id |
| TaskSets.TaskSet.DrainWakers | wapo-host/src/runtime/vm_context.rs:445-454 | hands over all messages in order and empties the queue |
| GuestTables.FreeIdsFacts | wapo-env/src/tasks.rs:58-75 | a scan finds distinct empty slots, and finds none only when all are live |
| GuestTables.RefilledFacts | wapo-env/src/tasks.rs:58-75 | refilling keeps cached ids distinct, empty and at most 1024, and leaves none exactly when every slot is live |
| GuestTables.InternTakesFreeSlot | wapo-env/src/tasks.rs:83-99 | a waker takes an empty slot and disturbs no other; the table grows only when all are live; panics exactly when all are live at the limit |
| GuestTables.DropKeepsTableIff | wapo-env/src/tasks.rs:111-119 | a drop frees exactly its slot; the cache stays sound exactly when the id is not cached already or the cache is full |
| GuestTables.StartTakesFreeSlot | wapo-env/src/tasks.rs:168-191 | a started future never displaces a live task or slot 0; fails exactly when all slots are taken at the limit |
| GuestTables.StartedAllReady | wapo-env/src/tasks.rs:193-199 | all futures of one batch hold slots of their own and are queued; nothing live moved |
| GuestRuntimes.GuestRuntime.MaybeCacheWakerId | wapo-env/src/tasks.rs:49-56 | caches an id up to the limit |
| GuestRuntimes.GuestRuntime.GetFreeWakerId | wapo-env/src/tasks.rs:58-75 | the scan loop refills the cache as specified and takes its first id |
| GuestRuntimes.GuestRuntime.InternWaker | wapo-env/src/tasks.rs:83-99 | the table becomes the specified interning of the old one |
| GuestRuntimes.GuestRuntime.WakeWaker | wapo-env/src/tasks.rs:101-109 | wakes what the slot holds, ignores an empty slot |
| GuestRuntimes.GuestRuntime.DropWaker | wapo-env/src/tasks.rs:111-119 | the table becomes the specified drop of the old one |
| GuestRuntimes.GuestRuntime.HandleWakers | wapo-env/src/tasks.rs:240-249 | the message loop applies all wakes and drops in order |
| GuestRuntimes.GuestRuntime.StartTask | wapo-env/src/tasks.rs:168-191 | the scan loop takes the least free slot after 0 and queues it |
| GuestRuntimes.GuestRuntime.StartSpawnedTasks | wapo-env/src/tasks.rs:193-199 | starts every spawned future in order, or stops where the source panics |
| WakerIdentity.DrainedMessageReachesItsWaker | wapo-env/src/tasks.rs:83-119 | in every reachable state the next message names a live slot holding the very waker its host handle was created for |
| WakerIdentity.InternedIdIsUnreferenced | wapo-env/src/tasks.rs:77-99 | an id is given out only when no handle, no undelivered message and no earlier interning of it is outstanding |
| WakerIdentity.PendingIsWakesThenOneDrop | wapo-host/src/runtime/async_context.rs:36-65 | per id the undelivered messages are wakes of one waker followed by at most one drop |
| WakerIdentity.TableLengthIsPeak | wapo-env/src/tasks.rs:47-119 | the waker table is exactly as long as the most wakers ever live at once, its cache is sound, and no live slot is unaccounted for |
| WakerIdentity.StepKeepsIdInv | wapo-host/src/runtime/async_context.rs:36-112 | every step of polls, tasks and host handles keeps the identity invariant |
| WakerProgress.NoStall | wapo-host/src/run.rs:247-268 | between polls a ready task or undelivered wake always has a signalled, or about to be signalled, executor |
| WakerProgress.FifoOrder | wapo-host/src/runtime/vm_context.rs:271-274 | whatever is pushed meanwhile, the id at position p moves up one place per pop and is the one returned by pop number p |
| WakerProgress.OnePopPerPoll | wapo-env/src/tasks.rs:235-285 | each poll asks for exactly one task |
| WakerProgress.PolledByItsTurn | wapo-env/src/tasks.rs:251-262 | in every run with that many polls, the id at position p is returned by the (p+1)-th poll from then, and if its task is live at that moment the poll then runs it |
| WakerProgress.PopIsPolled | wapo-env/src/tasks.rs:251-262 | in every run, whenever a pop returns the id of a live task, the next state is inside the poll of that very task |
| WakerProgress.ReadyUntilPopped | wapo-host/src/runtime/vm_context.rs:73-83 | a ready task stays ready until it is popped |
| WakerProgress.WakeIsNotLost | wapo-host/src/runtime/async_context.rs:67-75 | a task marked ready, by itself or by either half of a wake, is queued later on unless it was popped since |
| WakerDelivery.WakeMessageIsNotLost | wapo-host/src/runtime/async_context.rs:60-75 | from the push of a wake message on, in every continuation the message is pending, or the guest task of the waker interned for its handle is ready or was popped |
| WakerHandles.HostWakeMarksCaller | wapo-host/src/runtime/async_context.rs:126-145 | if a waker id is passed to an ocall while task t runs, then after any later push of the host half of a wake of that handle, t is queued or was popped since |
| WakerHandles.GuestWakeMarksTarget | wapo-env/src/tasks.rs:83-109 | if a waker is interned for a task, then after any later push of a wake message of its handle the message is pending, or that task is queued or was popped since |
| WakerHandles.HandleLivesWhileReferenced | wapo-host/src/runtime/async_context.rs:36-58 | in every run a handle has the references it had, plus clones, minus drops, and exists exactly while that is positive |
| WakerHandles.DropsRelease | wapo-host/src/runtime/async_context.rs:36-43 | a handle that no thread is waking can be dropped once per reference; the last drop, and only that, sends the guest one drop message |
| WakerHandles.WakeCompletes | wapo-host/src/runtime/async_context.rs:60-75 | every handle can be woken at any moment; both halves are pushed and the executor is signalled, whatever the guest is doing |
| WakerProgress.SpawnedIsReadyAfterPoll | wapo-env/src/tasks.rs:193-199 | a future waiting to be started during a poll holds its own slot and is queued when that poll is over |
| WakerTasks.SpawnIsReadyAfterPoll | wapo-env/src/tasks.rs:141-166 | from the spawn on: in every run to the end of the poll, the spawned future holds a slot of its own and is queued |
| WakerTasks.EndOutcome | wapo-env/src/tasks.rs:259-275 | the end of a task's poll empties its slot exactly if it finished, leaves all others, and exits exactly if it was the main task |
| WakerTasks.ExitedIffMainIsGone | wapo-env/src/tasks.rs:259-275 | in every reachable state the guest has exited exactly when the main task is gone |
| WakerTasks.FinishedNeverRunsAgain | wapo-env/src/tasks.rs:259-275 | in every run, a future that finished is never in a slot again |
| WakerPolls.FirstPollRunsMain | wapo-host/src/runtime/vm_context.rs:64-71 | the first poll of a guest runs its main task |
| WakerPolls.PollFinishes | wapo-env/src/tasks.rs:235-285 | from every state inside a poll, its own steps lead to its end, within as many steps as there are messages and new futures and six more, as long as the new futures find slots |
| WakerPolls.PollAlwaysFinishes | wapo-env/src/tasks.rs:235-285 | so in every reachable state the guest has exited or can reach its next poll without any step of the host |
| WakerPolls.NoPollForNothing | wapo-host/src/run.rs:247-268 | a poll uses up the signal it answers: unless a wake signals meanwhile, another is asked for only if a task is ready or a message waits |
| Meters.MergeSwap | wapo-host/src/runtime/metrics.rs:32-46 | two saturating merges commute |
| Meters.MergeAnyOrder | wapo-host/src/runtime/metrics.rs:32-81 | the total of any readings does not depend on the order of merging, saturation included |
| Meters.MergeShows | wapo-host/src/runtime/metrics.rs:32-46 | merging nothing changes nothing, and one more of everything shows unless every counter is saturated |
| Meters.MergedTotals | wapo-host/src/runtime/metrics.rs:32-81 | each merged counter is the plain sum of that counter over all readings, cut off at the maximum of its type; used storage is dropped |
| WorkerStates.WorkerState.constructor | wapod/src/state.rs:203-225 | no apps, all slots free |
| WorkerStates.WorkerState.RunningInstances | wapod/src/state.rs:827-829 | the loop sums the instances of all apps |
| WorkerStates.WorkerState.AvailableSlots | wapod/src/state.rs:822-825 | slots not taken, never negative |
| WorkerStates.WorkerState.StartApp | wapod/src/state.rs:627-718 | refuses without demand an app that is not resizable and runs already, else records one new instance |
| WorkerStates.WorkerState.ReserveSlotIfNeeded | wapod/src/state.rs:721-749 | evicts the specified victim's youngest instance when nothing is free |
| WorkerStates.WorkerState.Adjust | wapod/src/state.rs:765-801 | grows within the free slots or shrinks to the count; `WorkerOutcomes.PlainGrowth`, `DemandGrowth` and `ResizeDown` say by how much and when it is refused |
| WorkerStates.WorkerState.StartMany | wapod/src/state.rs:782-785 | the loop starts the given number |
| WorkerStates.WorkerState.StopMany | wapod/src/state.rs:788-798 | the loop stops the given number, youngest first, folding each reading |
| WorkerStates.WorkerState.ResizeAppInstances | wapod/src/state.rs:751-801 | the worker becomes the specified resize of the old one, whose every outcome is given by `WorkerOutcomes.PlainGrowth`, `DemandGrowth`, `ResizeDown` and `WorkerTheorems.DemandStart` |
| WorkerStates.WorkerState.TryIncInstances | wapod/src/state.rs:803-820 | one more instance on demand; `WorkerOutcomes.IncreaseOutcome` says exactly when |
| WorkerStates.WorkerState.BeginQuery | wapod/src/state.rs:303-329 | checks the app and the payload, counts the query |
| WorkerStates.WorkerState.EndQuery | wapod/src/state.rs:364-384 | removes the query's own instance, or uncounts it and clears an idle on-demand app |
| WorkerStates.WorkerState.DeployApp | wapod/src/state.rs:494-549 | records a new app unless the manifest or the address is refused |
| WorkerStates.WorkerState.RemoveApp | wapod/src/state.rs:551-566 | removes the app and its instances |
| WorkerStates.WorkerState.CleanUp | wapod/src/state.rs:692-712 | folds an exited instance that is still recorded |
| WorkerTheorems.ResizedKeepsInv | wapod/src/state.rs:751-801 | a resize keeps capacity, instance ownership, the fold log and all other app data |
| WorkerTheorems.IncreasedKeepsInv | wapod/src/state.rs:803-820 | so does a demand increase |
| WorkerTheorems.DemandStart | wapod/src/state.rs:721-786 | fails exactly when every slot is taken and no app with instances is resizable, and then changes nothing; else ends with the stated number of instances, at least one |
| WorkerTheorems.DemandStartEvicts | wapod/src/state.rs:721-749 | evicts only when no slot was free, and then exactly the youngest instance of another, resizable, never on-demand app |
| WorkerTheorems.StopsYoungest | wapod/src/state.rs:788-798 | shrinking keeps the oldest instances and reports exactly the others |
| WorkerOutcomes.PlainGrowth | wapod/src/state.rs:774-786 | growth without demand is refused as on-demand-only exactly for an on-demand app, which stays as it was, and as already started exactly for one that is not resizable and would get a second instance; else exactly the free slots or the missing number, whichever is less, are added and reported, and the old instances stay |
| WorkerOutcomes.DemandGrowth | wapod/src/state.rs:774-786 | growth on demand that needs no eviction never fails and adds exactly that many |
| WorkerOutcomes.ResizeDown | wapod/src/state.rs:788-798 | a resize to no more than the current count always succeeds and leaves exactly that many, the oldest |
| WorkerOutcomes.IncreaseOutcome | wapod/src/state.rs:803-820 | an increase fails exactly for an app without instances when there is nothing to get; else a running app gets one more if a slot is free and none otherwise, and one without instances gets one |
| WorkerOutcomes.NumbersAreNew | wapod/src/state.rs:627-718 | the numbers given to new instances belong to no instance that runs or ever ran |
| WorkerOutcomes.BeginOutcome | wapod/src/state.rs:303-329 | a query is refused exactly for an unknown app or an oversized payload, and then changes nothing |
| WorkerOutcomes.PreparedOutcome | wapod/src/state.rs:303-361 | counting a query and starting what it needs fails exactly when its app needs an instance, has none and there is nothing to get; else an on-demand app, and any that does not reuse instances, has one afterwards, and an app that reuses and runs keeps exactly what it has |
| WorkerOutcomes.EndQueryOutcome | wapod/src/state.rs:364-384 | the end of a query fails exactly for an unknown app or instance; else it takes out its own instance, or counts down and takes out only what falls idle |
| WorkerOutcomes.DeployOutcome | wapod/src/state.rs:494-549 | each refusal of a deployment has its exact condition; an accepted app starts with no instances, no queries and no history |
| WorkerOutcomes.RemoveOutcome | wapod/src/state.rs:551-566 | a removal fails exactly for an unknown app, takes out the app with all its slots and nothing else |
| WorkerOutcomes.CleanUpOutcome | wapod/src/state.rs:692-712 | after the clean-up the instance is not recorded, and if it was, its reading is in the history |
| WorkerTheorems.AppMetricsSplit | wapod/src/state.rs:92-97 | any one instance may be merged last into an app's metrics |
| WorkerTheorems.StoppedConserves | wapod/src/state.rs:791-797 | stopping one instance leaves every app's metrics as they were |
| WorkerTheorems.StoppedNConserves | wapod/src/state.rs:788-798 | so does shrinking by any number |
| WorkerTheorems.ResizedConserves | wapod/src/state.rs:751-801 | a resize with eviction loses no metrics; only the growing app may change |
| WorkerTheorems.CleanUpConserves | wapod/src/state.rs:699-710 | the clean-up after an exit loses none, whoever removed the instance first |
| WorkerTheorems.EndQueryLoses | wapod/src/state.rs:364-384 | ending a query loses exactly the readings of the instances it takes out and changes no other app; it takes out its own instance if that is there, all of an on-demand app that falls idle with it, and else none |
| WorkerTheorems.EndQueryConservesIff | wapod/src/state.rs:364-384 | it conserves the metrics for all readings if and only if it takes out none or every counter of the history is saturated |
| WorkerTheorems.HistoryInRange | wapod/src/state.rs:692-798 | in every state of a run the history's counters fit their types |
| WorkerRuns.StepKeepsInv | wapod/src/state.rs:303-566 | every operation keeps the worker invariant |
| WorkerRuns.CapacityHolds | wapod/src/state.rs:751-829 | in every run the instances of all apps are at most the limit |
| WorkerRuns.MergedAtMostOnce | wapod/src/state.rs:692-798 | in every run an instance is folded at most once, only into the app it was started for, and each history is exactly those folds |
| WorkerAccounts.EveryInstanceIsAccounted | wapod/src/state.rs:364-798 | in every run each instance ever started for a deployed app is exactly one of live, folded once, and discarded by the end of a query |
| WorkerAccounts.StepKeepsAccounts | wapod/src/state.rs:303-820 | every operation keeps that account |
| WorkerRuns.IdleClearLosesReading | wapod/src/state.rs:376-381 | a reachable state where ending the only query of an on-demand app clears it and loses a reading |
| WorkerRuns.StepKeepsCalm | wapod/src/state.rs:303-566 | while no address is deployed with guards without an instance left there, such guards belong to the app at their address and none is charged to another |
| WorkerRuns.CalmIff | wapod/src/state.rs:494-549 | a deployment is of that kind if and only if no guard that is left can end on the new app and wrap its counter |
| WorkerRuns.GuardsAreCounted | wapod/src/state.rs:99-134 | in every run of such steps the counter is live guards plus guards ended with an instance |
| WorkerRuns.CountedIffNeverCharged | wapod/src/state.rs:99-134 | in every run at all that holds if and only if no guard of an earlier app was charged to the app |
| WorkerRuns.EndQueryClearsIff | wapod/src/state.rs:364-384 | in every run of such steps the decrement never underflows and clears an on-demand app exactly when no other guard is left and none ended with an instance |
| WorkerRuns.StaleGuardUnderflows | wapod/src/state.rs:99-134 | a reachable state where a guard that outlived its app wraps the next app's counter |
| MemoryLimits.PagesRoundUpIff | wapod/src/state.rs:621-624 | pages are the least that cover a size exactly when the rounding does not wrap |
| MemoryLimits.ValidatesIff | wapod/src/bin/args/mod.rs:122-147 | arguments validate exactly when that many instances with their overhead fit beside the system's |
| MemoryLimits.InstancesFitEnclave | wapod/src/bin/args/mod.rs:122-147 | in every run of a worker with validated arguments the recorded instances fit into the enclave |
| Gas.Store.SyncGas | wapo-host/src/run.rs:285-294 | charges and refills above the threshold, else leaves all as it is |
| Gas.RunAccounts | wapo-host/src/run.rs:285-294 | in every run burned fuel is charged gas within one sixteenth plus what is pending |
| Gas.GasTracksFuel | wapo-host/src/run.rs:285-294 | after any synchronisation 1024 G <= F <= 1088 G + 16384 |
| ModuleLoaders.ModuleLoader.constructor | wapo-host/src/module_loader.rs:42-58 | empty cache, queue and work |
| ModuleLoaders.ModuleLoader.LoadModule | wapo-host/src/module_loader.rs:77-111 | hit, join, refuse or queue and spawn; `ModuleLoaderRuns.RequestOutcome` says exactly when |
| ModuleLoaders.ModuleLoader.NextHash | wapo-host/src/module_loader.rs:137-151 | takes the first queued hash, or retires the thread |
| ModuleLoaders.ModuleLoader.FinishCompilation | wapo-host/src/module_loader.rs:153-171 | retires the entry, caches a success, hands on the outcome; `ModuleCache.HitIffRecentlyUsed` says what the cache then gives |
| ModuleLoaders.ModuleLoader.ServeCompilation | wapo-host/src/module_loader.rs:137-171 | a thread that nobody interrupts empties the queue, retires exactly that work, fills the cache in hash order, as `ModuleCache.HitIffRecentlyUsed` observes it, and leaves |
| ModuleLoaderRuns.RequestOutcome | wapo-host/src/module_loader.rs:77-111 | exactly when a request is a hit, joins, is refused or is queued, and when a thread is added |
| ModuleLoaderRuns.PopOutcome | wapo-host/src/module_loader.rs:137-151 | a thread takes the least queued hash and leaves exactly when none is queued |
| ModuleLoaderRuns.FinishOutcome | wapo-host/src/module_loader.rs:153-171 | in every run the end of a compilation tells exactly the callers that wait for its hash, and tells success exactly if the compiler did |
| ModuleCache.HitIffRecentlyUsed | wapo-host/src/module_loader.rs:77-171 | in every run, after a hash was compiled or hit, a request for it is a hit exactly if fewer other hashes than the capacity were compiled or hit since |
| ModuleLoaderRuns.WorkIsPartitioned | wapo-host/src/module_loader.rs:77-171 | in every run work in progress is the disjoint union of queued and held hashes, one thread each, within all limits; queued work has a thread; the missing-entry branch is unreachable |
| ModuleLoaderRuns.RequestsAreTaken | wapo-host/src/module_loader.rs:77-111 | in every run a request is refused with nothing changed, answered at once for its hash, or on record as waiting for it |
| ModuleLoaderRuns.CallersGetTheirOutcome | wapo-host/src/module_loader.rs:77-118 | in every run a caller that joined and did not cancel still waits or has the outcome that retired its own request, for its own hash |
| ModuleLoaderRuns.QuietMeansAnswered | wapo-host/src/module_loader.rs:112-118 | once no thread can move, every such caller has it |
| ModuleLoaderRuns.EveryCallerIsAnswered | wapo-host/src/module_loader.rs:77-171 | from any point of any run the threads alone can finish, in boundedly many steps, and however they do every such caller is answered |
| ModuleLoaderRuns.HitsAreCompilations | wapo-host/src/module_loader.rs:85-88 | a cache hit is a successful compilation of that hash |
| ModuleLoaderRuns.ThreadStepDecreases | wapo-host/src/module_loader.rs:137-171 | each thread step lowers a measure |
| ModuleLoaderRuns.ThreadRunIsBounded | wapo-host/src/module_loader.rs:137-171 | without new requests the threads take boundedly many steps |
| ModuleLoaderRuns.NoDeadlock | wapo-host/src/module_loader.rs:77-171 | a thread can move until nothing is in progress and nobody waits |
| SniAgents.TimeoutRemovesTooOld | sni-tls-listener/src/agent.rs:122-125 | a scan that reads the clock once per entry keeps exactly the connections that are not too old when it comes to them, in order |
| SniAgents.RetainedIsRest | sni-tls-listener/src/agent.rs:122-125 | when those too old are the first k, what is left is the queue from k on |
| SniAgents.PrefixForEveryTimeoutIff | sni-tls-listener/src/agent.rs:122-125 | a scan removes a prefix for every timeout if and only if measured ages never rise along the queue |
| SniAgents.OneReadingRemovesPrefix | sni-tls-listener/src/agent.rs:122-125 | in a queue in time order that is so when the clock stands still during the scan |
| SniAgents.AgentState.constructor | sni-tls-listener/src/agent.rs:178-196 | no subscribers |
| SniAgents.AgentState.Send | sni-tls-listener/src/agent.rs:94-99 | buffers into a channel with room, else fails |
| SniAgents.AgentState.Subscribe | sni-tls-listener/src/agent.rs:248-319 | a new subscription that gets the oldest waiting connection |
| SniAgents.AgentState.DispatchConnection | sni-tls-listener/src/agent.rs:321-337 | sends, queues or refuses; `SniDelivery.DispatchOutcome` says exactly when |
| SniDelivery.DispatchOutcome | sni-tls-listener/src/agent.rs:321-337 | in every run a connection is refused exactly without an entry, or in reuse mode when the channel of the oldest subscription is taken; in reuse mode it goes to the oldest subscription, else to the end of the queue |
| SniDelivery.SubscribeOutcome | sni-tls-listener/src/agent.rs:248-319 | an accepted subscription adds one new id to its domain and takes the oldest waiting connection; a refused one changes nothing |
| SniDelivery.UnsubscribeOutcome | sni-tls-listener/src/agent.rs:341-344 | afterwards the domain has no entry, and no other domain has changed |
| SniDelivery.DropOutcome | sni-tls-listener/src/agent.rs:346-353 | a dropped subscription leaves its list if it is on it, the domain goes exactly with the last one, and each error has its exact condition |
| SniAgents.AgentState.Unsubscribe | sni-tls-listener/src/agent.rs:341-344 | removes the domain's entry |
| SniAgents.AgentState.RemoveSub | sni-tls-listener/src/agent.rs:346-353 | removes one subscription, and the entry with the last one |
| SniAgents.AgentState.ClearTimeoutConnections | sni-tls-listener/src/agent.rs:122-125 | the retain loop, with one clock reading per entry, is the specified scan |
| SniAgentRuns.StepKeepsInv | sni-tls-listener/src/agent.rs:242-353 | every operation keeps the agent invariant |
| SniAgentRuns.EntriesAreServed | sni-tls-listener/src/agent.rs:248-353 | in every run an entry has a subscription, all its receivers are alive, and in reuse mode nothing waits |
| SniAgentRuns.ExclusiveHandsOutOnce | sni-tls-listener/src/agent.rs:248-337 | in exclusive mode a subscription is handed at most one connection ever |
| SniAgentRuns.ExactlyOnePlace | sni-tls-listener/src/agent.rs:248-353 | in every run a dispatched connection is in exactly one of queued, handed to one subscription and dropped; no connection is handed out twice |
| SniAgentRuns.ReceivesItsOwn | sni-tls-listener/src/agent.rs:59-69 | a subscriber receives only connections handed to it, for its domain |
| SniDelivery.HandedIsDelivered | sni-tls-listener/src/agent.rs:59-108 | in every run the connections handed to a living subscription are, in order, those it received and then those in its channel |
| SniDelivery.StepDelivers | sni-tls-listener/src/agent.rs:242-353 | every operation keeps that for all subscriptions |
| SniAgentRuns.HandedInDispatchOrder | sni-tls-listener/src/agent.rs:248-337 | per domain connections are handed out in dispatch order |
| SniAgentRuns.TimeoutScan | sni-tls-listener/src/agent.rs:297-304 | in every run and for all readings a timeout keeps exactly what was queued less than the timeout before its reading, in order; it removes a prefix for every timeout exactly when measured ages do not rise, as when the clock stands still |
| SniAgentRuns.AdvancingClockSkips | sni-tls-listener/src/agent.rs:122-125 | a reachable queue and readings where the first connection stays and the second is dropped |
| SniAgentRuns.NewSubscriptionIsNew | sni-tls-listener/src/agent.rs:49-57 | in every run a new subscription has an id that none ever had |
| SniAgentRuns.StaleDropChangesNothing | sni-tls-listener/src/agent.rs:346-353 | dropping a subscription that its entry no longer lists changes neither the agent nor what is given up |
| SniAgentRuns.DropRemovesOnlyItself | sni-tls-listener/src/agent.rs:71-79 | dropping a subscription leaves every other one and its queue alone |
| ArgsStack.DumpIsWords | wapo-env/src/args_stack.rs:60-105 | a dump is the stack's words in travel order followed by zeros, for any buffer size |
| ArgsStack.LoadTakesNArgs | wapo-env/src/args_stack.rs:60-96 | loading succeeds exactly with enough words and takes exactly N_ARGS of them |
| ArgsStack.LoadIsWords | wapo-env/src/args_stack.rs:60-96 | what is loaded, written as words, is what was read |
| ArgsStack.LoadDump | wapo-env/src/args_stack.rs:16-30 | a stack that fits comes back unchanged |
| ArgsStack.DumpLoad | wapo-env/src/args_stack.rs:16-30 | dumping what was loaded gives the words back |
| OcallArgs.FromToI32 | wapo-env/src/args_stack.rs:293-472 | every value of every one-word type survives |
| OcallArgs.ToFromI32 | wapo-env/src/args_stack.rs:293-472 | a word is accepted only if it is the encoding of what it decodes to |
| OcallArgs.WideArrives | wapo-env/src/args_stack.rs:347-384 | of a 64-bit value the high half arrives if bit 31 is set, and zero otherwise |
| OcallArgs.WideSurvivesIffZero | wapo-env/src/args_stack.rs:347-384 | a 64-bit value survives exactly when it is zero |
| OcallDispatch.ArgsArrive | wapo-macro/src/macro_ocall.rs:165-176 | any argument list that fits reaches the host in order, 64-bit values as above |
| OcallDispatch.ArgsRoundTripIff | wapo-macro/src/macro_ocall.rs:343-349 | it is unchanged exactly when every 64-bit argument is zero |
| OcallDispatch.OnlyEncodingsAccepted | wapo-macro/src/macro_ocall.rs:165-176 | without 64-bit arguments, words are accepted only if they are the encoding of what they decode to |
| OcallDispatch.DecodeErrors | wapo-macro/src/macro_ocall.rs:165-176 | a call is refused for its parameters exactly when words are missing or a slice, found at its place among the words, is outside memory; every other refusal is for the encoding of a value |
| OcallReturns.RetRoundTrip | wapo-env/src/args_stack.rs:474-502 | every success value and every error code survives the 64-bit packing |
| OcallReturns.RetEncodingIff | wapo-env/src/args_stack.rs:488-502 | an accepted integer is the encoding of what is read exactly when its tag is 0 or 1 |
| OcallReturns.FastReturnRoundTrip | wapo-macro/src/macro_ocall.rs:366-367 | a fast call's typed result reaches the guest unchanged |
| OcallReturns.WordRoundTrip | wapo-env/src/args_stack.rs:479-502 | an integer put into a word and read back is what a cast to `i32` gives |
| OcallReturns.SignedRetRoundTrip | wapo-env/src/args_stack.rs:479-502 | a length returned through the 64-bit packing is read as that cast |
| OcallReturns.OcallEnv.PutReturn | wapo-host/src/runtime/vm_context.rs:217-221 | keeps the value and returns its length |
| OcallReturns.OcallEnv.TakeReturn | wapo-host/src/runtime/vm_context.rs:223-225 | hands the value over and forgets it |
| OcallReturns.OcallEnv.GetReturn | wapo-macro/src/macro_ocall.rs:213-228 | succeeds exactly for a kept value, its exact length and a buffer inside memory; writes exactly that buffer; the value is gone either way |
| OcallReturns.OcallEnv.CallEncodedOutput | wapo-macro/src/macro_ocall.rs:369-387 | with both lengths sent through the 64-bit packing, the guest gets exactly the host's bytes if and only if they are fewer than 2^31; errors pass through and leave the kept value as it was, a fetch takes it, a length read as negative leaves it kept; other memory is untouched |
| HostRequests.PushTakesLeastFree | wapo-host/src/runtime/resource.rs:224-243 | a push takes the least id that is not live and changes nothing else; it fails exactly when all 8192 are live |
| HostRequests.TakeRemoves | wapo-host/src/runtime/resource.rs:245-251 | a take removes exactly its id |
| HostRequests.WapoCtx.constructor | wapo-host/src/runtime/vm_context.rs:165-188 | empty table, no channels |
| HostRequests.WapoCtx.Push | wapo-host/src/runtime/resource.rs:224-243 | the scan loop is the specified push |
| HostRequests.WapoCtx.Take | wapo-host/src/runtime/resource.rs:245-251 | returns and removes what is live at the id, for negative ids too |
| HostRequests.WapoCtx.GetMut | wapo-host/src/runtime/resource.rs:217-222 | finds exactly the ids that a take finds |
| HostRequests.WapoCtx.Close | wapo-host/src/runtime/vm_context.rs:189-194 | removes the entry or reports it missing; dropping a receiver closes its channel |
| HostRequests.WapoCtx.OneshotSend | wapo-host/src/runtime/vm_context.rs:463-477 | answers through an armed sender, which is used up even when the requester is gone; names the error otherwise |
| HostRequests.WapoCtx.CreateInputChannel | wapo-host/src/runtime/vm_context.rs:494-516 | one channel of each kind, with its receiver in the table |
| HostRequests.WapoCtx.PushQuery | wapo-host/src/runtime/vm_context.rs:866-890 | the host becomes the specified push of the old one |
| HostRequests.WapoCtx.PushHttpRequest | wapo-host/src/runtime/vm_context.rs:893-942 | likewise with two entries |
| HostRequests.QueryPushIsTransactional | wapo-host/src/runtime/vm_context.rs:866-890 | on any error, or without a channel, live entries and channels are as before; else exactly one new entry and one message naming it; and when it succeeds |
| HostRequests.HttpPushIsTransactional | wapo-host/src/runtime/vm_context.rs:893-942 | likewise with two distinct new entries |
| HostRequestRuns.AnsweredAtMostOnce | wapo-host/src/runtime/vm_context.rs:463-492 | in every run no request is answered twice, and none that was not made |
| HostRequestRuns.GoneStaysUnanswered | wapo-host/src/runtime/vm_context.rs:463-492 | in every run a request whose requester gave up unanswered stays unanswered |
| HostRequestRuns.PoliteIff | wapo-host/src/runtime/vm_context.rs:189-194 | a step keeps every queued message answerable exactly when it touches no entry such a message names |
| HostRequestRuns.MessagesReachTheirRequest | wapo-host/src/runtime/vm_context.rs:866-942 | in every such run each queued message names live entries of its own request, and an answer through it reaches that request if and only if its requester has not given up |
| HostRequestRuns.MessagesNameDistinctEntries | wapo-host/src/runtime/vm_context.rs:866-942 | messages of different requests never share an entry |
| HostRequestRuns.ImpoliteGuestLosesReply | wapo-host/src/runtime/vm_context.rs:189-194 | a run where a guest closes an entry early and leaves a message that cannot be answered |
| HostRequestRuns.RunKeepsBounds | wapo-host/src/runtime/vm_context.rs:502-505 | in every run a channel holds at most 20 messages |
| HostDelivery.CreateOutcome | wapo-host/src/runtime/vm_context.rs:494-516 | a channel is created exactly if it never was and an id is free; it then listens and is empty, and the other is untouched |
| HostDelivery.QueryOutcome | wapo-host/src/runtime/vm_context.rs:866-890 | in every run a query is dropped silently exactly without a channel, queued exactly if an id is free, the receiver is live and fewer than 20 wait, and each error has its exact condition |
| HostDelivery.HttpOutcome | wapo-host/src/runtime/vm_context.rs:893-942 | likewise with two free ids |
| HostDelivery.AnswerOutcome | wapo-host/src/runtime/vm_context.rs:463-492 | exactly when an answer succeeds and which error it gets otherwise; it disarms the sender and changes nothing else |
| HostDelivery.HungUpForGood | wapo-host/src/runtime/vm_context.rs:189-194 | once the receiver is closed, in every run nothing more is queued or delivered and the channel cannot be made again |
| HostDelivery.DeliveredInOrder | wapo-host/src/runtime/vm_context.rs:866-942 | in every run the guest gets requests in the order they were queued, each once, and while it listens those it did not get are exactly those waiting |
| Downloaders.Downloader.constructor | wapod-pherry/src/ipfs_downloader.rs:58-80 | nothing downloading or pending |
| Downloaders.Downloader.Download | wapod-pherry/src/ipfs_downloader.rs:110-133 | answers, starts, queues or refuses; `Downloaders.RequestOutcome` says exactly when |
| Downloaders.Downloader.Finish | wapod-pherry/src/ipfs_downloader.rs:233-241 | ends one download and goes on with the first pending id |
| Downloaders.LimitsHold | wapod-pherry/src/ipfs_downloader.rs:110-133 | in every run the sets are disjoint and bounded, nothing waits beside a free slot, and each id being downloaded has exactly one task |
| Downloaders.RequestOutcome | wapod-pherry/src/ipfs_downloader.rs:110-133 | in every run each of the five answers has its exact condition, by force, presence, what was accepted and done, and how many tasks run; an accepted id is recorded, a started one has a task |
| Downloaders.DoneOutcome | wapod-pherry/src/ipfs_downloader.rs:233-241 | in every run a task that is done goes on with the least id that waits, and ends exactly if none does |
| Downloaders.NothingIsLost | wapod-pherry/src/ipfs_downloader.rs:110-241 | in every run each accepted id is done, being downloaded or pending, as often as it was accepted |
| Downloaders.DoneRunDrains | wapod-pherry/src/ipfs_downloader.rs:233-241 | each completion brings the rest one closer to the end |
| Downloaders.QueueDrains | wapod-pherry/src/ipfs_downloader.rs:233-241 | without new requests everything accepted is done after exactly as many completions as ids were left, and until then a task runs |

## Left out

- TLS handshakes, certificates, TCP and DNS, the web API, the console and the rocket and hyper adapters: I/O around the protocols modelled here.
- The phala scheduler consulted in `wapo-host/src/run.rs:238-245`: the service never sets one, so the model has none.
- The chain client, the bridge, registration and deployment tools: network sequencing.
- Cryptography, quotes and hashes: a hash is a number, and what it is of does not matter here.
- The blob cache and its agreement with disk; bounded vectors, whose conversions check nothing; session tokens; prices; the memory pool; host access lists.
- WebAssembly execution, compilation results, clocks and meter readings: inputs of the steps.
- Wakers that a guest combinator makes itself; a waker interned by the guest is handed to one ocall, as the host functions do.
- Arguments and results that travel as SCALE-encoded bytes: the bytes are modelled, their codec is not.
- Updating a metrics record in place (`merge`, `+=`): modelled as the value it ends up with.
- Wrap-around of the gas counter and of the instance sequence number at 2^64.
- A connection that waits in the channel of a subscription when that subscription is dropped is lost with it; the model counts it as handed out.
- Memory order inside one lock region: each region is one step.
- OcallReturns.OcallEnv.CallEncodedOutput: the guest's allocator is taken to place the buffer inside memory, because a failed allocation ends the guest.
- WorkerStates.WorkerState.DeployApp: the lock region that records the app; the first start at `wapod/src/state.rs:540-542` is a resize of its own, because other operations can come between the two.
- WakerPolls.PollFinishes: needs a task slot for every new future, because the guest panics without one; `GuestTables.StartTakesFreeSlot` says exactly when.
- GuestRuntimes.GuestRuntime.StartSpawnedTasks: says nothing of the tables after a panic, because the guest is gone then.
