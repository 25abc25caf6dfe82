# A verified model of jukebox's scheduling core

Jukebox keeps several vLLM (or llama.cpp) processes on one machine's GPUs and routes each request to the
process serving its model, starting and evicting processes as needed. This project models the parts that
decide, and proves what they guarantee:

- **The multi-instance scheduler** (`Scheduler*.dfy`). `SchedulerCore` holds the shared state and the
  scheduling section, that is everything `AcquireRoute` and `StopAll` do under the permit, cut into one step
  per critical section or outside call. `SchedulerRuns` adds any number of goroutines, the size-1 permit
  channel, the waiter table, the clock, process crashes and `Done` calls, and lets them interleave freely.
  `SchedulerInvariant` and the files after it prove one invariant of every reachable state;
  `SchedulerTheorems`, `SchedulerFates`, `SchedulerCrash` and `SchedulerRefusal` draw the guarantees from it,
  `SchedulerAnswers` says exactly when each decision goes which way, `SchedulerProcesses` what becomes of the
  processes, `SchedulerWaits` that no drain misses its wake-up, and `SchedulerExample` walks through two concrete runs.
- **The same code in the form it is written in** (`Scheduler.dfy`): a class whose methods follow
  `AcquireRoute`, `tryRouteReady`, `acquireSchedulingPermitOrReject`, `evictConflicts`,
  `drainAndStopInstance` and `StopAll` with their loops, on the port pool and power manager objects. After
  every atomic block an arbitrary number of steps of all other goroutines happens, and each block is shown to
  be a step of a run, so every state of the object is one the theorems speak about.
- **The swap coordinator**: its decisions (`Coordinator.dfy`), whole runs of the accepting loop, the background
  swap and the callers with real bounds on time (`CoordinatorRuns.dfy`), what each
  request is told, in terms of the swaps completed so far (`CoordinatorAnswers.dfy`), and its methods as code
  that refines those runs in the same way (`SwapCoordinator.dfy`).
- **In-flight trackers** (`Inflight.dfy`), **the port pool** (`Ports.dfy`), **power limits** (`Power.dfy`),
  **the configuration rules the scheduler relies on** (`Config.dfy`), **log rotation** (`LogWriter.dfy`) and
  **the tail buffer** (`TailBuffer.dfy`), each a class or method proved against a small specification; what holds
  over whole histories of a tracker or a log writer is in `InflightHistory.dfy` and `LogHistory.dfy`.

What the code does not decide is a parameter or an arbitrary choice: whether a process starts, passes its
check, dies or stops, which `nvidia-smi` calls fail, when timers fire, what the GPU inventory says, how
`sort.Slice` breaks ties, in which order maps are visited. `AcquireRoute` takes the inventory listings, the
refused GPUs and the outcome of start and check as an argument, so that its answers can be stated exactly. Time 0 stands for Go's zero time, and runs begin
after it. The scheduler's theorems are about every state that some run leads to (`Reachable`), for a validated
configuration in scheduler mode, beginning with the default power limits applied.

Steps of `SchedulerCore` and the code they stand for: `LookStep` covers `internal/jukebox/scheduler.go:194-223`,
`:439-485`, `:493-518` and `:545-566`, where collecting the conflicts and sorting them are two steps; `EvictStep`
`:520-541`; `DrainStep` `:569-620`; `TakePortStep` and `LaunchStep` `:229-290`; `RegisterStep` `:292-302`;
`TouchAndTrack` and `AddTotal` `:362-395`.

## What the proofs found

- **Three exits of the scheduler are dead** (`DeadExits`). `max_instances` together with the validation rule
  makes "no free ports" unreachable; eviction never ends with "unable to free"; and registration never finds
  an old entry, because a model's own stale entry overlaps its GPUs and has been evicted by then. The cleanup
  of a replaced instance (`internal/jukebox/scheduler.go:304-333`) therefore never runs.
- **A crashed pinned model never recovers** (`CrashedPinnedStaysDown`). Its dead entry is a conflict with a
  pinned model, namely itself, so every later request for it is refused until `StopAll`; the hardening design
  promises that a crash triggers a replacement. `CrashedPinnedModelExists` gives such a run. The
  conflicts of a registered model are its own entry and nothing else (`OwnEntryConflicts`), so for a crashed
  model clearing its GPUs succeeds exactly if that entry is not pinned and was started at least the minimum
  uptime ago by the clock as `evictConflicts` begins (`Scheduler.Scheduler.EvictConflicts`).
- **A start whose limits are refused leaves limits behind.** `RefusedLimitStays` is a run that ends with nothing
  registered and a GPU at 300 W instead of its default 200 W. The limits are the registry's again when such a
  start gives up exactly if the limits it did set were defaults (`SchedulerRefusal.RefusedStart`).
- **A coordinator whose process survives a failed swap is stuck.** If `Stop` fails, or the stop after a failed
  check does, the state becomes `error` with the process still there. From then on no swap stops it, as only
  `ready` and `stopping` do that, and the manager starts no second process, so every swap fails until that
  process dies by itself (`SurvivorBlocks`, and `FailedStopLeavesSurvivor` for the way there). After a
  successful swap the next one never finds the old process in its way (`OldProcessGone`).
- **An empty `power_limits` table hides `power_limit`**, against the comment at the function and past the
  validation (`PowerLimitHidden`). For a validated model the comment is right exactly if `power_limits` is nil
  or every GPU stands at the limit already (`PowerLimitReachesAll`).
- **A log writer told to keep no backups keeps one** (`NoBackupsKeepsOne`): the directory keeps to `maxFiles`
  backups exactly if `maxFiles` is at least one or nothing is ever rotated (`SlotsKept`). The program never gets
  there: its loader replaces 0 by 5 and refuses negative values (`internal/config/config.go:201-203` and
  `:504-506`).

## Model

| member | source | states |
|---|---|---|
| SchedulerTheorems.OneInSection | internal/jukebox/scheduler.go:183-186 | in every reachable state at most one goroutine is in the scheduling section, and the permit channel is full exactly then |
| SchedulerTheorems.WaitersExact | internal/jukebox/scheduler.go:397-437 | a model is in the waiter table exactly when a goroutine is in the waiting phase for it, and never two are |
| SchedulerTheorems.GPUsExclusive | internal/jukebox/scheduler.go:225-302 | in every reachable state the registered instances and the one being started have disjoint GPUs |
| SchedulerTheorems.RegistryBounded | internal/jukebox/scheduler.go:204-302 | in every reachable state each instance is stored under its own model's name, and their number exceeds neither `max_instances` nor the distinct configured GPUs |
| SchedulerTheorems.RegistryFitsGPUs | internal/jukebox/scheduler.go:292-302 | disjoint GPU sets bound the number of instances by the number of distinct configured GPUs |
| SchedulerTheorems.PortsConserved | internal/jukebox/scheduler.go:229-333 | the ports in use are exactly those of registered instances and the one in the permit holder's hand, all in range; with nobody scheduling, as many as instances |
| SchedulerTheorems.PortsDistinct | internal/ports/pool.go:21-31 | no two instances that are registered or being started ever have the same port |
| SchedulerTheorems.DeadExits | internal/jukebox/scheduler.go:304-333 | "no free ports" (with `max_instances`), "unable to free" and the replacement of an old entry are unreachable |
| SchedulerLaunch.PortAvailable | internal/config/config.go:315-323 | the capacity check and the validated cap leave the pool a free port, by pigeonhole |
| SchedulerLaunch.UsedCount | internal/ports/pool.go:21-37 | with an empty hand there are exactly as many ports in use as registered instances |
| SchedulerLaunch.OwnNameFree | internal/jukebox/scheduler.go:225-227 | once no conflict is left the model's own name is free in the registry |
| SchedulerTheorems.RoutedToOwnModel | internal/jukebox/scheduler.go:376-395 | a returned route leads to an instance of the model the request resolved to |
| SchedulerTheorems.DrainBeforeStop | internal/jukebox/scheduler.go:579-597 | a stopped instance with requests in flight is one whose drain timer fired |
| SchedulerTheorems.PortNotReused | internal/jukebox/scheduler.go:608-618 | while a route is outstanding and its instance's drain has not timed out, its port stays in use and belongs to no other registered or starting instance |
| SchedulerTheorems.InflightConserved | internal/jukebox/scheduler.go:376-395 | instances' counts add up to the unreleased routes, removed instances included; the scheduler's total differs only by routes between their two updates |
| SchedulerTheorems.PowerFollowsRegistry | internal/jukebox/scheduler.go:253-284 | with nobody scheduling and no failed call, each GPU stands at the override of the registered model that owns it, else at its default |
| SchedulerAnswers.LookRoutes | internal/jukebox/scheduler.go:362-374 | a look, on the fast path or under the permit, adds a route exactly if the model's registered instance is not draining and its process lives; the route is to that instance, which counts it and is last used at the reading; otherwise nothing changes |
| SchedulerAnswers.ReadyIsLive | internal/jukebox/scheduler.go:366-370 | in every reachable state the test of tryRouteReady picks the registered instance exactly if it is not draining and alive: the state field adds nothing |
| SchedulerAnswers.BusyMeansWaiter | internal/jukebox/scheduler.go:403-412 | with the permit taken, a request is turned away as busy exactly if another goroutine waits for the same model, and otherwise becomes its one waiter |
| SchedulerAnswers.CapacityAnswers | internal/jukebox/scheduler.go:200-213 | a model passes the capacity check exactly if fewer instances of other models than `max_instances` are registered |
| SchedulerAnswers.AgeAnswers | internal/jukebox/scheduler.go:487-541 | the next conflict is refused exactly if by the clock read first it has been up for less than the configured minimum, or 30 seconds without one |
| SchedulerAnswers.OnlySharersEvicted | internal/jukebox/scheduler.go:493-505 | an eviction drains nothing but an instance that has a GPU of the model |
| SchedulerAnswers.StartsWithRoom | internal/jukebox/scheduler.go:225-250 | in every run, a goroutine that takes a port or starts a process has earlier been shown, by the inventory, the model's configured minimum free on every GPU of the model |
| SchedulerProcesses.NoOrphans | internal/jukebox/scheduler.go:261-284 | in every reachable state an instance whose process lives is registered, or being started by the permit holder, or has been told to stop |
| SchedulerProcesses.WhatHappens | internal/jukebox/scheduler.go:286-310 | over every event, draining, a timed-out drain, Stop calls, a living process and the recorded start of an instance change at one place of the code each, and its model, port, GPUs and pinning never |
| SchedulerProcesses.StaysOwned | internal/jukebox/scheduler.go:261-302 | a step of the permit holder takes an instance out of the registry or its hand only if it was told to stop or its start is given up |
| SchedulerWaits.NoLostWakeup | internal/jukebox/scheduler.go:579-589 | in every reachable state with a drain waiting, its channel is closed exactly if nothing is in flight at the instance any more |
| SchedulerWaits.DrainAnswers | internal/jukebox/scheduler.go:579-589 | a drain waits exactly if something is in flight at both of its looks, on a channel of its own |
| SchedulerFates.DrainingOnlyFalls | internal/jukebox/scheduler.go:362-374 | no event whatever adds a request to an instance marked draining, and draining is for good |
| SchedulerFates.LastUseIsLastRoute | internal/jukebox/scheduler.go:362-374 | a registered instance's last use changes exactly when a request is routed to it, to the reading that request took before the lock |
| SchedulerFates.EvictionIsLruPrefix | internal/jukebox/scheduler.go:516-556 | in the eviction loop of any run, the first n conflicts in order of their last uses at an earlier instant of the run are stopped, gone, unpinned and old enough, and exactly the rest stand |
| SchedulerFates.EvictionIsChosen | internal/jukebox/scheduler.go:488-518 | wherever an eviction is, its drains included, its order came from three earlier instants of the run: the clock its ages go by was read, then all conflicts were listed with none pinned, then they were sorted by the last uses of that moment |
| SchedulerFates.SortCame | internal/jukebox/scheduler.go:516-566 | the eviction in progress is the one its goroutine made when it sorted: list, last uses and time have not changed since |
| SchedulerFates.EvictionExits | internal/jukebox/scheduler.go:520-566 | the loop leaves either with no conflict or at a registered instance below the minimum uptime, with only its predecessors gone |
| SchedulerFates.HolderNeverStuck | internal/jukebox/scheduler.go:183-335 | from every reachable state the permit holder has a next step |
| SchedulerOrder.SortUseSorts | internal/jukebox/scheduler.go:516-518 | any list of conflicts can be put in order of last use, so the sort has a result |
| SchedulerOrder.InsertSorts | internal/jukebox/scheduler.go:516-518 | inserting behind every instance used no later keeps the list sorted and free of repeats |
| SchedulerCrash.OwnEntryConflicts | internal/jukebox/scheduler.go:493-514 | the conflicts of a registered model are exactly its own entry |
| SchedulerCrash.CrashedPinnedStaysDown | internal/jukebox/scheduler.go:507-514 | a pinned instance whose process died stays registered and is never routed to again in any continuation without `StopAll` |
| SchedulerExample.CrashedPinnedModelExists | internal/jukebox/scheduler.go:507-514 | a concrete configuration and run that end in such a state: one pinned model, served once and crashed |
| SchedulerExample.Serves | internal/jukebox/scheduler.go:169-336 | a concrete run of AcquireRoute from an empty scheduler to a counted route |
| SchedulerCrash.EvictorSpares | internal/jukebox/scheduler.go:507-545 | the instance an eviction drains is never a pinned one |
| SchedulerRefusal.RefusedStart | internal/jukebox/scheduler.go:253-259 | a start whose required limits are refused gives its port back and fails, and the limits follow the registry again exactly if what it set were defaults, whatever others do in between |
| SchedulerRefusal.RefusedLimits | internal/jukebox/scheduler.go:253-259 | over free GPUs, a partly refused apply keeps the limits a function of the registry exactly if it sets defaults only |
| SchedulerExample.RefusedLimitStays | internal/jukebox/scheduler.go:254-259 | a concrete validated configuration and run: the call has failed, nothing is registered, nobody schedules, and a GPU is off its default |
| SchedulerRunsInvariant.RunInv | internal/jukebox/scheduler.go:169-336 | the invariant of permit, waiters, goroutines, ports, GPUs, counts, drains and limits holds after every run |
| SchedulerRunsInvariant.ApplyKeepsInv | internal/jukebox/scheduler.go:169-374 | every event keeps that invariant |
| SchedulerStep.SectionKeepsInv | internal/jukebox/scheduler.go:183-335 | every step of the permit holder, StopAll's included, keeps the shared-state invariant |
| SchedulerEnv.EnvKeepsInv | internal/jukebox/scheduler.go:376-395 | routing on the fast path, `Done` in either half, crashes and the clock keep it at any step of the holder |
| SchedulerSection.MarkBase | internal/jukebox/scheduler.go:574-578 | marking a registered instance keeps the invariant and opens its drain |
| SchedulerSection.ScanFacts | internal/jukebox/scheduler.go:493-518 | what the conflict scan establishes for the eviction loop |
| SchedulerDrain.RevertBase | internal/jukebox/scheduler.go:599-602 | reverting the drained instance's limits keeps the invariant |
| SchedulerDrain.DeletePorts | internal/jukebox/scheduler.go:612-618 | leaving the registry moves the port into the holder's hand, so ownership of ports is unchanged |
| SchedulerLaunch.TakePortBase | internal/jukebox/scheduler.go:229-250 | taking a port for a new instance keeps the invariant |
| SchedulerLaunch.ApplyPowerBase | internal/jukebox/scheduler.go:253-259 | applying the new model's limits keeps it, the model now being in force |
| SchedulerLaunch.RegisterBase | internal/jukebox/scheduler.go:292-302 | entering the new instance keeps it |
| Scheduler.Scheduler.constructor | internal/jukebox/scheduler.go:67-91 | a new scheduler is in the initial state of a run |
| Scheduler.Scheduler.AcquireRoute | internal/jukebox/scheduler.go:169-336 | ends in a state of a run that extends the one before, without permit or waiter's place; a route is counted and leads to the resolved model, and there is one if that model had a live instance at the first look |
| Scheduler.Scheduler.TryRouteReady | internal/jukebox/scheduler.go:362-374 | both looks, before and under the permit, refine steps, and route exactly if in a state passed through the model's instance is not draining and alive |
| Scheduler.Scheduler.RouteForInstance | internal/jukebox/scheduler.go:376-395 | counts the request in the instance's tracker and then in the total, as two steps |
| Scheduler.Scheduler.AcquirePermitOrReject | internal/jukebox/scheduler.go:397-437 | ends holding the permit, at once if it is free, or with wait timeout or cancellation and no waiter left, or busy, exactly if the permit is taken and in a state passed through the model has a waiter |
| Scheduler.Scheduler.AwaitPermit | internal/jukebox/scheduler.go:413-436 | the select on permit, timer and context, with the waiter removed on every exit |
| Scheduler.Scheduler.Admit | internal/jukebox/scheduler.go:194-223 | refuses for capacity exactly if the registered instances of other models number at least `max_instances`, and passes exactly if they do not and the inventory has the GPUs; touches nothing |
| Scheduler.Scheduler.EvictConflicts | internal/jukebox/scheduler.go:487-567 | succeeds exactly if every conflict at the scan is unpinned and old enough by the clock at the start, for a registered model exactly if its own entry is; evicts exactly a prefix of the conflicts in order of last use in a state the run passes through, nothing if one is pinned |
| Scheduler.Scheduler.EvictInOrder | internal/jukebox/scheduler.go:520-566 | the eviction loop: all conflicts gone, or those before one that is too young |
| Scheduler.Scheduler.CollectConflicts | internal/jukebox/scheduler.go:488-514 | reads the clock, then lists all conflicts of one instant, and refuses exactly if one of them is pinned |
| Scheduler.Scheduler.SortConflicts | internal/jukebox/scheduler.go:516-518 | the same instances in order of last use at a later instant |
| Scheduler.Scheduler.FindConflicts | internal/jukebox/scheduler.go:494-505 | lists exactly the registered instances that overlap the target, once each |
| Scheduler.Scheduler.AnyConflict | internal/jukebox/scheduler.go:547-556 | the scan for a remaining overlap answers whether there is one |
| Scheduler.Scheduler.AnyPinned | internal/jukebox/scheduler.go:507-514 | finds a pinned conflict exactly if there is one |
| Scheduler.Scheduler.SortByUse | internal/jukebox/scheduler.go:516-518 | same instances, sorted by last use |
| Scheduler.Scheduler.FinalCheck | internal/jukebox/scheduler.go:558-566 | the last look after the loop finds no conflict |
| Scheduler.Scheduler.DrainAndStopInstance | internal/jukebox/scheduler.go:569-620 | removes exactly this entry and this port, and has stopped the instance with nothing in flight unless its timer fired |
| Scheduler.Scheduler.WaitForDrain | internal/jukebox/scheduler.go:579-587 | enlists on the tracker and returns on its channel or the timer |
| Scheduler.Scheduler.NewInstance | internal/jukebox/scheduler.go:229-250 | takes a port that was free, or refuses because every port is in use |
| Scheduler.Scheduler.LaunchInstance | internal/jukebox/scheduler.go:253-289 | succeeds exactly if the limits are accepted and the process starts and is verified; keeps the port then and returns it otherwise |
| Scheduler.Scheduler.GiveBack | internal/jukebox/scheduler.go:254-285 | a failed start returns exactly its port, and takes its limits back, except where the reset is refused, unless setting them is what failed |
| Scheduler.Scheduler.RegisterInstance | internal/jukebox/scheduler.go:292-335 | the model's name was free; exactly its entry is added and the request routed to it |
| Scheduler.Scheduler.Launch | internal/jukebox/scheduler.go:225-336 | ends in a route exactly if the model's minimum is free, fewer instances than ports are registered, the limits are accepted and the process starts and is verified; then its entry is there, otherwise registry and ports are as before |
| Scheduler.Scheduler.ScheduleNew | internal/jukebox/scheduler.go:194-336 | a request without a ready instance is served exactly if the cap leaves a place, the inventory has its GPUs, every conflict is unpinned and old enough by the clock of a state passed through, the spared instances leave a port, the memory is free, the limits are accepted, and the process starts and is verified; the refusals for capacity, a pinned conflict and minimum uptime are exact too |
| Scheduler.Scheduler.CheckVRAM | internal/jukebox/scheduler.go:457-485 | passes exactly if the listing worked and shows the model's own minimum on each of its GPUs; refuses for low memory exactly if the first GPU to fail is listed |
| Scheduler.Scheduler.CheckGPUs | internal/jukebox/scheduler.go:439-455 | passes exactly if the listing worked and has every GPU of the model |
| Scheduler.Scheduler.SetLimits | internal/jukebox/scheduler.go:253-259 | the start goes on exactly if limits are optional or no GPU the model overrides was refused |
| Scheduler.Scheduler.VerifyInstance | internal/jukebox/scheduler.go:273-289 | an unverified process has been told to stop and its port is given back; a verified one goes on to be registered |
| Scheduler.Scheduler.JoinWaiters | internal/jukebox/scheduler.go:403-412 | refuses as busy exactly if the model is in the waiter table |
| Scheduler.Scheduler.Probe | internal/jukebox/scheduler.go:362-374 | routes exactly if the model's registered instance is ready, not draining and alive |
| Scheduler.Scheduler.CapReached | internal/jukebox/scheduler.go:204-213 | true exactly if at least `max_instances` instances of other models are registered |
| Scheduler.Scheduler.StopAll | internal/jukebox/scheduler.go:338-360 | takes the permit exactly if it is free in a state passed through, and then passes through one with no instance and no port left |
| Scheduler.Scheduler.StopEach | internal/jukebox/scheduler.go:349-358 | before the permit is returned no instance is registered and no port in use |
| Scheduler.HaveOverlap | internal/jukebox/scheduler.go:626-640 | true exactly if the two lists share a GPU |
| Scheduler.EnsureGPUsExist | internal/jukebox/scheduler.go:439-457 | nil exactly if the listing succeeded and has every requested GPU |
| Scheduler.EnsureFreeVRAM | internal/jukebox/scheduler.go:459-485 | nil exactly if every GPU is listed with enough memory; a low-memory rejection exactly if the first one to fail is listed |
| Scheduler.AllowedCanGo | internal/jukebox/scheduler.go:169-360 | in every state of every run a goroutine can take its next step unless it waits for a channel or the permit |
| SchedulerFates.OthersTouchNothing | internal/jukebox/scheduler.go:183-186 | nobody but the permit holder changes the registry, the ports, the limits or an instance's identity |
| Scheduler.AllGone | internal/jukebox/scheduler.go:349-358 | at the end of StopAll's loop the registry and the pool are empty |
| Scheduler.Returned | internal/jukebox/scheduler.go:183-186 | a call that has returned holds no permit, and its outcome is one the code can give |
| Inflight.Tracker.Track | internal/inflight/tracker.go:16-23 | one more in flight, and a fresh done function |
| Inflight.Tracker.WaitForDrain | internal/inflight/tracker.go:48-57 | joins the waiters exactly if something is in flight |
| Inflight.Done.Call | internal/inflight/tracker.go:24-45 | the first call finishes one request, closing every waiter at zero; later calls do nothing |
| InflightHistory.CountIsOutstanding | internal/inflight/tracker.go:16-64 | after any history the count is the number of uncalled done functions, waiters exist only above zero, no channel is closed twice |
| InflightHistory.UnderflowUnreachable | internal/inflight/tracker.go:27-32 | the underflow guard never fires |
| InflightHistory.ClosedExactlyAtZero | internal/inflight/tracker.go:34-41 | waiter channels are closed exactly when the count falls from one to zero, and then all of them |
| InflightHistory.NilWaitSawZero | internal/inflight/tracker.go:48-64 | a nil WaitForDrain overlaps an instant with nothing in flight |
| Ports.Pool.constructor | internal/ports/pool.go:13-19 | an empty pool over the range |
| Ports.Pool.Acquire | internal/ports/pool.go:21-31 | takes the lowest free port, and fails exactly if there is none |
| Ports.Pool.Release | internal/ports/pool.go:33-37 | frees that port and no other |
| Ports.Pool.Available | internal/ports/pool.go:40-44 | the free ports of the range less the ports in use outside of it, so exact while there are none of those; negative for a range that starts beyond its end |
| Ports.FirstFree | internal/ports/pool.go:24-29 | the lowest port of the range outside the set, none exactly if all are in it |
| Ports.FreePortExists | internal/ports/pool.go:21-31 | fewer ports in use than in the range means the scan finds one |
| Power.RevertUndoesApply | internal/gpu/power.go:112-165 | from default limits, applying and then reverting restores every GPU with a default and leaves other GPUs alone |
| Power.RefusedApplyKeepsDefaults | internal/gpu/power.go:112-150 | from default limits, an apply call leaves every GPU at its default exactly if what it set were defaults |
| Power.PowerLimitReachesAll | internal/gpu/power.go:109-130 | for a validated model, a set power_limit reaches every GPU exactly if power_limits is nil or they stand at it already |
| Power.PowerLimitHidden | internal/gpu/power.go:120-126 | a valid model whose power_limit reaches no GPU |
| Power.AppliedSnoc | internal/gpu/power.go:118-147 | one turn of the apply loop, in terms of the whole list's effect |
| Power.RevertedSnoc | internal/gpu/power.go:155-163 | one turn of the revert loop, in terms of the whole list's effect |
| Power.Manager.constructor | internal/gpu/power.go:22-36 | no limit has been set yet |
| Power.Manager.SetLimit | internal/gpu/power.go:38-53 | records the limit exactly if the call succeeds |
| Power.Manager.RevertToDefault | internal/gpu/power.go:55-72 | sets the default only where one exists and something else was set |
| Power.Manager.ApplyStartupLimits | internal/gpu/power.go:74-107 | every default is attempted; the error, if required, is that of the lowest GPU that failed |
| Power.Manager.ApplyModelLimits | internal/gpu/power.go:112-150 | every accepted override is in force and no other limit has changed; an error exactly if limits are required and an attempted GPU was refused |
| Power.Manager.RevertModelLimits | internal/gpu/power.go:153-165 | every listed GPU with a default ends at it unless its call fails, and no other limit has changed |
| Config.ResolveModel | internal/config/config.go:408-421 | succeeds exactly for a configured name that is no alias or an alias of a configured name, and gives that name, itself or its alias, with its configuration |
| Config.AliasesOkIffResolved | internal/config/config.go:408-421 | the alias rule holds exactly if every configured name resolves in one step to a non-alias, and then resolution is idempotent |
| Config.WalkAlias | internal/config/config.go:369-396 | the chain walk terminates and accepts exactly an alias of an existing non-alias |
| Config.ValidateAliases | internal/config/config.go:363-399 | accepts, in any order of names, exactly if every alias is acceptable |
| Config.ValidateModelForScheduler | internal/config/config.go:341-357 | accepts exactly GPUs that are present, non-negative and distinct, with a positive memory requirement |
| Config.ValidateScheduler | internal/config/config.go:300-361 | accepts exactly the configurations the scheduler's theorems assume |
| Config.ValidateModelPowerLimits | internal/config/config.go:465-498 | accepts exactly positive limits, given one way only, for GPUs of the model |
| SwapCoordinator.Coordinator.constructor | internal/jukebox/coordinator.go:146-159 | an idle coordinator at the start of a run |
| SwapCoordinator.Coordinator.EnsureModel | internal/jukebox/coordinator.go:172-214 | ends in a state of a run that extends the one before; a nil result has an instant of the call at which the resolved model was ready, "not found" means that the name resolves to none, and a failed swap that one to the model failed |
| SwapCoordinator.Coordinator.AwaitReply | internal/jukebox/coordinator.go:173-192 | the reply that was sent, or cancellation |
| SwapCoordinator.Coordinator.AwaitSwap | internal/jukebox/coordinator.go:198-213 | nil or failure exactly as the swap was delivered, else the wait timeout or cancellation |
| SwapCoordinator.Coordinator.HandleEnsure | internal/jukebox/coordinator.go:267-339 | decides on the fields as read under the lock, with the process and the clock of a state passed through during the call; served, given a swap, or refused with a positive retry time exactly as the swaps completed until then demand |
| SwapCoordinator.Coordinator.Judge | internal/jukebox/coordinator.go:283-321 | serves exactly if ready with the model and its process, and swaps exactly if none is under way, the pause after the last failures is over, and the cooldown is too unless the model in place has crashed |
| SwapCoordinator.Coordinator.BeginSwap | internal/jukebox/coordinator.go:323-338 | the model read again to swap from is still the one the decision was taken on |
| SwapCoordinator.Coordinator.PerformSwap | internal/jukebox/coordinator.go:402-499 | succeeds exactly if the needed stop succeeds, the limits are set, no process is in the way in a state passed through, and the new one starts and is verified; the log records it |
| SwapCoordinator.Coordinator.HandleSwapDone | internal/jukebox/coordinator.go:341-400 | the fields after a finished swap, for success and failure |
| SwapCoordinator.Coordinator.DoSwap | internal/jukebox/coordinator.go:422-499 | the same for the swap itself, which leaves its result to be recorded |
| SwapCoordinator.OthersKeep | internal/jukebox/coordinator.go:161-170 | the loop, a swap and a caller leave each other's progress alone |
| CoordinatorRuns.RunInv | internal/jukebox/coordinator.go:172-420 | the coordinator's invariant over all runs |
| CoordinatorRuns.AcceptedWhenDue | internal/jukebox/coordinator.go:300-321 | a swap is accepted only when backoff and, unless it is a crash restart, cooldown have passed |
| CoordinatorAnswers.LoopAnswers | internal/jukebox/coordinator.go:267-339 | in every run, what the loop does for the request it decides on, exactly: in progress, served by the model in place, backoff, cooldown, or a new swap, which records the installed model and whether it is a restart; all in terms of the swaps completed so far and pauses of 0, 0, 5, 15, 30 and 60 seconds |
| CoordinatorAnswers.DecisionFollows | internal/jukebox/coordinator.go:274-323 | the decision taken on the fields read under the lock is the one the log of completed swaps calls for at the time it is taken |
| CoordinatorAnswers.CrashSkipsCooldown | internal/jukebox/coordinator.go:292-321 | a request for the installed model whose process has died always gets its swap, cooldown or not |
| CoordinatorAnswers.RetryAfterIsExact | internal/jukebox/coordinator.go:300-321 | with nothing else happening a backoff or cooldown refusal stands before its retry time and no longer from then on |
| CoordinatorAnswers.OldProcessGone | internal/jukebox/coordinator.go:428-476 | before a swap starts its process the old one can still be there only if the swap before it failed |
| CoordinatorAnswers.SurvivorBlocks | internal/jukebox/coordinator.go:422-499 | from any reachable error state with a process still up, no swap succeeds in any continuation in which it does not die by itself |
| CoordinatorAnswers.FailedStopLeavesSurvivor | internal/jukebox/coordinator.go:451-456 | a stop that fails while the process is up leads to such a state |
| CoordinatorAnswers.RunPast | internal/jukebox/coordinator.go:341-401 | between swaps the state is ready or error exactly as the last swap ended, and a process is there only after some swap |
| CoordinatorAnswers.ErrorsAreTrue | internal/jukebox/coordinator.go:172-214 | EnsureModel returns "not found" only for a name that resolves to no model, nothing but that or a cancellation for such a name, and a failed swap only if a swap to that model failed |
| CoordinatorRuns.OneSwapAtATime | internal/jukebox/coordinator.go:323-339 | `swapInProgress` mirrors the transitional states and a running swap, and only the newest swap can run |
| CoordinatorRuns.SuccessesChain | internal/jukebox/coordinator.go:347-362 | each swap starts from the model the last successful one installed; `failureCount` counts the failures since |
| CoordinatorRuns.SwapRateBound | internal/jukebox/coordinator.go:312-321 | successful swaps are at least a cooldown apart for each one that was not a crash restart |
| CoordinatorRuns.OwedIsProduct | internal/jukebox/coordinator.go:312-321 | the summed cooldowns are cooldown times their number |
| CoordinatorRuns.BackoffBound | internal/jukebox/coordinator.go:525-538 | n >= 5 consecutive failures span at least 50 + 60(n - 5) seconds |
| CoordinatorRuns.FailureSpan | internal/jukebox/coordinator.go:300-310 | consecutive failures are at least the sum of their backoff delays apart |
| CoordinatorRuns.NilMeansReady | internal/jukebox/coordinator.go:172-214 | a nil EnsureModel means that at an instant of the call the state was ready with exactly the resolved model |
| CoordinatorRuns.NilBecomesCertain | internal/jukebox/coordinator.go:283-290 | the event that makes a nil reply certain happens next to such an instant |
| LogWriter.RotatingFileWriter.constructor | internal/vllm/logwriter.go:25-43 | opens for appending with the size counter at the file's length |
| LogWriter.RotatingFileWriter.OpenFile | internal/vllm/logwriter.go:45-61 | creates a missing file and reads an existing one's size |
| LogWriter.RotatingFileWriter.ShiftBackups | internal/vllm/logwriter.go:91-100 | the loop of renames is the recursive shift |
| LogWriter.RotatingFileWriter.Rotate | internal/vllm/logwriter.go:84-111 | refines the rotation, and the size counter is right again |
| LogWriter.RotatingFileWriter.Write | internal/vllm/logwriter.go:63-82 | appends and moves nothing as long as all of it fits; otherwise the log file becomes backup 1 and starts anew, or goes on if the rename fails; reports the accepted bytes |
| LogWriter.RotatingFileWriter.Close | internal/vllm/logwriter.go:113-124 | nothing on disk changes |
| LogWriter.ShiftMoves | internal/vllm/logwriter.go:91-100 | every backup moves up one slot, the oldest is gone, slot 1 is free, the log file stays, no other file appears |
| LogWriter.RotationMovesFiles | internal/vllm/logwriter.go:84-111 | whole files move, the log file into backup 1, and an empty one is open; if its rename fails it stays open |
| LogWriter.RotationKeepsStream | internal/vllm/logwriter.go:84-111 | a rotation drops only the oldest backup from the front of the stream |
| LogWriter.ShiftMovesStream | internal/vllm/logwriter.go:95-100 | the shift of the numbered files, as a shift of the byte stream |
| LogWriter.WriteExtendsStream | internal/vllm/logwriter.go:63-82 | the accepted bytes end up whole at the end of the log file and of the stream |
| LogHistory.LogIsSuffix | internal/vllm/logwriter.go:63-111 | after any calls, backups and file hold a suffix of what was there at first followed by everything written |
| LogHistory.WritesStayWhole | internal/vllm/logwriter.go:63-111 | no write is split: after any calls each file holds what some file held at first, or nothing, and then consecutive writes, each whole as accepted; the log file's go on to the last one |
| LogHistory.KeepsWhatFits | internal/vllm/logwriter.go:72-76 | over whole histories, as long as every write fits, nothing is rotated: the log file holds all that was written and no other file changes |
| LogHistory.RotatesOnlyWhenFull | internal/vllm/logwriter.go:72-76 | after any calls each backup is a file there was at first, or holds more than `maxBytes` less the longest write |
| LogHistory.SizesBounded | internal/vllm/logwriter.go:71-77 | after any calls each file is at most max(maxBytes, longest write) if the files start so and renames succeed; writes after a failed rename can add their own length |
| LogHistory.SlotsKept | internal/vllm/logwriter.go:91-106 | the directory keeps to maxFiles backups exactly if maxFiles is at least one or nothing is ever rotated |
| LogHistory.NoBackupsKeepsOne | internal/vllm/logwriter.go:102-106 | two writes with maxFiles 0 that leave a backup |
| TailBuffer.LastAbsorbs | internal/vllm/runtime.go:403-406 | truncating early and truncating late agree |
| TailBuffer.Tail.constructor | internal/vllm/runtime.go:395-397 | an empty buffer is the tail of no writes |
| TailBuffer.Tail.Write | internal/vllm/runtime.go:399-408 | the buffer stays the last `max` bytes of everything written, and the whole write is reported |
| TailBuffer.Tail.String | internal/vllm/runtime.go:410-414 | returns the last `max` bytes of everything written |

## Left out

- HTTP handlers, authentication, proxying, metrics, logging, signals and `main.go`; of the handlers only that `Done` may be called any number of times, halves in order, remains.
- Processes, health polling and model verification (`internal/vllm`, `internal/runtime`, `internal/vllmcli`): arbitrary outcomes; a `Stop` error is ignored as in the code.
- Scheduler.Scheduler.StopAll: when the permit is taken the code goes on without it; that branch can race an eviction and release a port twice, and is not modelled.
- Liveness: nothing is said about goroutines being scheduled or timers firing; `HolderNeverStuck` only says that a step exists.
- Scheduler.Scheduler.EvictConflicts: the comparisons of one sort all see the same instant, where the code's unsynchronised reads of `lastUsedAt` may see several.
- SchedulerTheorems.PowerFollowsRegistry: requires that no limit-setting call has failed and that the startup limits were applied, because a failed call leaves the hardware where it was.
- SchedulerTheorems.PortNotReused: a port whose instance's drain timed out may be reused while its route is outstanding, as the code allows.
- CoordinatorRuns.BackoffBound: one clock, where the code mixes `time.Until` and its injected clock.
- The coordinator's table of power limits (only whether applying them fails), its in-flight drain, which can only time out, and `StopCurrent`; `LegacyRouter`, which tracks a request only after `EnsureModel` has returned.
- Configuration defaults, YAML decoding, log path resolution and the validations the scheduler does not rely on; error values keep the kind and the name, not the text.
- LogWriter.RotatingFileWriter.Rotate: failing file operations other than the rename of the log file, and open failures after a rotation, are left out; write errors are modelled by the number of bytes accepted.
- Tracker and instance callbacks (`OnChange`), `Status`, retry hints of the scheduler's rejections, command-line building and environment merging.
