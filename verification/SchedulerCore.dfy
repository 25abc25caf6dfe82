/**
 The multi-instance scheduler of internal/jukebox/scheduler.go: its shared state, and the scheduling
 section (everything AcquireRoute and StopAll do while they hold the permit) as a sequence of atomic
 steps, one per critical section or outside call.  Outcomes the code does not control arrive as answers.
 Time 0 is Go's zero time.
 */
module SchedulerCore {
  import opened Wrappers
  import opened Config
  import opened Ports
  import opened Inflight
  import Power

  datatype PowerSettings = PowerSettings(defaults: map<int, int>, required: bool)

  datatype Settings = Settings(config: Config, power: Option<PowerSettings>)

  datatype State = Starting | Ready | Stopping

  /** A schedInstance.  `alive` is "CurrentPID is not 0"; `stopped` and `timedOut` record that Stop
      was called on the manager and that the drain's timer fired. */
  datatype Inst = Inst(
    model: string, port: int, gpus: seq<int>, pinned: bool, draining: bool, startedAt: int, lastUsedAt: int,
    state: State, alive: bool, inflight: TrackerState, stopped: bool, timedOut: bool)

  /** A route handed to a request: which updates of its two trackers have happened. */
  datatype Route = Route(inst: nat, owner: nat, tracked: bool, instDone: bool, totalDone: bool)

  /** Instances and routes are never freed in the model; an instance is named by its creation order. */
  datatype Core = Core(
    now: int, insts: seq<Inst>, registry: map<string, nat>, used: set<int>, power: map<int, int>, powerClean: bool,
    total: TrackerState, routes: seq<Route>, nextChan: nat)

  datatype Reason = Busy | WaitTimeout | NoCapacity | NoPorts | PinnedConflict | MinUptime | UnableToFree | LowMemory

  datatype Outcome = Routed(route: nat) | Rejected(reason: Reason) | Failure | AllStopped

  /** The locals of evictConflicts: the time it read, the sorted conflicts, the last-use times they were
      sorted by, and the loop index. */
  datatype Eviction = Eviction(t: int, order: seq<nat>, keys: seq<int>, k: nat)

  /** Where a drain returns to. */
  datatype Ret = AfterEvict(ev: Eviction) | AfterStop(all: seq<nat>, k: nat) | AfterReplace(n: nat)

  datatype Drain = Check | Enlist | Wait(ch: nat) | Stop | Revert | Delete | Free

  datatype Sec =
    | Recheck
    | Reprobe(t: int)
    | Capacity
    | FindGPUs
    | ScanClock
    | Scan(t: int)
    | Sort(t: int, found: seq<nat>)
    | Evict(ev: Eviction)
    | Draining(i: nat, phase: Drain, ret: Ret)
    | Still(ev: Eviction)
    | Final
    | Vram
    | TakePort
    | ApplyPower(i: nat)
    | Start(i: nat)
    | Verify(i: nat)
    | StopFailed(i: nat)
    | FreeFailed(i: nat, revert: bool)
    | RevertFailed(i: nat)
    | Stamp(i: nat)
    | Register(i: nat)
    | TrackNew(i: nat)
    | TrackTotal(r: nat)
    | StopScan
    | StopLoop(all: seq<nat>, k: nat)
    | Leave(outcome: Outcome)

  datatype Answer = Yes | No | Order(order: seq<nat>) | Broken(gpus: set<int>) | Listing(inv: Option<map<int, int>>)

  // ----- reading the state -----

  /** Names that can be scheduled: ResolveModel never yields an alias of a validated configuration. */
  predicate Canonical(c: Settings, m: string)
  {
    m in c.config.models && c.config.models[m].alias == ""
  }

  function Gpus(c: Settings, m: string): seq<int>
  {
    if m in c.config.models then c.config.models[m].gpus else []
  }

  function MinUptimeOf(c: Settings): int
  {
    if c.config.scheduler.Some? && c.config.scheduler.value.minUptime.Some?
      then c.config.scheduler.value.minUptime.value else 30
  }

  predicate Overlaps(a: seq<int>, b: seq<int>)
  {
    exists x :: x in a && x in b
  }

  predicate Registered(k: Core, i: nat)
  {
    i < |k.insts| && k.insts[i].model in k.registry && k.registry[k.insts[i].model] == i
  }

  predicate Conflict(k: Core, target: seq<int>, i: nat)
  {
    Registered(k, i) && Overlaps(k.insts[i].gpus, target)
  }

  predicate SomeConflict(k: Core, target: seq<int>)
  {
    exists i :: 0 <= i < |k.insts| && Conflict(k, target, i)
  }

  predicate PinnedAmong(k: Core, target: seq<int>)
  {
    exists i :: 0 <= i < |k.insts| && Conflict(k, target, i) && k.insts[i].pinned
  }

  predicate InBounds(k: Core, ids: seq<nat>)
  {
    forall j :: 0 <= j < |ids| ==> ids[j] < |k.insts|
  }

  predicate NoRepeats(ids: seq<nat>)
  {
    forall a, b :: 0 <= a < b < |ids| ==> ids[a] != ids[b]
  }

  /** All the conflicts, once each, in whatever order the registry is ranged over. */
  predicate Lists(k: Core, target: seq<int>, found: seq<nat>)
  {
    && InBounds(k, found) && NoRepeats(found)
    && (forall i :: 0 <= i < |k.insts| ==> (i in found <==> Conflict(k, target, i)))
  }

  predicate SortedByUse(k: Core, order: seq<nat>)
    requires InBounds(k, order)
  {
    forall a, b :: 0 <= a < b < |order| ==> k.insts[order[a]].lastUsedAt <= k.insts[order[b]].lastUsedAt
  }

  /** Any result sort.Slice may give: the same instances, least recently used first. */
  predicate Sorts(k: Core, found: seq<nat>, order: seq<nat>)
  {
    && InBounds(k, order) && NoRepeats(order) && SortedByUse(k, order)
    && (forall x :: x in order ==> x in found) && (forall x :: x in found ==> x in order)
  }

  predicate Enumerates(k: Core, all: seq<nat>)
  {
    && InBounds(k, all) && NoRepeats(all)
    && (forall i :: 0 <= i < |k.insts| ==> (i in all <==> Registered(k, i)))
  }

  function Keys(k: Core, order: seq<nat>): seq<int>
    requires InBounds(k, order)
  {
    seq(|order|, j requires 0 <= j < |order| => k.insts[order[j]].lastUsedAt)
  }

  /** Instances registered under other names than m. */
  function Others(k: Core, m: string): nat
  {
    |k.registry.Keys - {m}|
  }

  predicate AtCapacity(c: Settings, k: Core, m: string)
  {
    c.config.scheduler.Some? && c.config.scheduler.value.maxInstances.Some?
      && Others(k, m) >= c.config.scheduler.value.maxInstances.value
  }

  // ----- changing it -----

  function SetInst(k: Core, i: nat, inst: Inst): Core
    requires i < |k.insts|
  {
    k.(insts := k.insts[i := inst])
  }

  function Mark(k: Core, i: nat): Core
    requires i < |k.insts|
  {
    SetInst(k, i, k.insts[i].(draining := true, state := Stopping))
  }

  /** instDone's counterpart: the instance's tracker counts one more request. */
  function TrackInst(k: Core, i: nat, owner: nat): Core
    requires i < |k.insts|
  {
    SetInst(k, i, k.insts[i].(inflight := Tracked(k.insts[i].inflight))).(
      routes := k.routes + [Route(i, owner, false, false, false)])
  }

  function AddTotal(k: Core, r: nat): Core
    requires r < |k.routes|
  {
    k.(total := Tracked(k.total), routes := k.routes[r := k.routes[r].(tracked := true)])
  }

  /** The instance tryRouteReady would route to. */
  function ReadyInst(k: Core, m: string): Option<nat>
  {
    if m in k.registry && k.registry[m] < |k.insts| then
      var inst := k.insts[k.registry[m]];
      if inst.state == Ready && !inst.draining && inst.alive then Some(k.registry[m]) else None
    else None
  }

  /** The hit of tryRouteReady, up to and including the instance's tracker. */
  function TouchAndTrack(k: Core, i: nat, t: int, owner: nat): Core
    requires i < |k.insts|
  {
    TrackInst(SetInst(k, i, k.insts[i].(lastUsedAt := t)), i, owner)
  }

  function BrokenBy(a: Answer): set<int>
  {
    if a.Broken? then a.gpus else {}
  }

  /** The inventory of free megabytes by GPU, unless it could not be listed. */
  function InventoryOf(a: Answer): Option<map<int, int>>
  {
    if a.Listing? then a.inv else None
  }

  predicate Lacks(inv: map<int, int>, gpus: seq<int>)
  {
    exists x :: x in gpus && x !in inv
  }

  predicate HasRoom(inv: map<int, int>, g: int, minFreeMB: int)
  {
    g in inv && inv[g] >= minFreeMB
  }

  /** ensureFreeVRAM: the first GPU without enough memory decides. */
  function MemoryRefusal(inv: Option<map<int, int>>, gpus: seq<int>, minFreeMB: int): (r: Option<Outcome>)
    ensures r.None? <==> inv.Some? && forall x :: x in gpus ==> HasRoom(inv.value, x, minFreeMB)
    ensures r.Some? ==> r.value == Rejected(LowMemory) || r.value == Failure
  {
    if inv.None? then Some(Failure)
    else if gpus == [] then None
    else
      assert gpus[0] in gpus;
      if HasRoom(inv.value, gpus[0], minFreeMB) then MemoryRefusal(inv, gpus[1..], minFreeMB)
      else Some(if gpus[0] in inv.value then Rejected(LowMemory) else Failure)
  }

  function FloorOf(c: Settings, m: string): int
  {
    if m in c.config.models && c.config.models[m].minFreeMB.Some? then c.config.models[m].minFreeMB.value else 0
  }

  function ApplyLimits(c: Settings, k: Core, m: string, broken: set<int>): Core
    requires m in c.config.models
  {
    if c.power.None? then k else
    var mc := c.config.models[m];
    k.(power := Power.Applied(k.power, mc.gpus, mc.powerLimit, mc.powerLimits, broken),
       powerClean := k.powerClean && broken == {})
  }

  predicate ApplyFails(c: Settings, m: string, broken: set<int>)
    requires m in c.config.models
  {
    var mc := c.config.models[m];
    c.power.Some? && c.power.value.required && Power.Attempted(mc.gpus, mc.powerLimit, mc.powerLimits) * broken != {}
  }

  function RevertLimits(c: Settings, k: Core, gpus: seq<int>, broken: set<int>): Core
  {
    if c.power.None? then k else
    k.(power := Power.Reverted(c.power.value.defaults, k.power, gpus, broken),
       powerClean := k.powerClean && broken == {})
  }

  function FreshInst(c: Settings, m: string, port: int): Inst
    requires m in c.config.models
  {
    Inst(m, port, c.config.models[m].gpus, c.config.models[m].pinned == Some(true),
         false, 0, 0, Starting, false, FRESH, false, false)
  }

  // ----- the scheduling section -----

  /** Steps that name an instance. */
  predicate NamesInst(s: Sec)
  {
    Launches(s) || s.Register? || s.TrackNew? || s.Draining?
  }

  /** Every instance and route a step names exists. */
  predicate SecInBounds(k: Core, s: Sec)
  {
    && (NamesInst(s) ==> s.i < |k.insts|)
    && (s.Sort? ==> InBounds(k, s.found))
    && (s.Evict? || s.Still? ==> InBounds(k, s.ev.order))
    && (s.StopLoop? ==> InBounds(k, s.all))
    && (s.Draining? && s.ret.AfterEvict? ==> InBounds(k, s.ret.ev.order))
    && (s.Draining? && s.ret.AfterStop? ==> InBounds(k, s.ret.all))
    && (s.Draining? && s.ret.AfterReplace? ==> s.ret.n < |k.insts|)
    && (s.TrackTotal? ==> s.r < |k.routes|)
  }

  /** Steps of AcquireRoute, as opposed to StopAll's. */
  predicate Scheduling(s: Sec)
  {
    !s.StopScan? && !s.StopLoop? && !s.Leave? && !(s.Draining? && s.ret.AfterStop?)
  }

  /** The answer fits the step: a waiting drain wakes only if its channel is closed, a scan gets one of the
      orders the sort may produce. */
  predicate Enabled(c: Settings, m: string, k: Core, s: Sec, a: Answer)
  {
    && (Scheduling(s) ==> m in c.config.models)
    && SecInBounds(k, s)
    && (forall x :: x in k.registry ==> k.registry[x] < |k.insts|)
    && (s.Scan? ==> a.Order? && Lists(k, Gpus(c, m), a.order))
    && (s.Sort? ==> a.Order? && Sorts(k, s.found, a.order))
    && (s.StopScan? ==> a.Order? && Enumerates(k, a.order))
    && (s.Draining? && s.phase.Wait? && a.Yes? ==> s.phase.ch in k.insts[s.i].inflight.closed)
  }

  function DrainStep(c: Settings, k: Core, i: nat, phase: Drain, ret: Ret, a: Answer): (Core, Sec)
    requires i < |k.insts|
  {
    var inst := k.insts[i];
    match phase
    case Check => (k, Draining(i, if inst.inflight.count == 0 then Stop else Enlist, ret))
    case Enlist =>
      if inst.inflight.count == 0 then (k, Draining(i, Stop, ret))
      else (SetInst(k, i, inst.(inflight := Enlisted(inst.inflight, k.nextChan))).(nextChan := k.nextChan + 1),
        Draining(i, Wait(k.nextChan), ret))
    case Wait(_) => (if a.Yes? then k else SetInst(k, i, inst.(timedOut := true)), Draining(i, Stop, ret))
    case Stop => (SetInst(k, i, inst.(stopped := true, alive := inst.alive && !a.Yes?)), Draining(i, Revert, ret))
    case Revert => (RevertLimits(c, k, inst.gpus, BrokenBy(a)),
      Draining(i, if ret.AfterReplace? then Free else Delete, ret))
    case Delete => (k.(registry := k.registry - {inst.model}), Draining(i, Free, ret))
    case Free =>
      (if inst.port == 0 then k else k.(used := k.used - {inst.port}),
       match ret
       case AfterEvict(ev) => Still(ev)
       case AfterStop(all, j) => StopLoop(all, j + 1)
       case AfterReplace(n) => TrackNew(n))
  }

  /** Steps that only read the shared state. */
  predicate Looks(s: Sec)
  {
    s.Recheck? || s.Capacity? || s.FindGPUs? || s.ScanClock? || s.Scan? || s.Sort? || s.Still? || s.Final?
      || s.Vram? || s.StopScan?
  }

  function LookStep(c: Settings, m: string, k: Core, s: Sec, a: Answer): Sec
    requires Enabled(c, m, k, s, a) && Looks(s)
  {
    var target := Gpus(c, m);
    match s
    case Recheck => Reprobe(k.now)
    case Capacity =>
      if c.config.scheduler.None? || target == [] || c.config.models[m].minFreeMB.None? then Leave(Failure)
      else if AtCapacity(c, k, m) then Leave(Rejected(NoCapacity))
      else FindGPUs
    case FindGPUs => if InventoryOf(a).None? || Lacks(InventoryOf(a).value, target) then Leave(Failure) else ScanClock
    case ScanClock => Scan(k.now)
    case Scan(t) =>
      if PinnedAmong(k, target) then Leave(Rejected(PinnedConflict)) else Sort(t, a.order)
    case Sort(t, _) => Evict(Eviction(t, a.order, Keys(k, a.order), 0))
    case Still(ev) => if SomeConflict(k, target) then Evict(ev.(k := ev.k + 1)) else Vram
    case Final => if SomeConflict(k, target) then Leave(Rejected(UnableToFree)) else Vram
    case Vram =>
      (match MemoryRefusal(InventoryOf(a), target, FloorOf(c, m))
       case None => TakePort
       case Some(o) => Leave(o))
    case StopScan => StopLoop(a.order, 0)
  }

  /** The double-checked tryRouteReady. */
  function ReprobeStep(g: nat, m: string, k: Core, t: int): (Core, Sec)
  {
    match ReadyInst(k, m)
    case Some(i) => (TouchAndTrack(k, i, t, g), TrackTotal(|k.routes|))
    case None => (k, Capacity)
  }

  /** The head of evictConflicts' loop. */
  function EvictStep(c: Settings, k: Core, target: seq<int>, ev: Eviction): (Core, Sec)
    requires InBounds(k, ev.order)
  {
    if ev.k >= |ev.order| then (k, Final)
    else
      var i := ev.order[ev.k];
      var inst := k.insts[i];
      if !Overlaps(inst.gpus, target) then (k, Evict(ev.(k := ev.k + 1)))
      else if inst.startedAt != 0 && ev.t - inst.startedAt < MinUptimeOf(c) then (k, Leave(Rejected(MinUptime)))
      else (Mark(k, i), Draining(i, Check, AfterEvict(ev)))
  }

  function StopLoopStep(k: Core, all: seq<nat>, j: nat): (Core, Sec)
    requires InBounds(k, all)
  {
    if j >= |all| then (k, Leave(AllStopped)) else (Mark(k, all[j]), Draining(all[j], Check, AfterStop(all, j)))
  }

  function TakePortStep(c: Settings, k: Core, m: string): (Core, Sec)
    requires m in c.config.models
  {
    if c.config.scheduler.None? then (k, Leave(Failure)) else
    match FirstFree(c.config.scheduler.value.portStart, c.config.scheduler.value.portEnd, k.used)
    case None => (k, Leave(Rejected(NoPorts)))
    case Some(p) => (k.(used := k.used + {p}, insts := k.insts + [FreshInst(c, m, p)]), ApplyPower(|k.insts|))
  }

  /** Starting instance i, from its power limits to the moment it is ready to be registered. */
  function LaunchStep(c: Settings, m: string, k: Core, s: Sec, a: Answer): (Core, Sec)
    requires Launches(s) && SecInBounds(k, s) && m in c.config.models
  {
    match s
    case ApplyPower(i) =>
      (ApplyLimits(c, k, m, BrokenBy(a)), if ApplyFails(c, m, BrokenBy(a)) then FreeFailed(i, false) else Start(i))
    case Start(i) => if a.Yes? then (SetInst(k, i, k.insts[i].(alive := true)), Verify(i)) else (k, FreeFailed(i, true))
    case Verify(i) => (k, if a.Yes? then Stamp(i) else StopFailed(i))
    case StopFailed(i) =>
      (SetInst(k, i, k.insts[i].(stopped := true, alive := k.insts[i].alive && !a.Yes?)), FreeFailed(i, true))
    case FreeFailed(i, revert) =>
      (k.(used := k.used - {k.insts[i].port}), if revert then RevertFailed(i) else Leave(Failure))
    case RevertFailed(i) => (RevertLimits(c, k, Gpus(c, m), BrokenBy(a)), Leave(Failure))
    case Stamp(i) => (SetInst(k, i, k.insts[i].(state := Ready, startedAt := k.now, lastUsedAt := k.now)), Register(i))
  }

  predicate Launches(s: Sec)
  {
    s.ApplyPower? || s.Start? || s.Verify? || s.StopFailed? || s.FreeFailed? || s.RevertFailed? || s.Stamp?
  }

  /** The new instance takes the model's entry; a previous holder of it would be drained and stopped. */
  function RegisterStep(m: string, k: Core, i: nat): (Core, Sec)
    requires m in k.registry ==> k.registry[m] < |k.insts|
  {
    if m in k.registry
    then (Mark(k, k.registry[m]).(registry := k.registry[m := i]), Draining(k.registry[m], Check, AfterReplace(i)))
    else (k.(registry := k.registry[m := i]), TrackNew(i))
  }

  /** One step of the goroutine g that holds the permit, scheduling model m. */
  function SecStep(c: Settings, g: nat, m: string, k: Core, s: Sec, a: Answer): (Core, Sec)
    requires Enabled(c, m, k, s, a) && !s.Leave?
  {
    if Looks(s) then (k, LookStep(c, m, k, s, a))
    else if Launches(s) then LaunchStep(c, m, k, s, a)
    else
      match s
      case Reprobe(t) => ReprobeStep(g, m, k, t)
      case Evict(ev) => EvictStep(c, k, Gpus(c, m), ev)
      case Draining(i, phase, ret) => DrainStep(c, k, i, phase, ret, a)
      case TakePort => TakePortStep(c, k, m)
      case Register(i) => RegisterStep(m, k, i)
      case TrackNew(i) => (TrackInst(k, i, g), TrackTotal(|k.routes|))
      case TrackTotal(r) => (AddTotal(k, r), Leave(Routed(r)))
      case StopLoop(all, j) => StopLoopStep(k, all, j)
  }

  // ----- what happens beside the permit holder -----

  datatype Env =
    | Tick(d: nat)
    | Crash(i: nat)
    | Touch(m: string, t: int, owner: nat)
    | CountTotal(r: nat)
    | DoneInst(r: nat)
    | DoneTotal(r: nat)

  /** A route's Done exists once it is in both trackers; its two halves run in order, any number of times. */
  predicate EnvEnabled(k: Core, e: Env)
  {
    match e
    case Tick(_) => true
    case Crash(i) => i < |k.insts|
    case Touch(m, _, _) => ReadyInst(k, m).Some?
    case CountTotal(r) => r < |k.routes| && !k.routes[r].tracked
    case DoneInst(r) => r < |k.routes| && k.routes[r].tracked && k.routes[r].inst < |k.insts|
    case DoneTotal(r) => r < |k.routes| && k.routes[r].tracked && k.routes[r].instDone
  }

  function EnvStep(k: Core, e: Env): Core
    requires EnvEnabled(k, e)
  {
    match e
    case Tick(d) => k.(now := k.now + d)
    case Crash(i) => SetInst(k, i, k.insts[i].(alive := false))
    case Touch(m, t, owner) => TouchAndTrack(k, ReadyInst(k, m).value, t, owner)
    case CountTotal(r) => AddTotal(k, r)
    case DoneInst(r) =>
      var route := k.routes[r];
      if route.instDone then k
      else
        var inst := k.insts[route.inst];
        SetInst(k, route.inst, inst.(inflight := Finished(inst.inflight))).(
          routes := k.routes[r := route.(instDone := true)])
    case DoneTotal(r) =>
      if k.routes[r].totalDone then k
      else k.(total := Finished(k.total), routes := k.routes[r := k.routes[r].(totalDone := true)])
  }
}
