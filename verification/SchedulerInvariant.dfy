/**
 What every reachable state of the scheduler satisfies.  The invariant speaks of the shared state and of
 who holds the permit, at which step; who that is in terms of goroutines is the business of SchedulerRuns.
 */
module SchedulerInvariant {
  import opened Wrappers
  import opened Config
  import opened SchedulerCore
  import Power

  datatype Hold = Nobody | Holds(m: string, s: Sec)

  predicate HoldsPort(s: Sec)
  {
    || (Launches(s) && !s.RevertFailed?) || s.Register?
    || (s.Draining? && s.phase.Free?)
  }

  /** The instance whose port the permit holder has acquired or not yet given back. */
  function HandOf(h: Hold): Option<nat>
  {
    if h.Holds? && HoldsPort(h.s) then Some(h.s.i) else None
  }

  predicate ForcesLimits(s: Sec)
  {
    (Launches(s) && !s.ApplyPower? && !(s.FreeFailed? && !s.revert)) || s.Register?
  }

  /** The model whose limits are in force although it is not registered. */
  function ForcedBy(h: Hold): Option<string>
  {
    if h.Holds? && ForcesLimits(h.s) then Some(h.m) else None
  }

  predicate Drains(h: Hold, i: nat)
  {
    h.Holds? && h.s.Draining? && h.s.i == i
  }

  /** The drain of i is past its waiting phase. */
  predicate DrainedPast(h: Hold, i: nat)
  {
    Drains(h, i) && (h.s.phase.Stop? || h.s.phase.Revert? || h.s.phase.Delete? || h.s.phase.Free?)
  }

  /** The drain of i has reverted its limits but not yet removed it. */
  predicate Deleting(h: Hold, i: nat)
  {
    Drains(h, i) && h.s.phase.Delete?
  }

  ghost predicate Owner(k: Core, h: Hold, i: nat)
  {
    Registered(k, i) || HandOf(h) == Some(i)
  }

  ghost predicate InstsInv(c: Settings, k: Core)
  {
    && (forall i :: 0 <= i < |k.insts| ==>
          && Canonical(c, k.insts[i].model)
          && k.insts[i].gpus == Gpus(c, k.insts[i].model)
          && k.insts[i].pinned == (c.config.models[k.insts[i].model].pinned == Some(true)))
    && (forall m :: m in k.registry ==> k.registry[m] < |k.insts| && k.insts[k.registry[m]].model == m)
  }

  // ----- ports and GPUs -----

  ghost predicate HasPort(c: Settings, k: Core, i: nat)
  {
    && i < |k.insts| && k.insts[i].port in k.used && c.config.scheduler.Some?
    && c.config.scheduler.value.portStart <= k.insts[i].port <= c.config.scheduler.value.portEnd
  }

  ghost predicate Apart(k: Core, i: nat, j: nat)
  {
    i < |k.insts| && j < |k.insts| && k.insts[i].port != k.insts[j].port && !Overlaps(k.insts[i].gpus, k.insts[j].gpus)
  }

  ghost predicate PortOwned(k: Core, h: Hold, p: int)
  {
    exists i: nat :: i < |k.insts| && Owner(k, h, i) && k.insts[i].port == p
  }

  /** Ports in use are exactly those of the registered instances and of the permit holder's hand; the
      owners have pairwise different ports and disjoint GPUs. */
  ghost predicate PortInv(c: Settings, k: Core, h: Hold)
  {
    && (forall i: nat :: Owner(k, h, i) ==> HasPort(c, k, i))
    && (forall i: nat, j: nat :: Owner(k, h, i) && Owner(k, h, j) && i != j ==> Apart(k, i, j))
    && (forall p :: p in k.used ==> PortOwned(k, h, p))
    && (HandOf(h).Some? ==> !Registered(k, HandOf(h).value))
  }

  // ----- in-flight counts -----

  function Weight(route: Route, i: nat): nat
  {
    if route.inst == i && !route.instDone then 1 else 0
  }

  /** Routes to instance i that have not been given back. */
  function Outstanding(routes: seq<Route>, i: nat): nat
  {
    if routes == [] then 0 else Outstanding(routes[..|routes| - 1], i) + Weight(routes[|routes| - 1], i)
  }

  function TotalWeight(route: Route): nat
  {
    if route.tracked && !route.totalDone then 1 else 0
  }

  /** Routes the scheduler-wide tracker counts. */
  function InTotal(routes: seq<Route>): nat
  {
    if routes == [] then 0 else InTotal(routes[..|routes| - 1]) + TotalWeight(routes[|routes| - 1])
  }

  ghost predicate CountInv(k: Core)
  {
    && (forall i :: 0 <= i < |k.insts| ==>
          && k.insts[i].inflight.count == Outstanding(k.routes, i)
          && (k.insts[i].inflight.waiters != [] ==> k.insts[i].inflight.count > 0)
          && (forall ch :: ch in k.insts[i].inflight.waiters ==> ch < k.nextChan)
          && (forall ch :: ch in k.insts[i].inflight.closed ==> ch < k.nextChan))
    && k.total.count == InTotal(k.routes)
    && (forall r :: 0 <= r < |k.routes| ==>
          && k.routes[r].inst < |k.insts|
          && (k.routes[r].totalDone ==> k.routes[r].instDone)
          && (k.routes[r].instDone ==> k.routes[r].tracked))
  }

  // ----- draining -----

  /** No more routes can reach i: it is out of the registry, or its drain is over. */
  ghost predicate Shut(k: Core, h: Hold, i: nat)
  {
    !Registered(k, i) || DrainedPast(h, i)
  }

  ghost predicate DrainOk(k: Core, h: Hold, i: nat)
    requires i < |k.insts|
  {
    var inst := k.insts[i];
    && (Registered(k, i) ==>
          && (inst.draining <==> Drains(h, i))
          && inst.state == (if inst.draining then Stopping else Ready)
          && 0 < inst.startedAt <= k.now)
    && (inst.stopped ==> Shut(k, h, i))
    && (Shut(k, h, i) ==> inst.inflight.count == 0 || inst.timedOut)
    && (Drains(h, i) && h.s.phase.Wait? ==> (h.s.phase.ch in inst.inflight.closed ==> inst.inflight.count == 0))
  }

  ghost predicate DrainInv(k: Core, h: Hold)
  {
    k.now > 0 && forall i :: 0 <= i < |k.insts| ==> DrainOk(k, h, i)
  }

  // ----- power limits -----

  /** Where a GPU should stand while m's limits are in force. */
  function Wanted(c: Settings, m: string, g: int): Option<int>
    requires m in c.config.models
  {
    var o := Power.Override(c.config.models[m].powerLimit, c.config.models[m].powerLimits, g);
    if o.Some? then o
    else if c.power.Some? && g in c.power.value.defaults then Some(c.power.value.defaults[g]) else None
  }

  ghost predicate InForce(k: Core, h: Hold, m: string)
  {
    || (m in k.registry && !Deleting(h, k.registry[m]))
    || ForcedBy(h) == Some(m)
  }

  ghost predicate PowerOk(c: Settings, k: Core, h: Hold, g: int)
    requires c.power.Some? && g in c.power.value.defaults
  {
    && g in k.power
    && (forall m :: InForce(k, h, m) && m in c.config.models && g in Gpus(c, m) ==> Some(k.power[g]) == Wanted(c, m, g))
    && ((forall m :: InForce(k, h, m) ==> g !in Gpus(c, m)) ==> k.power[g] == c.power.value.defaults[g])
  }

  ghost predicate PowerInv(c: Settings, k: Core, h: Hold)
  {
    c.power.Some? && k.powerClean ==> forall g :: g in c.power.value.defaults ==> PowerOk(c, k, h, g)
  }

  // ----- capacity -----

  ghost predicate CapInv(c: Settings, k: Core)
  {
    c.config.scheduler.Some? && c.config.scheduler.value.maxInstances.Some? ==>
      |k.registry| <= c.config.scheduler.value.maxInstances.value
  }

  // ----- the permit holder's own facts -----

  /** There will be room for m: the capacity check passed, and the registry only shrinks until m registers. */
  ghost predicate Room(c: Settings, k: Core, m: string)
  {
    !AtCapacity(c, k, m)
  }

  /** The conflicts still standing are those of order[from..], apart from the one being drained. */
  ghost predicate Standing(k: Core, target: seq<int>, order: seq<nat>, from: nat, current: Option<nat>)
  {
    && (forall j :: from <= j < |order| ==> Registered(k, order[j]))
    && (forall i: nat :: Conflict(k, target, i) ==>
       current == Some(i) || exists j :: from <= j < |order| && order[j] == i)
  }

  /** An eviction in progress has removed a prefix of the sorted conflicts, none of them pinned or too young. */
  ghost predicate EvictFacts(c: Settings, k: Core, target: seq<int>, ev: Eviction, from: nat)
  {
    && InBounds(k, ev.order) && NoRepeats(ev.order) && |ev.keys| == |ev.order| && from <= |ev.order|
    && (forall a, b :: 0 <= a < b < |ev.keys| ==> ev.keys[a] <= ev.keys[b])
    && (forall j :: 0 <= j < |ev.order| ==> !k.insts[ev.order[j]].pinned && Overlaps(k.insts[ev.order[j]].gpus, target))
    && (forall j :: 0 <= j < from ==> ev.t - k.insts[ev.order[j]].startedAt >= MinUptimeOf(c))
  }

  ghost predicate Evicted(k: Core, order: seq<nat>, upTo: int)
    requires upTo <= |order| && InBounds(k, order)
  {
    forall j :: 0 <= j < upTo ==> k.insts[order[j]].stopped && !Registered(k, order[j])
  }

  ghost predicate DrainFacts(k: Core, i: nat, phase: Drain)
    requires i < |k.insts|
  {
    && k.insts[i].draining
    && (phase.Free? <==> !Registered(k, i))
    && (phase.Revert? || phase.Delete? || phase.Free? ==> k.insts[i].stopped)
    && (phase.Wait? ==> phase.ch < k.nextChan)
    && (phase.Free? ==> k.insts[i].model !in k.registry)
  }

  ghost predicate HandFacts(k: Core, i: nat, m: string)
  {
    i < |k.insts| && k.insts[i].model == m && !k.insts[i].draining && !k.insts[i].timedOut
  }

  ghost predicate LeaveFacts(c: Settings, k: Core, m: string, o: Outcome)
  {
    match o
    case Routed(r) => r < |k.routes| && k.routes[r].tracked && k.routes[r].inst < |k.insts|
      && k.insts[k.routes[r].inst].model == m
    case Rejected(NoPorts) => c.config.scheduler.Some? && c.config.scheduler.value.maxInstances.None?
    case Rejected(UnableToFree) => false
    case _ => true
  }

  /** Steps between the capacity check and registration, failures apart. */
  predicate KeepsRoom(s: Sec)
  {
    || s.FindGPUs? || s.ScanClock? || s.Scan? || s.Sort? || s.Evict? || s.Still? || s.Final? || s.Vram? || s.TakePort?
    || s.ApplyPower? || s.Start? || s.Verify? || s.Stamp? || s.Register? || (s.Draining? && s.ret.AfterEvict?)
  }

  /** Steps after a successful eviction and before registration. */
  predicate GPUsFree(s: Sec)
  {
    s.Final? || s.Vram? || s.TakePort? || Launches(s) || s.Register?
  }

  /** The conflicts collected and not yet sorted still stand, and none of them is pinned. */
  ghost predicate SortFacts(k: Core, target: seq<int>, found: seq<nat>)
  {
    && InBounds(k, found) && NoRepeats(found) && Standing(k, target, found, 0, None)
    && (forall j :: 0 <= j < |found| ==> !k.insts[found[j]].pinned && Overlaps(k.insts[found[j]].gpus, target))
  }

  ghost predicate EvictingFacts(c: Settings, k: Core, target: seq<int>, s: Sec)
    requires SecInBounds(k, s)
  {
    && (s.Sort? ==> SortFacts(k, target, s.found))
    && (s.Evict? ==>
          EvictFacts(c, k, target, s.ev, s.ev.k) && Evicted(k, s.ev.order, s.ev.k)
            && Standing(k, target, s.ev.order, s.ev.k, None))
    && (s.Still? ==>
          EvictFacts(c, k, target, s.ev, s.ev.k + 1) && Evicted(k, s.ev.order, s.ev.k + 1)
            && Standing(k, target, s.ev.order, s.ev.k + 1, None))
    && (s.Draining? && s.ret.AfterEvict? ==>
          && EvictFacts(c, k, target, s.ret.ev, s.ret.ev.k + 1) && Evicted(k, s.ret.ev.order, s.ret.ev.k)
          && s.ret.ev.order[s.ret.ev.k] == s.i && Standing(k, target, s.ret.ev.order, s.ret.ev.k + 1, Some(s.i)))
  }

  /** all[from..] are the instances still registered, apart from the one being drained. */
  ghost predicate Remaining(k: Core, all: seq<nat>, from: nat, current: Option<nat>)
  {
    && NoRepeats(all) && from <= |all|
    && (forall i: nat :: Registered(k, i) ==> current == Some(i) || exists l :: from <= l < |all| && all[l] == i)
    && (forall l :: from <= l < |all| ==> Registered(k, all[l]))
  }

  ghost predicate StoppingFacts(k: Core, s: Sec)
  {
    && (s.StopLoop? ==> Remaining(k, s.all, s.k, None))
    && (s.Draining? && s.ret.AfterStop? ==>
          s.ret.k < |s.ret.all| && s.ret.all[s.ret.k] == s.i && Remaining(k, s.ret.all, s.ret.k + 1, Some(s.i)))
  }

  ghost predicate RouteFacts(c: Settings, k: Core, m: string, s: Sec)
    requires SecInBounds(k, s)
  {
    && (s.TrackNew? ==> Registered(k, s.i) && k.insts[s.i].model == m && !k.insts[s.i].draining)
    && (s.TrackTotal? ==>
          !k.routes[s.r].tracked && k.routes[s.r].inst < |k.insts| && k.insts[k.routes[s.r].inst].model == m)
    && (s.Leave? ==> LeaveFacts(c, k, m, s.outcome))
  }

  ghost predicate PlaceFacts(c: Settings, k: Core, m: string, s: Sec)
    requires SecInBounds(k, s)
  {
    && (KeepsRoom(s) ==> Room(c, k, m))
    && (GPUsFree(s) ==> !SomeConflict(k, Gpus(c, m)))
    && (Launches(s) || s.Register? ==>
          HandFacts(k, s.i, m) && (k.insts[s.i].stopped ==> s.FreeFailed? || s.RevertFailed?))
    && (s.Register? ==> k.insts[s.i].state == Ready && 0 < k.insts[s.i].startedAt <= k.now)
    && (s.Draining? ==> DrainFacts(k, s.i, s.phase) && !s.ret.AfterReplace?)
  }

  ghost predicate SecFacts(c: Settings, k: Core, m: string, s: Sec)
    requires SecInBounds(k, s)
  {
    && PlaceFacts(c, k, m, s)
    && EvictingFacts(c, k, Gpus(c, m), s)
    && StoppingFacts(k, s)
    && RouteFacts(c, k, m, s)
  }

  ghost predicate SecInv(c: Settings, k: Core, h: Hold)
  {
    h.Holds? ==> (Scheduling(h.s) ==> Canonical(c, h.m)) && SecInBounds(k, h.s) && SecFacts(c, k, h.m, h.s)
  }

  ghost predicate BaseInv(c: Settings, k: Core, h: Hold)
  {
    InstsInv(c, k) && PortInv(c, k, h) && CountInv(k) && DrainInv(k, h) && PowerInv(c, k, h) && CapInv(c, k)
  }

  ghost predicate CoreInv(c: Settings, k: Core, h: Hold)
  {
    BaseInv(c, k, h) && SecInv(c, k, h)
  }

  /** A validated configuration in scheduler mode. */
  ghost predicate ValidSettings(c: Settings)
  {
    c.config.scheduler.Some? && ValidScheduler(c.config)
  }
}
