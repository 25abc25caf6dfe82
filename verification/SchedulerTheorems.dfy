/** The scheduler's guarantees, each about every reachable state. */
module SchedulerTheorems {
  import opened Wrappers
  import opened Config
  import opened Sets
  import opened SchedulerCore
  import opened SchedulerInvariant
  import opened SchedulerLaunch
  import opened SchedulerRuns
  import opened SchedulerRunsInvariant

  /** A validated configuration in scheduler mode and a clock past Go's zero time. */
  ghost predicate Sound(c: Settings, now: int)
  {
    ValidSettings(c) && AliasesOk(c.config.models) && now > 0
  }

  /** A state some run leads to. */
  ghost predicate Reachable(c: Settings, w: World)
  {
    exists now, es :: Sound(c, now) && w == Run(c, now, es)
  }

  lemma ReachableInv(c: Settings, w: World)
    requires Reachable(c, w)
    ensures ValidSettings(c) && AliasesOk(c.config.models) && WorldInv(c, w)
  {
    var now, es :| Sound(c, now) && w == Run(c, now, es);
    RunInv(c, now, es);
  }

  // ----- permit and waiters -----

  /** The scheduling section holds at most one goroutine, and the channel is full exactly while it does. */
  lemma OneInSection(c: Settings, w: World)
    requires Reachable(c, w)
    ensures w.permit.Some? <==> exists g: nat :: g < |w.threads| && HasPermit(w.threads[g].pc)
    ensures forall g: nat, g': nat ::
              g < |w.threads| && g' < |w.threads| && HasPermit(w.threads[g].pc) && HasPermit(w.threads[g'].pc) ==>
                g == g'
  {
    ReachableInv(c, w);
    if w.permit.Some? {
      assert HasPermit(w.threads[w.permit.value].pc);
    }
  }

  /** A model is in the waiter table exactly when one goroutine is waiting for it, and never two are. */
  lemma WaitersExact(c: Settings, w: World, m: string)
    requires Reachable(c, w)
    ensures m in w.waiters <==> exists g: nat :: WaitsFor(w, g, m)
    ensures forall g: nat, g': nat :: WaitsFor(w, g, m) && WaitsFor(w, g', m) ==> g == g'
  {
    ReachableInv(c, w);
  }

  // ----- GPUs -----

  function ConfiguredGPUs(c: Settings): set<int>
  {
    set m, g | m in c.config.models && g in c.config.models[m].gpus :: g
  }

  lemma FirstGPUsDiffer(c: Settings, k: Core, h: Hold, m: string, m': string)
    requires ValidSettings(c) && InstsInv(c, k) && PortInv(c, k, h) && m in k.registry && m' in k.registry && m != m'
    ensures Gpus(c, m) != [] && Gpus(c, m') != [] && Gpus(c, m)[0] != Gpus(c, m')[0]
  {
    var i, j := k.registry[m], k.registry[m'];
    assert Owner(k, h, i) && Owner(k, h, j) && Apart(k, i, j);
    assert Schedulable(c.config.models[m]) && Schedulable(c.config.models[m']);
    assert Gpus(c, m)[0] in k.insts[i].gpus && Gpus(c, m')[0] in k.insts[j].gpus;
  }

  lemma RegistryFitsGPUs(c: Settings, k: Core, h: Hold)
    requires ValidSettings(c) && InstsInv(c, k) && PortInv(c, k, h)
    ensures |k.registry| <= |ConfiguredGPUs(c)|
  {
    forall m | m in k.registry
      ensures Gpus(c, m) != []
    {
      assert Canonical(c, k.insts[k.registry[m]].model) && Schedulable(c.config.models[m]);
    }
    var first := map m | m in k.registry :: Gpus(c, m)[0];
    forall x, y | x in first && y in first && first[x] == first[y]
      ensures x == y
    {
      if x != y {
        FirstGPUsDiffer(c, k, h, x, y);
      }
    }
    InjectiveSize(first);
    forall g | g in first.Values
      ensures g in ConfiguredGPUs(c)
    {
      var m :| m in first && first[m] == g;
      assert g in c.config.models[m].gpus;
    }
    SubsetSize(first.Values, ConfiguredGPUs(c));
    assert first.Keys == k.registry.Keys;
  }

  /** No GPU is assigned twice, counting registered instances and the one being started. */
  lemma GPUsExclusive(c: Settings, w: World, i: nat, j: nat)
    requires Reachable(c, w) && Owner(w.core, HoldOf(w), i) && Owner(w.core, HoldOf(w), j) && i != j
    ensures i < |w.core.insts| && j < |w.core.insts|
    ensures forall x :: x in w.core.insts[i].gpus ==> x !in w.core.insts[j].gpus
  {
    ReachableInv(c, w);
    assert Apart(w.core, i, j);
  }

  /** Each instance sits under its own model's name, and there are no more of them than the cap or the
      configured GPUs allow. */
  lemma RegistryBounded(c: Settings, w: World)
    requires Reachable(c, w)
    ensures forall m :: m in w.core.registry ==>
              w.core.registry[m] < |w.core.insts| && w.core.insts[w.core.registry[m]].model == m
    ensures |w.core.registry| <= |ConfiguredGPUs(c)|
    ensures c.config.scheduler.value.maxInstances.Some? ==>
            |w.core.registry| <= c.config.scheduler.value.maxInstances.value
  {
    ReachableInv(c, w);
    RegistryFitsGPUs(c, w.core, HoldOf(w));
  }

  // ----- ports -----

  /** The ports in use are exactly the registered instances' and the one in the permit holder's hand; all
      lie in the range; and while nobody schedules there are as many as registered instances. */
  lemma PortsConserved(c: Settings, w: World, p: int)
    requires Reachable(c, w)
    ensures p in w.core.used <==> PortOwned(w.core, HoldOf(w), p)
    ensures p in w.core.used ==> c.config.scheduler.value.portStart <= p <= c.config.scheduler.value.portEnd
    ensures w.permit == None ==> |w.core.used| == |w.core.registry|
    ensures w.permit == None ==> (p in w.core.used <==>
            exists i: nat :: Registered(w.core, i) && w.core.insts[i].port == p)
  {
    ReachableInv(c, w);
    var k, h := w.core, HoldOf(w);
    if PortOwned(k, h, p) {
      var i: nat :| i < |k.insts| && Owner(k, h, i) && k.insts[i].port == p;
      assert HasPort(c, k, i);
    }
    if w.permit == None {
      UsedCount(c, k, h);
      if p in k.used {
        assert PortOwned(k, h, p);
        var i: nat :| i < |k.insts| && Owner(k, h, i) && k.insts[i].port == p;
        assert Registered(k, i);
      }
      if i: nat :| Registered(k, i) && k.insts[i].port == p {
        assert Owner(k, h, i) && HasPort(c, k, i);
      }
    }
  }

  /** No two instances that are registered or being started have the same port. */
  lemma PortsDistinct(c: Settings, w: World, i: nat, j: nat)
    requires Reachable(c, w) && Owner(w.core, HoldOf(w), i) && Owner(w.core, HoldOf(w), j) && i != j
    ensures i < |w.core.insts| && j < |w.core.insts| && w.core.insts[i].port != w.core.insts[j].port
  {
    ReachableInv(c, w);
    assert Apart(w.core, i, j);
  }

  /** Three exits of the code are dead: with max_instances set the pool is never found empty; eviction never
      ends with conflicts left; and registration never finds a previous entry to replace. */
  lemma DeadExits(c: Settings, w: World, g: nat)
    requires Reachable(c, w) && g < |w.threads|
    ensures var pc := w.threads[g].pc;
            && (c.config.scheduler.value.maxInstances.Some? ==> pc != Finished(Rejected(NoPorts)))
            && pc != Finished(Rejected(UnableToFree))
            && !(pc.In? && pc.s.Draining? && pc.s.ret.AfterReplace?)
  {
    ReachableInv(c, w);
    assert ThreadOk(c, w.core, g, w.threads[g]);
    if w.threads[g].pc.In? {
      assert HoldOf(w) == Holds(w.threads[g].m, w.threads[g].pc.s);
    }
  }

  /** A route is always to an instance of the model its caller resolved to. */
  lemma RoutedToOwnModel(c: Settings, w: World, g: nat, r: nat)
    requires Reachable(c, w) && g < |w.threads| && w.threads[g].pc == Finished(Routed(r))
    ensures r < |w.core.routes| && w.core.routes[r].inst < |w.core.insts|
            && w.core.insts[w.core.routes[r].inst].model == w.threads[g].m
  {
    ReachableInv(c, w);
    assert ThreadOk(c, w.core, g, w.threads[g]);
  }

  // ----- draining -----

  lemma {:induction false} RouteCounts(routes: seq<Route>, r: nat)
    requires r < |routes| && !routes[r].instDone
    ensures Outstanding(routes, routes[r].inst) > 0
  {
    if r < |routes| - 1 {
      RouteCounts(routes[..|routes| - 1], r);
    }
  }

  /** An instance is stopped with requests in flight only if its drain's timer fired. */
  lemma DrainBeforeStop(c: Settings, w: World, i: nat)
    requires Reachable(c, w) && i < |w.core.insts|
    ensures var inst := w.core.insts[i];
            inst.stopped && inst.inflight.count > 0 ==> inst.timedOut
  {
    ReachableInv(c, w);
    assert DrainOk(w.core, HoldOf(w), i);
  }

  /** While a route is outstanding and its instance's drain has not timed out, the instance keeps its port:
      the port is in use, and no other registered or starting instance has it. */
  lemma PortNotReused(c: Settings, w: World, r: nat, j: nat)
    requires Reachable(c, w) && r < |w.core.routes| && !w.core.routes[r].instDone
    ensures var i := w.core.routes[r].inst;
            && i < |w.core.insts|
            && (!w.core.insts[i].timedOut ==>
                  && w.core.insts[i].port in w.core.used
                  && (Owner(w.core, HoldOf(w), j) && j != i ==>
                     j < |w.core.insts| && w.core.insts[j].port != w.core.insts[i].port))
  {
    ReachableInv(c, w);
    var k, h := w.core, HoldOf(w);
    var i := k.routes[r].inst;
    RouteCounts(k.routes, r);
    assert DrainOk(k, h, i);
    if !k.insts[i].timedOut {
      assert Owner(k, h, i) && HasPort(c, k, i);
      if Owner(k, h, j) && j != i {
        assert Apart(k, i, j);
      }
    }
  }

  // ----- in-flight conservation -----

  predicate Unreleased(route: Route) { !route.instDone }
  predicate Half(route: Route) { route.instDone && !route.totalDone }
  predicate Pending(route: Route) { !route.tracked }

  function CountWhere(p: Route -> bool, routes: seq<Route>): nat
  {
    if routes == [] then 0 else CountWhere(p, routes[..|routes| - 1]) + if p(routes[|routes| - 1]) then 1 else 0
  }

  function SumOutstanding(routes: seq<Route>, n: nat): nat
  {
    if n == 0 then 0 else SumOutstanding(routes, n - 1) + Outstanding(routes, n - 1)
  }

  function SumInflight(insts: seq<Inst>): int
  {
    if insts == [] then 0 else SumInflight(insts[..|insts| - 1]) + insts[|insts| - 1].inflight.count
  }

  lemma {:induction false} SumOne(routes: seq<Route>, n: nat)
    requires routes != []
    ensures var last := routes[|routes| - 1];
            SumOutstanding(routes, n) ==
            SumOutstanding(routes[..|routes| - 1], n) + if last.inst < n && !last.instDone then 1 else 0
  {
    if n > 0 {
      SumOne(routes, n - 1);
    }
  }

  lemma {:induction false} SumIsUnreleased(routes: seq<Route>, n: nat)
    requires forall r :: 0 <= r < |routes| ==> routes[r].inst < n
    ensures SumOutstanding(routes, n) == CountWhere(Unreleased, routes)
  {
    if routes == [] {
      SumNone(n);
    } else {
      SumIsUnreleased(routes[..|routes| - 1], n);
      SumOne(routes, n);
    }
  }

  lemma {:induction false} SumNone(n: nat)
    ensures SumOutstanding([], n) == 0
  {
    if n > 0 {
      SumNone(n - 1);
    }
  }

  lemma {:induction false} SumMatches(insts: seq<Inst>, routes: seq<Route>)
    requires forall i :: 0 <= i < |insts| ==> insts[i].inflight.count == Outstanding(routes, i)
    ensures SumInflight(insts) == SumOutstanding(routes, |insts|)
  {
    if insts != [] {
      SumMatches(insts[..|insts| - 1], routes);
    }
  }

  lemma {:induction false} TotalBalance(routes: seq<Route>)
    requires forall r :: 0 <= r < |routes| ==>
             (routes[r].totalDone ==> routes[r].instDone) && (routes[r].instDone ==> routes[r].tracked)
    ensures InTotal(routes) + CountWhere(Pending, routes) == CountWhere(Unreleased, routes) + CountWhere(Half, routes)
  {
    if routes != [] {
      TotalBalance(routes[..|routes| - 1]);
    }
  }

  /** The instances' counts, those of removed instances included, add up to the unreleased routes; and the
      scheduler-wide count differs from them only by routes between their two updates. */
  lemma InflightConserved(c: Settings, w: World)
    requires Reachable(c, w)
    ensures var k := w.core;
            && SumInflight(k.insts) == CountWhere(Unreleased, k.routes)
            && k.total.count == SumInflight(k.insts) - CountWhere(Pending, k.routes) + CountWhere(Half, k.routes)
  {
    ReachableInv(c, w);
    var k := w.core;
    SumMatches(k.insts, k.routes);
    SumIsUnreleased(k.routes, |k.insts|);
    TotalBalance(k.routes);
  }

  // ----- power -----

  /** The limits are a function of the registry: a GPU with a default stands where the registered model that
      owns it wants it, and at its default if no model does. */
  ghost predicate FollowsRegistry(c: Settings, k: Core)
  {
    c.power.Some? ==> forall g :: g in c.power.value.defaults ==>
      && g in k.power
      && (forall m :: m in k.registry && g in Gpus(c, m) ==>
         m in c.config.models && Some(k.power[g]) == Wanted(c, m, g))
      && ((forall m :: m in k.registry ==> g !in Gpus(c, m)) ==> k.power[g] == c.power.value.defaults[g])
  }

  lemma OkFollows(c: Settings, k: Core, h: Hold)
    requires InstsInv(c, k) && PowerInv(c, k, h) && k.powerClean && forall m :: InForce(k, h, m) <==> m in k.registry
    ensures FollowsRegistry(c, k)
  {
    forall m | m in k.registry
      ensures m in c.config.models
    {
      assert Canonical(c, k.insts[k.registry[m]].model);
    }
    if c.power.Some? {
      forall g | g in c.power.value.defaults
        ensures PowerOk(c, k, h, g)
      {
      }
    }
  }

  /** While nobody schedules and no nvidia-smi call has failed, the limits follow the registry. */
  lemma PowerFollowsRegistry(c: Settings, w: World)
    requires Reachable(c, w) && w.permit == None && w.core.powerClean
    ensures FollowsRegistry(c, w.core)
  {
    ReachableInv(c, w);
    OkFollows(c, w.core, HoldOf(w));
  }
}
