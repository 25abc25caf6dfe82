/** Starting a new instance: port, power limits, start, verify, register, and the failure exits. */
module SchedulerLaunch {
  import opened Wrappers
  import opened Config
  import opened Ports
  import opened Inflight
  import opened SchedulerCore
  import opened SchedulerInvariant
  import opened SchedulerFrame
  import opened SchedulerDrain
  import opened SchedulerSection
  import opened Sets

  // ----- taking a port -----

  function WithInst(k: Core, inst: Inst): Core
  {
    k.(used := k.used + {inst.port}, insts := k.insts + [inst])
  }

  lemma NewRegistered(c: Settings, k: Core, inst: Inst)
    requires InstsInv(c, k)
    ensures forall x: nat :: Registered(WithInst(k, inst), x) <==> Registered(k, x)
  {
  }

  lemma TakePortPorts(c: Settings, k: Core, h: Hold, m: string, p: int, h': Hold)
    requires InstsInv(c, k) && PortInv(c, k, h) && HandOf(h).None? && HandOf(h') == Some(|k.insts|)
    requires m in c.config.models && !SomeConflict(k, Gpus(c, m)) && p !in k.used && c.config.scheduler.Some?
    requires c.config.scheduler.value.portStart <= p <= c.config.scheduler.value.portEnd
    ensures PortInv(c, WithInst(k, FreshInst(c, m, p)), h')
  {
    var n, k' := |k.insts|, WithInst(k, FreshInst(c, m, p));
    NewRegistered(c, k, FreshInst(c, m, p));
    forall x: nat | Owner(k', h', x)
      ensures HasPort(c, k', x)
    {
      assert x != n ==> Owner(k, h, x) && HasPort(c, k, x);
    }
    forall x: nat | Owner(k', h', x) && x != n
      ensures Apart(k', x, n) && Apart(k', n, x)
    {
      assert Owner(k, h, x) && HasPort(c, k, x);
      assert !Conflict(k, Gpus(c, m), x);
    }
    forall x: nat, y: nat | Owner(k', h', x) && Owner(k', h', y) && x != y
      ensures Apart(k', x, y)
    {
      assert x != n && y != n ==> Owner(k, h, x) && Owner(k, h, y) && Apart(k, x, y);
    }
    forall q | q in k'.used
      ensures PortOwned(k', h', q)
    {
      if q == p {
        assert Owner(k', h', n) && k'.insts[n].port == p;
      } else {
        assert PortOwned(k, h, q);
        var x: nat :| x < |k.insts| && Owner(k, h, x) && k.insts[x].port == q;
        assert Owner(k', h', x) && k'.insts[x].port == q;
      }
    }
  }

  lemma NewCounts(k: Core, inst: Inst)
    requires CountInv(k) && inst.inflight == FRESH
    ensures CountInv(WithInst(k, inst))
  {
    NoOutstanding(k.routes, |k.insts|);
  }

  lemma NewDrains(c: Settings, k: Core, h: Hold, inst: Inst, h': Hold)
    requires InstsInv(c, k) && DrainInv(k, h) && inst.inflight == FRESH && !inst.stopped
    requires (h.Holds? ==> !h.s.Draining?) && (h'.Holds? ==> !h'.s.Draining?)
    ensures DrainInv(WithInst(k, inst), h')
  {
    var k' := WithInst(k, inst);
    NewRegistered(c, k, inst);
    forall x | 0 <= x < |k'.insts|
      ensures DrainOk(k', h', x)
    {
      if x < |k.insts| {
        assert DrainOk(k, h, x);
      }
    }
  }

  lemma TakePortInst(c: Settings, k: Core, m: string, p: int)
    requires ValidSettings(c) && BaseInv(c, k, Holds(m, TakePort)) && Canonical(c, m)
             && !SomeConflict(k, Gpus(c, m)) && p !in k.used
    requires c.config.scheduler.value.portStart <= p <= c.config.scheduler.value.portEnd
    ensures BaseInv(c, WithInst(k, FreshInst(c, m, p)), Holds(m, ApplyPower(|k.insts|)))
  {
    var h, h', inst := Holds(m, TakePort), Holds(m, ApplyPower(|k.insts|)), FreshInst(c, m, p);
    TakePortPorts(c, k, h, m, p, h');
    NewCounts(k, inst);
    NewDrains(c, k, h, inst, h');
    PowerCarry(c, k, h, WithInst(k, inst), h');
  }

  lemma TakePortBase(c: Settings, k: Core, m: string)
    requires ValidSettings(c) && BaseInv(c, k, Holds(m, TakePort)) && Canonical(c, m) && !SomeConflict(k, Gpus(c, m))
    ensures var r := TakePortStep(c, k, m); BaseInv(c, r.0, Holds(m, r.1))
  {
    hide InstsInv, PortInv, CountInv, DrainInv, PowerInv;
    var free := FirstFree(c.config.scheduler.value.portStart, c.config.scheduler.value.portEnd, k.used);
    if free.Some? {
      TakePortInst(c, k, m, free.value);
    } else {
      PlainStep(c, k, Holds(m, TakePort), Holds(m, Leave(Rejected(NoPorts))));
    }
  }

  lemma NewDrainsNone(k: Core, h: Hold, h': Hold)
    requires DrainInv(k, h) && (h.Holds? ==> !h.s.Draining?) && (h'.Holds? ==> !h'.s.Draining?)
    ensures DrainInv(k, h')
  {
    forall x | 0 <= x < |k.insts|
      ensures DrainOk(k, h', x)
    {
      assert DrainOk(k, h, x);
    }
  }

  /** With an empty hand, ports in use and registered instances are equally many. */
  lemma UsedCount(c: Settings, k: Core, h: Hold)
    requires InstsInv(c, k) && PortInv(c, k, h) && HandOf(h).None?
    ensures |k.used| == |k.registry|
  {
    var portOf := map x | x in k.registry :: k.insts[k.registry[x]].port;
    forall x, y | x in portOf && y in portOf && portOf[x] == portOf[y]
      ensures x == y
    {
      assert Owner(k, h, k.registry[x]) && Owner(k, h, k.registry[y]);
      assert x != y ==> Apart(k, k.registry[x], k.registry[y]);
    }
    InjectiveSize(portOf);
    forall p | p in k.used
      ensures p in portOf.Values
    {
      assert PortOwned(k, h, p);
      var i: nat :| i < |k.insts| && Owner(k, h, i) && k.insts[i].port == p;
      assert k.insts[i].model in portOf && portOf[k.insts[i].model] == p;
    }
    forall x | x in portOf
      ensures portOf[x] in k.used
    {
      assert Owner(k, h, k.registry[x]) && HasPort(c, k, k.registry[x]);
    }
    assert k.used == portOf.Values;
    assert portOf.Keys == k.registry.Keys;
  }

  /** With a cap on instances the pool cannot be empty here: every port in use belongs to a registered
      instance, different instances hold different ports, and there are fewer of them than the cap. */
  lemma PortAvailable(c: Settings, k: Core, m: string)
    requires ValidSettings(c) && BaseInv(c, k, Holds(m, TakePort)) && Canonical(c, m)
             && !SomeConflict(k, Gpus(c, m)) && Room(c, k, m)
    requires c.config.scheduler.value.maxInstances.Some?
    ensures FirstFree(c.config.scheduler.value.portStart, c.config.scheduler.value.portEnd, k.used).Some?
  {
    hide InstsInv, PortInv, CountInv, DrainInv, PowerInv, SomeConflict;
    UsedCount(c, k, Holds(m, TakePort));
    OwnNameFree(c, k, m);
    assert k.registry.Keys - {m} == k.registry.Keys;
    FreePortExists(c.config.scheduler.value.portStart, c.config.scheduler.value.portEnd, k.used);
  }

  /** Once nothing conflicts with m's GPUs, m itself is not registered: its own stale entry would conflict. */
  lemma OwnNameFree(c: Settings, k: Core, m: string)
    requires ValidSettings(c) && InstsInv(c, k) && Canonical(c, m) && !SomeConflict(k, Gpus(c, m))
    ensures m !in k.registry
  {
    if m in k.registry {
      var i := k.registry[m];
      assert Schedulable(c.config.models[m]);
      assert k.insts[i].gpus[0] in Gpus(c, m);
      assert Conflict(k, Gpus(c, m), i);
    }
  }

  lemma NewNoConflict(c: Settings, k: Core, inst: Inst, target: seq<int>)
    requires InstsInv(c, k) && !SomeConflict(k, target)
    ensures !SomeConflict(WithInst(k, inst), target)
  {
    NewRegistered(c, k, inst);
    forall x | 0 <= x < |WithInst(k, inst).insts|
      ensures !Conflict(WithInst(k, inst), target, x)
    {
      assert x < |k.insts| ==> !Conflict(k, target, x);
    }
  }

  lemma TakePortInstFacts(c: Settings, k: Core, m: string, p: int)
    requires InstsInv(c, k) && SecInv(c, k, Holds(m, TakePort))
    ensures SecInv(c, WithInst(k, FreshInst(c, m, p)), Holds(m, ApplyPower(|k.insts|)))
  {
    NewNoConflict(c, k, FreshInst(c, m, p), Gpus(c, m));
  }

  lemma NoPortFacts(c: Settings, k: Core, m: string)
    requires ValidSettings(c) && c.config.scheduler.value.maxInstances.None?
    ensures SecInv(c, k, Holds(m, Leave(Rejected(NoPorts))))
  {
  }

  lemma TakePortFacts(c: Settings, k: Core, m: string)
    requires ValidSettings(c) && CoreInv(c, k, Holds(m, TakePort))
    ensures var r := TakePortStep(c, k, m); SecInv(c, r.0, Holds(m, r.1))
  {
    var free := FirstFree(c.config.scheduler.value.portStart, c.config.scheduler.value.portEnd, k.used);
    if c.config.scheduler.value.maxInstances.Some? {
      PortAvailable(c, k, m);
    }
    if free.Some? {
      TakePortInstFacts(c, k, m, free.value);
    } else {
      NoPortFacts(c, k, m);
    }
  }

  // ----- between the port and the registry -----

  /** Starting, verifying, stopping a failed start and stamping touch only the new instance. */
  predicate Prepares(s: Sec)
  {
    s.Start? || s.Verify? || s.StopFailed? || s.Stamp?
  }

  lemma PrepareDrains(c: Settings, m: string, k: Core, s: Sec, a: Answer)
    requires DrainInv(k, Holds(m, s)) && Prepares(s) && m in c.config.models && s.i < |k.insts| && !Registered(k, s.i)
    ensures var r := LaunchStep(c, m, k, s, a); DrainInv(r.0, Holds(m, r.1))
  {
    var r := LaunchStep(c, m, k, s, a);
    SameRegistered(k, r.0);
    forall x | 0 <= x < |k.insts|
      ensures DrainOk(r.0, Holds(m, r.1), x)
    {
      assert DrainOk(k, Holds(m, s), x);
    }
  }

  lemma PrepareShape(c: Settings, m: string, k: Core, s: Sec, a: Answer)
    requires Prepares(s) && m in c.config.models && s.i < |k.insts|
    ensures var r := LaunchStep(c, m, k, s, a);
            var h, h' := Holds(m, s), Holds(m, r.1);
            && SameIds(k, r.0) && r.0.power == k.power && r.0.powerClean == k.powerClean
            && r.0.routes == k.routes && r.0.total == k.total && r.0.nextChan == k.nextChan && r.0.now == k.now
            && (forall x :: 0 <= x < |k.insts| ==> r.0.insts[x].inflight == k.insts[x].inflight)
            && HandOf(h') == HandOf(h) == Some(s.i) && ForcedBy(h') == ForcedBy(h) && !r.1.Draining?
  {
  }

  lemma PrepareBase(c: Settings, m: string, k: Core, s: Sec, a: Answer)
    requires BaseInv(c, k, Holds(m, s)) && Prepares(s) && m in c.config.models && s.i < |k.insts|
    ensures var r := LaunchStep(c, m, k, s, a); BaseInv(c, r.0, Holds(m, r.1))
  {
    var r := LaunchStep(c, m, k, s, a);
    PrepareShape(c, m, k, s, a);
    InstsCarry(c, k, r.0);
    PortsCarry(c, k, Holds(m, s), r.0, Holds(m, r.1));
    PowerCarry(c, k, Holds(m, s), r.0, Holds(m, r.1));
    CountsCarry(k, r.0);
    PrepareDrains(c, m, k, s, a);
  }

  lemma NoConflictCarries(k: Core, k': Core, target: seq<int>)
    requires SameIds(k, k') && !SomeConflict(k, target)
    ensures !SomeConflict(k', target)
  {
    SameRegistered(k, k');
    forall x | 0 <= x < |k'.insts|
      ensures !Conflict(k', target, x)
    {
      assert !Conflict(k, target, x);
    }
  }

  lemma PrepareFacts(c: Settings, m: string, k: Core, s: Sec, a: Answer)
    requires SecInv(c, k, Holds(m, s)) && k.now > 0 && Prepares(s)
    ensures var r := LaunchStep(c, m, k, s, a); SecInv(c, r.0, Holds(m, r.1))
  {
    hide EvictFacts, Standing, Evicted, Remaining, SortFacts, DrainFacts, SomeConflict;
    PrepareShape(c, m, k, s, a);
    NoConflictCarries(k, LaunchStep(c, m, k, s, a).0, Gpus(c, m));
  }

  // ----- power limits and failure exits -----

  lemma ApplyPowerLimits(c: Settings, k: Core, h: Hold, m: string, broken: set<int>, h': Hold)
    requires PowerInv(c, k, h) && m in c.config.models && !InForce(k, h, m)
    requires forall x, g :: InForce(k, h, x) ==> !(g in Gpus(c, x) && g in Gpus(c, m))
    requires broken == {} ==> forall x :: InForce(ApplyLimits(c, k, m, broken), h', x) <==> InForce(k, h, x) || x == m
    ensures PowerInv(c, ApplyLimits(c, k, m, broken), h')
  {
    var k' := ApplyLimits(c, k, m, broken);
    if c.power.Some? && k'.powerClean {
      forall g | g in c.power.value.defaults
        ensures PowerOk(c, k', h', g)
      {
        assert PowerOk(c, k, h, g);
      }
    }
  }

  /** A model whose GPUs nobody registered uses shares no GPU with any model in force. */
  lemma ApartFromForced(c: Settings, k: Core, m: string, x: string, g: int)
    requires InstsInv(c, k) && !SomeConflict(k, Gpus(c, m)) && x in k.registry
    ensures !(g in Gpus(c, x) && g in Gpus(c, m))
  {
    assert !Conflict(k, Gpus(c, m), k.registry[x]);
  }

  lemma ApplyPowerStepPower(c: Settings, m: string, k: Core, i: nat, a: Answer)
    requires ValidSettings(c) && CoreInv(c, k, Holds(m, ApplyPower(i)))
    ensures var r := LaunchStep(c, m, k, ApplyPower(i), a); PowerInv(c, r.0, Holds(m, r.1))
  {
    var r := LaunchStep(c, m, k, ApplyPower(i), a);
    OwnNameFree(c, k, m);
    forall x, g | InForce(k, Holds(m, ApplyPower(i)), x)
      ensures !(g in Gpus(c, x) && g in Gpus(c, m))
    {
      ApartFromForced(c, k, m, x, g);
    }
    ApplyPowerLimits(c, k, Holds(m, ApplyPower(i)), m, BrokenBy(a), Holds(m, r.1));
  }

  lemma ApplyPowerBase(c: Settings, m: string, k: Core, i: nat, a: Answer)
    requires ValidSettings(c) && CoreInv(c, k, Holds(m, ApplyPower(i)))
    ensures var r := LaunchStep(c, m, k, ApplyPower(i), a); BaseInv(c, r.0, Holds(m, r.1))
  {
    var r := LaunchStep(c, m, k, ApplyPower(i), a);
    ApplyPowerStepPower(c, m, k, i, a);
    OnlyPowerBase(c, k, Holds(m, ApplyPower(i)), r.0, Holds(m, r.1));
  }

  lemma OnlyPowerBase(c: Settings, k: Core, h: Hold, k': Core, h': Hold)
    requires BaseInv(c, k, h) && PowerInv(c, k', h') && k' == k.(power := k'.power, powerClean := k'.powerClean)
    requires HandOf(h') == HandOf(h) && (h.Holds? ==> !h.s.Draining?) && (h'.Holds? ==> !h'.s.Draining?)
    ensures BaseInv(c, k', h')
  {
    InstsCarry(c, k, k');
    PortsCarry(c, k, h, k', h');
    CountsCarry(k, k');
    LaunchDrains(k, h, k', h');
  }

  lemma LaunchDrains(k: Core, h: Hold, k': Core, h': Hold)
    requires DrainInv(k, h) && k'.insts == k.insts && k'.registry == k.registry && k'.now == k.now
    requires (h.Holds? ==> !h.s.Draining?) && (h'.Holds? ==> !h'.s.Draining?)
    ensures DrainInv(k', h')
  {
    NewDrainsNone(k, h, h');
    SameDrains(k, k', h');
  }

  lemma SameDrains(k: Core, k': Core, h: Hold)
    requires DrainInv(k, h) && k'.insts == k.insts && k'.registry == k.registry && k'.now == k.now
    ensures DrainInv(k', h)
  {
    forall x | 0 <= x < |k'.insts|
      ensures DrainOk(k', h, x)
    {
      assert DrainOk(k, h, x);
    }
  }

  lemma FreeFailedBase(c: Settings, m: string, k: Core, i: nat, revert: bool, a: Answer)
    requires CoreInv(c, k, Holds(m, FreeFailed(i, revert)))
    ensures var r := LaunchStep(c, m, k, FreeFailed(i, revert), a); BaseInv(c, r.0, Holds(m, r.1))
  {
    var h, r := Holds(m, FreeFailed(i, revert)), LaunchStep(c, m, k, FreeFailed(i, revert), a);
    FreePorts(c, k, h, i, Holds(m, r.1));
    PowerCarry(c, k, h, r.0, Holds(m, r.1));
    CountsCarry(k, r.0);
    LaunchDrains(k, h, r.0, Holds(m, r.1));
  }

  lemma RevertFailedPower(c: Settings, m: string, k: Core, i: nat, a: Answer)
    requires ValidSettings(c) && CoreInv(c, k, Holds(m, RevertFailed(i)))
    ensures PowerInv(c, RevertLimits(c, k, Gpus(c, m), BrokenBy(a)), Holds(m, Leave(Failure)))
  {
    OwnNameFree(c, k, m);
    forall x, g | InForce(k, Holds(m, RevertFailed(i)), x) && x != m
      ensures !(g in Gpus(c, x) && g in Gpus(c, m))
    {
      ApartFromForced(c, k, m, x, g);
    }
    RevertPower(c, k, Holds(m, RevertFailed(i)), m, BrokenBy(a), Holds(m, Leave(Failure)));
  }

  lemma RevertFailedBase(c: Settings, m: string, k: Core, i: nat, a: Answer)
    requires ValidSettings(c) && CoreInv(c, k, Holds(m, RevertFailed(i)))
    ensures var r := LaunchStep(c, m, k, RevertFailed(i), a); BaseInv(c, r.0, Holds(m, r.1))
  {
    var h, r := Holds(m, RevertFailed(i)), LaunchStep(c, m, k, RevertFailed(i), a);
    RevertFailedPower(c, m, k, i, a);
    OnlyPowerBase(c, k, h, r.0, Holds(m, r.1));
  }

  /** Steps that change only ports in use or power limits. */
  ghost predicate SameInsts(k: Core, k': Core)
  {
    k'.insts == k.insts && k'.registry == k.registry && k'.routes == k.routes && k'.now == k.now
  }

  lemma LaunchNoConflict(k: Core, k': Core, target: seq<int>)
    requires SameInsts(k, k') && !SomeConflict(k, target)
    ensures !SomeConflict(k', target)
  {
    forall x | 0 <= x < |k'.insts|
      ensures !Conflict(k', target, x)
    {
      assert !Conflict(k, target, x);
    }
  }

  lemma ApplyPowerFacts(c: Settings, m: string, k: Core, i: nat, a: Answer)
    requires SecInv(c, k, Holds(m, ApplyPower(i)))
    ensures var r := LaunchStep(c, m, k, ApplyPower(i), a); SecInv(c, r.0, Holds(m, r.1))
  {
    LaunchNoConflict(k, LaunchStep(c, m, k, ApplyPower(i), a).0, Gpus(c, m));
  }

  lemma FreeFailedFacts(c: Settings, m: string, k: Core, i: nat, revert: bool, a: Answer)
    requires SecInv(c, k, Holds(m, FreeFailed(i, revert)))
    ensures var r := LaunchStep(c, m, k, FreeFailed(i, revert), a); SecInv(c, r.0, Holds(m, r.1))
  {
    LaunchNoConflict(k, LaunchStep(c, m, k, FreeFailed(i, revert), a).0, Gpus(c, m));
  }

  // ----- registering -----

  function WithEntry(k: Core, m: string, i: nat): Core
  {
    k.(registry := k.registry[m := i])
  }

  lemma EntryRegistered(c: Settings, k: Core, m: string, i: nat)
    requires InstsInv(c, k) && m !in k.registry && i < |k.insts| && k.insts[i].model == m
    ensures InstsInv(c, WithEntry(k, m, i))
    ensures forall x: nat :: Registered(WithEntry(k, m, i), x) <==> Registered(k, x) || x == i
  {
  }

  lemma RegisterPorts(c: Settings, k: Core, m: string, i: nat)
    requires InstsInv(c, k) && PortInv(c, k, Holds(m, Register(i))) && m !in k.registry && i < |k.insts|
             && k.insts[i].model == m
    ensures PortInv(c, WithEntry(k, m, i), Holds(m, TrackNew(i)))
  {
    var k', h, h' := WithEntry(k, m, i), Holds(m, Register(i)), Holds(m, TrackNew(i));
    EntryRegistered(c, k, m, i);
    assert forall x: nat :: Owner(k', h', x) <==> Owner(k, h, x);
    forall x: nat | Owner(k', h', x)
      ensures HasPort(c, k', x)
    {
      assert HasPort(c, k, x);
    }
    forall x: nat, y: nat | Owner(k', h', x) && Owner(k', h', y) && x != y
      ensures Apart(k', x, y)
    {
      assert Apart(k, x, y);
    }
    forall p | p in k'.used
      ensures PortOwned(k', h', p)
    {
      assert PortOwned(k, h, p);
      var x: nat :| x < |k.insts| && Owner(k, h, x) && k.insts[x].port == p;
      assert Owner(k', h', x);
    }
  }

  lemma RegisterDrains(c: Settings, k: Core, m: string, i: nat)
    requires InstsInv(c, k) && DrainInv(k, Holds(m, Register(i))) && m !in k.registry && HandFacts(k, i, m)
             && !k.insts[i].stopped
    requires k.insts[i].state == Ready && 0 < k.insts[i].startedAt <= k.now
    ensures DrainInv(WithEntry(k, m, i), Holds(m, TrackNew(i)))
  {
    var k', h, h' := WithEntry(k, m, i), Holds(m, Register(i)), Holds(m, TrackNew(i));
    EntryRegistered(c, k, m, i);
    forall x | 0 <= x < |k.insts|
      ensures DrainOk(k', h', x)
    {
      assert DrainOk(k, h, x);
    }
  }

  lemma RegisterPower(c: Settings, k: Core, m: string, i: nat)
    requires PowerInv(c, k, Holds(m, Register(i))) && m !in k.registry
    ensures PowerInv(c, WithEntry(k, m, i), Holds(m, TrackNew(i)))
  {
    var k', h, h' := WithEntry(k, m, i), Holds(m, Register(i)), Holds(m, TrackNew(i));
    assert forall x :: InForce(k', h', x) <==> InForce(k, h, x);
    if c.power.Some? && k.powerClean {
      forall g | g in c.power.value.defaults
        ensures PowerOk(c, k', h', g)
      {
        assert PowerOk(c, k, h, g);
      }
    }
  }

  lemma RegisterBase(c: Settings, m: string, k: Core, i: nat)
    requires ValidSettings(c) && CoreInv(c, k, Holds(m, Register(i)))
    ensures m !in k.registry
    ensures var r := RegisterStep(m, k, i); BaseInv(c, r.0, Holds(m, r.1))
  {
    OwnNameFree(c, k, m);
    EntryRegistered(c, k, m, i);
    RegisterPorts(c, k, m, i);
    RegisterDrains(c, k, m, i);
    RegisterPower(c, k, m, i);
    CountsCarry(k, WithEntry(k, m, i));
    assert k.registry.Keys - {m} == k.registry.Keys;
    assert WithEntry(k, m, i).registry.Keys == k.registry.Keys + {m};
  }

  lemma RegisterFacts(c: Settings, m: string, k: Core, i: nat)
    requires SecInv(c, k, Holds(m, Register(i))) && m !in k.registry
    ensures var r := RegisterStep(m, k, i); SecInv(c, r.0, Holds(m, r.1))
  {
  }
}
