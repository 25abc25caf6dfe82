/** The drain of one instance, from the first look at its count to the release of its port. */
module SchedulerDrain {
  import opened Wrappers
  import opened SchedulerCore
  import opened SchedulerInvariant
  import opened SchedulerFrame

  /** The phases up to and including the manager's Stop. */
  predicate Winding(phase: Drain)
  {
    phase.Check? || phase.Enlist? || phase.Wait? || phase.Stop?
  }

  predicate Wakes(k: Core, i: nat, phase: Drain, a: Answer)
    requires i < |k.insts|
  {
    phase.Wait? && a.Yes? ==> phase.ch in k.insts[i].inflight.closed
  }

  lemma WindingCounts(c: Settings, k: Core, i: nat, phase: Drain, ret: Ret, a: Answer)
    requires CountInv(k) && i < |k.insts| && Winding(phase)
    ensures CountInv(DrainStep(c, k, i, phase, ret, a).0)
  {
  }

  lemma EnlistDrains(c: Settings, k: Core, m: string, i: nat, ret: Ret, a: Answer)
    requires CountInv(k) && DrainInv(k, Holds(m, Draining(i, Enlist, ret))) && Registered(k, i)
    ensures var r := DrainStep(c, k, i, Enlist, ret, a); DrainInv(r.0, Holds(m, r.1))
  {
    var r := DrainStep(c, k, i, Enlist, ret, a);
    SameRegistered(k, r.0);
    forall x | 0 <= x < |k.insts|
      ensures DrainOk(r.0, Holds(m, r.1), x)
    {
      assert DrainOk(k, Holds(m, Draining(i, Enlist, ret)), x);
    }
  }

  lemma WindingDrains(c: Settings, k: Core, m: string, i: nat, phase: Drain, ret: Ret, a: Answer)
    requires CountInv(k) && DrainInv(k, Holds(m, Draining(i, phase, ret))) && Registered(k, i)
    requires Winding(phase) && Wakes(k, i, phase, a)
    ensures var r := DrainStep(c, k, i, phase, ret, a); DrainInv(r.0, Holds(m, r.1))
  {
    hide CountInv;
    if phase.Enlist? {
      EnlistDrains(c, k, m, i, ret, a);
      return;
    }
    var r := DrainStep(c, k, i, phase, ret, a);
    SameRegistered(k, r.0);
    forall x | 0 <= x < |k.insts|
      ensures DrainOk(r.0, Holds(m, r.1), x)
    {
      assert DrainOk(k, Holds(m, Draining(i, phase, ret)), x);
    }
  }

  lemma WindingShape(c: Settings, k: Core, m: string, i: nat, phase: Drain, ret: Ret, a: Answer)
    requires i < |k.insts| && Winding(phase)
    ensures var h, r := Holds(m, Draining(i, phase, ret)), DrainStep(c, k, i, phase, ret, a);
            var h' := Holds(m, r.1);
            && SameIds(k, r.0) && r.0.power == k.power && r.0.powerClean == k.powerClean
            && HandOf(h') == HandOf(h) && ForcedBy(h') == ForcedBy(h)
            && forall x: nat :: !Deleting(h, x) && !Deleting(h', x)
  {
  }

  lemma WindingBase(c: Settings, k: Core, m: string, i: nat, phase: Drain, ret: Ret, a: Answer)
    requires BaseInv(c, k, Holds(m, Draining(i, phase, ret))) && Registered(k, i) && Winding(phase)
             && Wakes(k, i, phase, a)
    ensures var r := DrainStep(c, k, i, phase, ret, a); BaseInv(c, r.0, Holds(m, r.1))
  {
    hide InstsInv, PortInv, CountInv, DrainInv, PowerInv;
    var r := DrainStep(c, k, i, phase, ret, a);
    WindingShape(c, k, m, i, phase, ret, a);
    InstsCarry(c, k, r.0);
    PortsCarry(c, k, Holds(m, Draining(i, phase, ret)), r.0, Holds(m, r.1));
    PowerCarry(c, k, Holds(m, Draining(i, phase, ret)), r.0, Holds(m, r.1));
    WindingCounts(c, k, i, phase, ret, a);
    WindingDrains(c, k, m, i, phase, ret, a);
  }

  // ----- reverting limits -----

  /** Registered models have disjoint GPUs. */
  lemma NamesApart(c: Settings, k: Core, h: Hold, m: string, m': string, g: int)
    requires InstsInv(c, k) && PortInv(c, k, h) && m in k.registry && m' in k.registry && m != m'
    ensures !(g in Gpus(c, m) && g in Gpus(c, m'))
  {
    var i, j := k.registry[m], k.registry[m'];
    assert Owner(k, h, i) && Owner(k, h, j) && Apart(k, i, j);
  }

  /** Taking m's limits out of force: its GPUs go back to their defaults and no other model is touched. */
  lemma RevertPower(c: Settings, k: Core, h: Hold, m: string, broken: set<int>, h': Hold)
    requires PowerInv(c, k, h) && m in c.config.models
    requires forall x :: InForce(RevertLimits(c, k, Gpus(c, m), broken), h', x) <==> InForce(k, h, x) && x != m
    requires forall x, g :: InForce(k, h, x) && x != m ==> !(g in Gpus(c, x) && g in Gpus(c, m))
    requires InForce(k, h, m)
    ensures PowerInv(c, RevertLimits(c, k, Gpus(c, m), broken), h')
  {
    var k' := RevertLimits(c, k, Gpus(c, m), broken);
    if c.power.Some? && k'.powerClean {
      forall g | g in c.power.value.defaults
        ensures PowerOk(c, k', h', g)
      {
        assert PowerOk(c, k, h, g);
      }
    }
  }

  lemma RevertStepPower(c: Settings, k: Core, m: string, i: nat, ret: Ret, a: Answer)
    requires BaseInv(c, k, Holds(m, Draining(i, Revert, ret))) && Registered(k, i) && !ret.AfterReplace?
    ensures var r := DrainStep(c, k, i, Revert, ret, a); PowerInv(c, r.0, Holds(m, r.1))
  {
    var h, r := Holds(m, Draining(i, Revert, ret)), DrainStep(c, k, i, Revert, ret, a);
    var m0 := k.insts[i].model;
    forall x, g | InForce(k, h, x) && x != m0
      ensures !(g in Gpus(c, x) && g in Gpus(c, m0))
    {
      NamesApart(c, k, h, x, m0, g);
    }
    RevertPower(c, k, h, m0, BrokenBy(a), Holds(m, r.1));
  }

  lemma RevertDrains(c: Settings, k: Core, m: string, i: nat, ret: Ret, a: Answer)
    requires DrainInv(k, Holds(m, Draining(i, Revert, ret))) && Registered(k, i) && !ret.AfterReplace?
    ensures var r := DrainStep(c, k, i, Revert, ret, a); DrainInv(r.0, Holds(m, r.1))
  {
    var r := DrainStep(c, k, i, Revert, ret, a);
    forall x | 0 <= x < |k.insts|
      ensures DrainOk(r.0, Holds(m, r.1), x)
    {
      assert DrainOk(k, Holds(m, Draining(i, Revert, ret)), x);
    }
  }

  lemma RevertShape(c: Settings, k: Core, i: nat, ret: Ret, a: Answer)
    requires i < |k.insts| && !ret.AfterReplace?
    ensures var k' := RevertLimits(c, k, k.insts[i].gpus, BrokenBy(a));
            && DrainStep(c, k, i, Revert, ret, a) == (k', Draining(i, Delete, ret))
            && k' == k.(power := k'.power, powerClean := k'.powerClean)
  {
  }

  lemma RevertBase(c: Settings, k: Core, m: string, i: nat, ret: Ret, a: Answer)
    requires BaseInv(c, k, Holds(m, Draining(i, Revert, ret))) && Registered(k, i) && !ret.AfterReplace?
    ensures var r := DrainStep(c, k, i, Revert, ret, a); BaseInv(c, r.0, Holds(m, r.1))
  {
    hide InstsInv, PortInv, CountInv, DrainInv, PowerInv, RevertLimits, DrainStep;
    var h, r := Holds(m, Draining(i, Revert, ret)), DrainStep(c, k, i, Revert, ret, a);
    RevertShape(c, k, i, ret, a);
    RevertStepPower(c, k, m, i, ret, a);
    InstsCarry(c, k, r.0);
    PortsCarry(c, k, h, r.0, Holds(m, r.1));
    CountsCarry(k, r.0);
    RevertDrains(c, k, m, i, ret, a);
  }

  // ----- leaving the registry -----

  lemma DeletePorts(c: Settings, k: Core, m: string, i: nat, ret: Ret)
    requires InstsInv(c, k) && PortInv(c, k, Holds(m, Draining(i, Delete, ret))) && Registered(k, i)
    ensures PortInv(c, k.(registry := k.registry - {k.insts[i].model}), Holds(m, Draining(i, Free, ret)))
  {
    var k', h, h' := k.(registry := k.registry - {k.insts[i].model}), Holds(m, Draining(i, Delete, ret)),
      Holds(m, Draining(i, Free, ret));
    assert forall x: nat :: Owner(k', h', x) <==> Owner(k, h, x);
    forall x: nat | Owner(k', h', x)
      ensures HasPort(c, k', x)
    {
      assert HasPort(c, k, x);
    }
    forall x: nat, y: nat | Owner(k', h', x) && Owner(k', h', y) && x != y
      ensures Apart(k', x, y)
    {
      assert Apart(k, x, y);
    }
    forall p | p in k'.used
      ensures PortOwned(k', h', p)
    {
      assert PortOwned(k, h, p);
      var x: nat :| x < |k.insts| && Owner(k, h, x) && k.insts[x].port == p;
      assert Owner(k', h', x);
    }
  }

  lemma DeletePower(c: Settings, k: Core, m: string, i: nat, ret: Ret)
    requires InstsInv(c, k) && PowerInv(c, k, Holds(m, Draining(i, Delete, ret))) && Registered(k, i)
    ensures PowerInv(c, k.(registry := k.registry - {k.insts[i].model}), Holds(m, Draining(i, Free, ret)))
  {
    var k', h, h' := k.(registry := k.registry - {k.insts[i].model}), Holds(m, Draining(i, Delete, ret)),
      Holds(m, Draining(i, Free, ret));
    assert forall x :: InForce(k', h', x) <==> InForce(k, h, x);
    if c.power.Some? && k.powerClean {
      forall g | g in c.power.value.defaults
        ensures PowerOk(c, k', h', g)
      {
        assert PowerOk(c, k, h, g);
      }
    }
  }

  lemma DeleteDrains(c: Settings, k: Core, m: string, i: nat, ret: Ret)
    requires InstsInv(c, k) && DrainInv(k, Holds(m, Draining(i, Delete, ret))) && Registered(k, i)
    ensures DrainInv(k.(registry := k.registry - {k.insts[i].model}), Holds(m, Draining(i, Free, ret)))
  {
    var k', h, h' := k.(registry := k.registry - {k.insts[i].model}), Holds(m, Draining(i, Delete, ret)),
      Holds(m, Draining(i, Free, ret));
    forall x | 0 <= x < |k.insts|
      ensures DrainOk(k', h', x)
    {
      assert DrainOk(k, h, x);
      assert Registered(k', x) <==> Registered(k, x) && x != i;
    }
  }

  lemma DeleteBase(c: Settings, k: Core, m: string, i: nat, ret: Ret, a: Answer)
    requires BaseInv(c, k, Holds(m, Draining(i, Delete, ret))) && Registered(k, i)
    ensures var r := DrainStep(c, k, i, Delete, ret, a); BaseInv(c, r.0, Holds(m, r.1))
  {
    hide PortInv, CountInv, DrainInv, PowerInv;
    var k' := DrainStep(c, k, i, Delete, ret, a).0;
    DeletePorts(c, k, m, i, ret);
    DeletePower(c, k, m, i, ret);
    DeleteDrains(c, k, m, i, ret);
    CountsCarry(k, k');
    assert k.registry.Keys == k'.registry.Keys + {k.insts[i].model};
  }

  /** Giving a port back: its owner is in nobody's hand any more. */
  lemma FreePorts(c: Settings, k: Core, h: Hold, i: nat, h': Hold)
    requires i < |k.insts| && PortInv(c, k, h) && HandOf(h) == Some(i) && HandOf(h').None?
    ensures PortInv(c, k.(used := k.used - {k.insts[i].port}), h')
  {
    var k' := k.(used := k.used - {k.insts[i].port});
    assert Owner(k, h, i);
    forall x: nat | Owner(k', h', x)
      ensures HasPort(c, k', x)
    {
      assert Owner(k, h, x) && HasPort(c, k, x) && Apart(k, x, i);
    }
    forall x: nat, y: nat | Owner(k', h', x) && Owner(k', h', y) && x != y
      ensures Apart(k', x, y)
    {
      assert Owner(k, h, x) && Owner(k, h, y) && Apart(k, x, y);
    }
    forall p | p in k'.used
      ensures PortOwned(k', h', p)
    {
      assert PortOwned(k, h, p);
      var x: nat :| x < |k.insts| && Owner(k, h, x) && k.insts[x].port == p;
      assert Owner(k', h', x);
    }
  }

  lemma FreeDrains(k: Core, h: Hold, i: nat, h': Hold)
    requires DrainInv(k, h) && i < |k.insts| && Drains(h, i) && h.s.phase.Free? && !Registered(k, i)
             && (h'.Holds? ==> !h'.s.Draining?)
    ensures DrainInv(k.(used := k.used - {k.insts[i].port}), h')
  {
    var k' := k.(used := k.used - {k.insts[i].port});
    forall x | 0 <= x < |k.insts|
      ensures DrainOk(k', h', x)
    {
      assert DrainOk(k, h, x);
      assert Registered(k', x) <==> Registered(k, x);
    }
  }

  lemma HandHasPort(c: Settings, k: Core, h: Hold, i: nat)
    requires ValidSettings(c) && PortInv(c, k, h) && HandOf(h) == Some(i)
    ensures i < |k.insts| && k.insts[i].port > 0 && !Registered(k, i)
  {
    assert Owner(k, h, i) && HasPort(c, k, i);
  }

  lemma FreeBase(c: Settings, k: Core, m: string, i: nat, ret: Ret, a: Answer)
    requires ValidSettings(c) && BaseInv(c, k, Holds(m, Draining(i, Free, ret))) && i < |k.insts|
    ensures var r := DrainStep(c, k, i, Free, ret, a); BaseInv(c, r.0, Holds(m, r.1))
  {
    hide PortInv, CountInv, DrainInv, PowerInv;
    var h, r := Holds(m, Draining(i, Free, ret)), DrainStep(c, k, i, Free, ret, a);
    HandHasPort(c, k, h, i);
    FreePorts(c, k, h, i, Holds(m, r.1));
    PowerCarry(c, k, h, r.0, Holds(m, r.1));
    CountsCarry(k, r.0);
    FreeDrains(k, h, i, Holds(m, r.1));
  }

  // ----- what the permit holder knows while draining -----

  /** Nothing an eviction relies on changes, except that more instances may have been stopped. */
  ghost predicate SameHistory(k: Core, k': Core)
  {
    && SameIds(k, k')
    && (forall x :: 0 <= x < |k.insts| ==>
       k'.insts[x].startedAt == k.insts[x].startedAt && (k.insts[x].stopped ==> k'.insts[x].stopped))
  }

  lemma EvictionCarries(c: Settings, k: Core, k': Core, target: seq<int>, ev: Eviction, i: nat)
    requires SameHistory(k, k') && EvictFacts(c, k, target, ev, ev.k + 1) && Evicted(k, ev.order, ev.k)
             && Standing(k, target, ev.order, ev.k + 1, Some(i))
    ensures EvictFacts(c, k', target, ev, ev.k + 1) && Evicted(k', ev.order, ev.k)
            && Standing(k', target, ev.order, ev.k + 1, Some(i))
  {
    SameRegistered(k, k');
    forall x: nat | Conflict(k', target, x)
      ensures Some(i) == Some(x) || exists j :: ev.k + 1 <= j < |ev.order| && ev.order[j] == x
    {
      assert Conflict(k, target, x);
    }
  }

  lemma RemainingCarries(k: Core, k': Core, all: seq<nat>, from: nat, current: Option<nat>)
    requires SameIds(k, k') && Remaining(k, all, from, current)
    ensures Remaining(k', all, from, current)
  {
    SameRegistered(k, k');
  }

  predicate BeforeDelete(phase: Drain)
  {
    Winding(phase) || phase.Revert?
  }

  lemma StepHistory(c: Settings, k: Core, i: nat, phase: Drain, ret: Ret, a: Answer)
    requires i < |k.insts| && BeforeDelete(phase)
    ensures SameHistory(k, DrainStep(c, k, i, phase, ret, a).0)
  {
  }

  lemma StepDrainFacts(c: Settings, k: Core, i: nat, phase: Drain, ret: Ret, a: Answer)
    requires i < |k.insts| && BeforeDelete(phase) && DrainFacts(k, i, phase) && !ret.AfterReplace?
    ensures var r := DrainStep(c, k, i, phase, ret, a);
            r.1.Draining? && r.1.i == i && r.1.ret == ret && DrainFacts(r.0, i, r.1.phase)
  {
  }

  lemma BeforeDeleteFactsEvict(c: Settings, k: Core, m: string, i: nat, phase: Drain, ret: Ret, a: Answer)
    requires SecInv(c, k, Holds(m, Draining(i, phase, ret))) && BeforeDelete(phase) && ret.AfterEvict?
    ensures var r := DrainStep(c, k, i, phase, ret, a); SecInv(c, r.0, Holds(m, r.1))
  {
    hide EvictFacts, Standing, Evicted, Remaining, DrainFacts, HandFacts, LeaveFacts, DrainStep;
    var k' := DrainStep(c, k, i, phase, ret, a).0;
    StepHistory(c, k, i, phase, ret, a);
    StepDrainFacts(c, k, i, phase, ret, a);
    EvictionCarries(c, k, k', Gpus(c, m), ret.ev, i);
  }

  /** What SecInv comes to while StopAll drains i. */
  ghost predicate StopDrainFacts(k: Core, i: nat, phase: Drain, ret: Ret)
    requires ret.AfterStop?
  {
    && i < |k.insts| && InBounds(k, ret.all) && DrainFacts(k, i, phase)
    && ret.k < |ret.all| && ret.all[ret.k] == i && Remaining(k, ret.all, ret.k + 1, Some(i))
  }

  lemma StopDrainIs(c: Settings, k: Core, m: string, i: nat, phase: Drain, ret: Ret)
    requires ret.AfterStop?
    ensures SecInv(c, k, Holds(m, Draining(i, phase, ret))) <==> StopDrainFacts(k, i, phase, ret)
  {
  }

  lemma BeforeDeleteFactsStop(c: Settings, k: Core, m: string, i: nat, phase: Drain, ret: Ret, a: Answer)
    requires SecInv(c, k, Holds(m, Draining(i, phase, ret))) && BeforeDelete(phase) && ret.AfterStop?
    ensures var r := DrainStep(c, k, i, phase, ret, a); SecInv(c, r.0, Holds(m, r.1))
  {
    hide SecInv, DrainStep, DrainFacts, Remaining;
    StopDrainIs(c, k, m, i, phase, ret);
    var r := DrainStep(c, k, i, phase, ret, a);
    StepHistory(c, k, i, phase, ret, a);
    StepDrainFacts(c, k, i, phase, ret, a);
    RemainingCarries(k, r.0, ret.all, ret.k + 1, Some(i));
    StopDrainIs(c, r.0, m, i, r.1.phase, ret);
  }

  function Deleted(k: Core, i: nat): Core
    requires i < |k.insts|
  {
    k.(registry := k.registry - {k.insts[i].model})
  }

  lemma DeleteUnregisters(c: Settings, k: Core, i: nat)
    requires InstsInv(c, k) && Registered(k, i)
    ensures forall x: nat :: Registered(Deleted(k, i), x) <==> Registered(k, x) && x != i
  {
  }

  lemma DeleteEviction(c: Settings, k: Core, target: seq<int>, ev: Eviction, i: nat)
    requires InstsInv(c, k) && Registered(k, i) && ev.k < |ev.order| && ev.order[ev.k] == i
    requires EvictFacts(c, k, target, ev, ev.k + 1) && Evicted(k, ev.order, ev.k)
             && Standing(k, target, ev.order, ev.k + 1, Some(i))
    ensures EvictFacts(c, Deleted(k, i), target, ev, ev.k + 1) && Evicted(Deleted(k, i), ev.order, ev.k)
    ensures Standing(Deleted(k, i), target, ev.order, ev.k + 1, Some(i))
  {
    DeleteUnregisters(c, k, i);
    forall x: nat | Conflict(Deleted(k, i), target, x)
      ensures Some(i) == Some(x) || exists j :: ev.k + 1 <= j < |ev.order| && ev.order[j] == x
    {
      assert Conflict(k, target, x);
    }
  }

  lemma DeleteRemaining(c: Settings, k: Core, all: seq<nat>, j: nat, i: nat)
    requires InstsInv(c, k) && Registered(k, i) && j < |all| && all[j] == i && Remaining(k, all, j + 1, Some(i))
    ensures Remaining(Deleted(k, i), all, j + 1, Some(i))
  {
    DeleteUnregisters(c, k, i);
  }

  lemma FreeRemaining(k: Core, k': Core, all: seq<nat>, from: nat, i: nat)
    requires k' == k.(used := k'.used) && !Registered(k, i) && Remaining(k, all, from, Some(i))
    ensures Remaining(k', all, from, None)
  {
    assert forall x: nat :: Registered(k', x) <==> Registered(k, x);
  }

  lemma DeleteRoom(c: Settings, k: Core, m: string, i: nat)
    requires i < |k.insts| && Room(c, k, m)
    ensures Room(c, Deleted(k, i), m)
  {
    var gone := k.registry.Keys - {m} - (Deleted(k, i).registry.Keys - {m});
    assert k.registry.Keys - {m} == (Deleted(k, i).registry.Keys - {m}) + gone;
  }

  lemma DeleteDrainFacts(k: Core, i: nat)
    requires i < |k.insts| && DrainFacts(k, i, Delete)
    ensures DrainFacts(Deleted(k, i), i, Free)
  {
  }

  lemma DeletePlace(c: Settings, k: Core, m: string, i: nat, ret: Ret)
    requires SecInBounds(k, Draining(i, Delete, ret)) && PlaceFacts(c, k, m, Draining(i, Delete, ret))
    ensures PlaceFacts(c, Deleted(k, i), m, Draining(i, Free, ret))
  {
    DeleteDrainFacts(k, i);
    if ret.AfterEvict? {
      DeleteRoom(c, k, m, i);
    }
  }

  lemma DeleteFactsEvict(c: Settings, k: Core, m: string, i: nat, ret: Ret)
    requires InstsInv(c, k) && SecInv(c, k, Holds(m, Draining(i, Delete, ret))) && ret.AfterEvict?
    ensures SecInv(c, Deleted(k, i), Holds(m, Draining(i, Free, ret)))
  {
    DeletePlace(c, k, m, i, ret);
    DeleteEviction(c, k, Gpus(c, m), ret.ev, i);
  }

  lemma DeleteFactsStop(c: Settings, k: Core, m: string, i: nat, ret: Ret)
    requires InstsInv(c, k) && SecInv(c, k, Holds(m, Draining(i, Delete, ret))) && ret.AfterStop?
    ensures SecInv(c, Deleted(k, i), Holds(m, Draining(i, Free, ret)))
  {
    DeletePlace(c, k, m, i, ret);
    DeleteRemaining(c, k, ret.all, ret.k, i);
  }

  lemma FreeEviction(c: Settings, k: Core, k': Core, target: seq<int>, ev: Eviction, i: nat)
    requires k' == k.(used := k'.used) && ev.k < |ev.order| && ev.order[ev.k] == i && InBounds(k, ev.order)
    requires k.insts[i].stopped && !Registered(k, i)
    requires EvictFacts(c, k, target, ev, ev.k + 1) && Evicted(k, ev.order, ev.k)
             && Standing(k, target, ev.order, ev.k + 1, Some(i))
    ensures EvictFacts(c, k', target, ev, ev.k + 1) && Evicted(k', ev.order, ev.k + 1)
            && Standing(k', target, ev.order, ev.k + 1, None)
  {
    forall x: nat | Conflict(k', target, x)
      ensures exists j :: ev.k + 1 <= j < |ev.order| && ev.order[j] == x
    {
      assert Conflict(k, target, x);
    }
  }

  lemma FreeFactsEvict(c: Settings, k: Core, m: string, i: nat, ret: Ret, a: Answer)
    requires SecInv(c, k, Holds(m, Draining(i, Free, ret))) && ret.AfterEvict?
    ensures var r := DrainStep(c, k, i, Free, ret, a); SecInv(c, r.0, Holds(m, r.1))
  {
    hide Standing, Evicted, Remaining, HandFacts, LeaveFacts;
    FreeEviction(c, k, DrainStep(c, k, i, Free, ret, a).0, Gpus(c, m), ret.ev, i);
  }

  lemma FreeFactsStop(c: Settings, k: Core, m: string, i: nat, ret: Ret, a: Answer)
    requires SecInv(c, k, Holds(m, Draining(i, Free, ret))) && ret.AfterStop?
    ensures var r := DrainStep(c, k, i, Free, ret, a); SecInv(c, r.0, Holds(m, r.1))
  {
    hide EvictFacts, Standing, Evicted, Remaining, HandFacts, LeaveFacts;
    FreeRemaining(k, DrainStep(c, k, i, Free, ret, a).0, ret.all, ret.k + 1, i);
  }

  // ----- together -----

  lemma DrainBase(c: Settings, k: Core, m: string, s: Sec, a: Answer)
    requires ValidSettings(c) && CoreInv(c, k, Holds(m, s)) && s.Draining? && Wakes(k, s.i, s.phase, a)
    ensures var r := DrainStep(c, k, s.i, s.phase, s.ret, a); BaseInv(c, r.0, Holds(m, r.1))
  {
    if s.phase.Revert? {
      RevertBase(c, k, m, s.i, s.ret, a);
    } else if s.phase.Delete? {
      DeleteBase(c, k, m, s.i, s.ret, a);
    } else if s.phase.Free? {
      FreeBase(c, k, m, s.i, s.ret, a);
    } else {
      WindingBase(c, k, m, s.i, s.phase, s.ret, a);
    }
  }

  lemma DrainFactsStep(c: Settings, k: Core, m: string, s: Sec, a: Answer)
    requires InstsInv(c, k) && SecInv(c, k, Holds(m, s)) && s.Draining?
    ensures var r := DrainStep(c, k, s.i, s.phase, s.ret, a); SecInv(c, r.0, Holds(m, r.1))
  {
    if s.phase.Delete? && s.ret.AfterEvict? {
      DeleteFactsEvict(c, k, m, s.i, s.ret);
    } else if s.phase.Delete? {
      DeleteFactsStop(c, k, m, s.i, s.ret);
    } else if s.phase.Free? && s.ret.AfterEvict? {
      FreeFactsEvict(c, k, m, s.i, s.ret, a);
    } else if s.phase.Free? {
      FreeFactsStop(c, k, m, s.i, s.ret, a);
    } else if s.ret.AfterEvict? {
      BeforeDeleteFactsEvict(c, k, m, s.i, s.phase, s.ret, a);
    } else {
      BeforeDeleteFactsStop(c, k, m, s.i, s.phase, s.ret, a);
    }
  }
}
