/** A start whose power limits are refused: what the code leaves behind, and when that is nothing. */
module SchedulerRefusal {
  import opened SchedulerCore
  import opened SchedulerInvariant
  import opened SchedulerRuns
  import opened SchedulerRunsInvariant
  import opened SchedulerTheorems
  import opened SchedulerFates
  import Power

  /** Each limit of m that the call does set is the GPU's default anyway. */
  ghost predicate AsksForDefaults(c: Settings, m: string, broken: set<int>)
    requires c.power.Some? && m in c.config.models
  {
    var mc := c.config.models[m];
    Power.SetsOnlyDefaults(c.power.value.defaults, mc.gpus, mc.powerLimit, mc.powerLimits, broken)
  }

  /** With m's GPUs free, a partly refused apply keeps the limits a function of the registry exactly if it
      sets defaults only. */
  lemma RefusedLimits(c: Settings, k: Core, m: string, broken: set<int>)
    requires c.power.Some? && m in c.config.models && FollowsRegistry(c, k)
    requires InstsInv(c, k) && !SomeConflict(k, Gpus(c, m))
    ensures FollowsRegistry(c, ApplyLimits(c, k, m, broken)) <==> AsksForDefaults(c, m, broken)
  {
    var mc, k' := c.config.models[m], ApplyLimits(c, k, m, broken);
    forall x, g | x in k.registry && g in Gpus(c, m)
      ensures g !in Gpus(c, x)
    {
      assert !Conflict(k, Gpus(c, m), k.registry[x]);
    }
    forall g | g in c.power.value.defaults
      ensures g in k.power && g in k'.power
      ensures k'.power[g] == if g in Power.Attempted(mc.gpus, mc.powerLimit, mc.powerLimits) - broken
                             then Power.Override(mc.powerLimit, mc.powerLimits, g).value else k.power[g]
    {
    }
  }

  /** The refused start, step by step: the port is given back and the call fails; whatever others do in
      between, the limits are the registry's again when it leaves exactly if it had asked for defaults. */
  lemma RefusedStart(c: Settings, w: World, g: nat, a: Answer, between: Core, a': Answer)
    requires Reachable(c, w) && w.core.powerClean && c.power.Some?
    requires CanGo(c, w, g, a) && w.threads[g].pc.In? && w.threads[g].pc.s.ApplyPower?
    requires ApplyFails(c, w.threads[g].m, BrokenBy(a))
    requires Untouched(LaunchStep(c, w.threads[g].m, w.core, w.threads[g].pc.s, a).0, between)
    ensures var m, i := w.threads[g].m, w.threads[g].pc.s.i;
            var r := LaunchStep(c, m, between, FreeFailed(i, false), a');
            && LaunchStep(c, m, w.core, ApplyPower(i), a).1 == FreeFailed(i, false)
            && r.1 == Leave(Failure) && r.0.registry == w.core.registry
               && r.0.used == w.core.used - {between.insts[i].port}
            && (FollowsRegistry(c, r.0) <==> AsksForDefaults(c, m, BrokenBy(a)))
  {
    var m, s := w.threads[g].m, w.threads[g].pc.s;
    LimitsBefore(c, w, g);
    RefusedLimits(c, w.core, m, BrokenBy(a));
    var k, k' := ApplyLimits(c, w.core, m, BrokenBy(a)), LaunchStep(c, m, between, FreeFailed(s.i, false), a').0;
    assert k'.registry == k.registry && k'.power == k.power;
    SameLimits(c, k, k');
  }

  lemma SameLimits(c: Settings, k: Core, k': Core)
    requires k'.registry == k.registry && k'.power == k.power
    ensures FollowsRegistry(c, k') <==> FollowsRegistry(c, k)
  {
  }

  lemma LimitsBefore(c: Settings, w: World, g: nat)
    requires Reachable(c, w) && w.core.powerClean && g < |w.threads| && w.threads[g].pc.In?
             && w.threads[g].pc.s.ApplyPower?
    ensures FollowsRegistry(c, w.core) && InstsInv(c, w.core) && !SomeConflict(w.core, Gpus(c, w.threads[g].m))
    ensures w.threads[g].m in c.config.models
  {
    ReachableInv(c, w);
    SectionFactsHold(c, w, g);
    OkFollows(c, w.core, HoldOf(w));
  }
}
