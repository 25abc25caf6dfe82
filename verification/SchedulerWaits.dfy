/** The wait of a drain: it is entered exactly if something is in flight, and never misses the last request. */
module SchedulerWaits {
  import opened Wrappers
  import opened Inflight
  import opened SchedulerCore
  import opened SchedulerInvariant
  import opened SchedulerRuns
  import opened SchedulerRunsInvariant
  import opened SchedulerTheorems
  import opened SchedulerFates
  import opened SchedulerAnswers

  predicate Known(t: TrackerState, ch: nat)
  {
    ch in t.waiters || ch in t.closed
  }

  /** No drain channel of instance i is forgotten. */
  ghost predicate Remembers(k: Core, k': Core, i: nat)
  {
    && i < |k.insts| && i < |k'.insts|
    && forall ch :: Known(k.insts[i].inflight, ch) ==> Known(k'.insts[i].inflight, ch)
  }

  lemma BesideRemembers(k: Core, e: Env, i: nat)
    requires EnvEnabled(k, e) && i < |k.insts|
    ensures Remembers(k, EnvStep(k, e), i)
  {
  }

  lemma OuterRemembers(c: Settings, w: World, g: nat, a: Answer, i: nat)
    requires CanGo(c, w, g, a) && !w.threads[g].pc.In? && i < |w.core.insts|
    ensures Remembers(w.core, OuterStep(c, w, g, a).core, i)
  {
  }

  lemma DrainRemembers(c: Settings, k: Core, j: nat, phase: Drain, ret: Ret, a: Answer, i: nat)
    requires j < |k.insts| && i < |k.insts|
    ensures Remembers(k, DrainStep(c, k, j, phase, ret, a).0, i)
  {
  }

  lemma LaunchRemembers(c: Settings, m: string, k: Core, s: Sec, a: Answer, i: nat)
    requires Launches(s) && SecInBounds(k, s) && m in c.config.models && i < |k.insts|
    ensures Remembers(k, LaunchStep(c, m, k, s, a).0, i)
  {
  }

  lemma SectionRemembers(c: Settings, g: nat, m: string, k: Core, s: Sec, a: Answer, i: nat)
    requires Enabled(c, m, k, s, a) && !s.Leave? && i < |k.insts|
    ensures Remembers(k, SecStep(c, g, m, k, s, a).0, i)
  {
    hide DrainStep, LaunchStep, LookStep;
    if s.Draining? {
      DrainRemembers(c, k, s.i, s.phase, s.ret, a, i);
    } else if Launches(s) {
      LaunchRemembers(c, m, k, s, a, i);
    }
  }

  lemma EventRemembers(c: Settings, w: World, e: Event, i: nat)
    requires CanHappen(c, w, e) && i < |w.core.insts|
    ensures Remembers(w.core, Apply(c, w, e).core, i)
  {
    hide Remembers, SecStep, OuterStep, EnvStep;
    if e.Beside? {
      BesideRemembers(w.core, e.e, i);
    } else if e.Go? && !w.threads[e.g].pc.In? {
      OuterRemembers(c, w, e.g, e.a, i);
    } else if e.Go? && !w.threads[e.g].pc.s.Leave? {
      SectionRemembers(c, e.g, w.threads[e.g].m, w.core, w.threads[e.g].pc.s, e.a, i);
    } else {
      SameRemembers(w.core, i);
    }
  }

  lemma SameRemembers(k: Core, i: nat)
    requires i < |k.insts|
    ensures Remembers(k, k, i)
  {
  }

  lemma LooksNeverDrain(c: Settings, m: string, k: Core, s: Sec, a: Answer)
    requires Enabled(c, m, k, s, a) && Looks(s)
    ensures !LookStep(c, m, k, s, a).Draining?
  {
  }

  lemma DrainIntoWait(c: Settings, k: Core, j: nat, phase: Drain, ret: Ret, a: Answer)
    requires j < |k.insts|
    ensures var r := DrainStep(c, k, j, phase, ret, a);
            r.1.Draining? && r.1.phase.Wait? ==>
              r.1.i == j < |r.0.insts| && Known(r.0.insts[j].inflight, r.1.phase.ch)
  {
  }

  lemma SectionIntoWait(c: Settings, g: nat, m: string, k: Core, s: Sec, a: Answer)
    requires Enabled(c, m, k, s, a) && !s.Leave?
    ensures var r := SecStep(c, g, m, k, s, a);
            r.1.Draining? && r.1.phase.Wait? ==>
              r.1.i < |r.0.insts| && Known(r.0.insts[r.1.i].inflight, r.1.phase.ch)
  {
    hide LookStep, DrainStep, Known;
    if Looks(s) {
      LooksNeverDrain(c, m, k, s, a);
    } else if s.Draining? {
      DrainIntoWait(c, k, s.i, s.phase, s.ret, a);
    }
  }

  lemma IntoWait(c: Settings, w: World, g: nat, a: Answer, m: string, i: nat, ch: nat, ret: Ret)
    requires CanGo(c, w, g, a) && Stands(Apply(c, w, Go(g, a)), g, m, Draining(i, Wait(ch), ret))
    ensures i < |Apply(c, w, Go(g, a)).core.insts| && Known(Apply(c, w, Go(g, a)).core.insts[i].inflight, ch)
  {
    hide SecStep, Enabled, Known;
    assert w.threads[g].pc.In?;
    var s := w.threads[g].pc.s;
    assert Enabled(c, w.threads[g].m, w.core, s, a);
    SectionIntoWait(c, g, w.threads[g].m, w.core, s, a);
  }

  /** The channel a drain waits on is with the instance's tracker, waiting or closed. */
  lemma {:induction false} WaitKnown(c: Settings, now: int, es: seq<Event>, g: nat, m: string, i: nat, ch: nat,
      ret: Ret)
    requires Stands(Run(c, now, es), g, m, Draining(i, Wait(ch), ret))
    ensures i < |Run(c, now, es).core.insts| && Known(Run(c, now, es).core.insts[i].inflight, ch)
  {
    hide Apply, CanHappen, Known;
    var n := |es| - 1;
    var w := Run(c, now, es[..n]);
    if !CanHappen(c, w, es[n]) {
      WaitKnown(c, now, es[..n], g, m, i, ch, ret);
    } else if es[n].Go? && es[n].g == g {
      MayGo(c, w, es[n]);
      IntoWait(c, w, g, es[n].a, m, i, ch, ret);
    } else {
      NotMine(c, w, es[n], g, m, Draining(i, Wait(ch), ret));
      WaitKnown(c, now, es[..n], g, m, i, ch, ret);
      EventRemembers(c, w, es[n], i);
    }
  }

  lemma MayGo(c: Settings, w: World, e: Event)
    requires CanHappen(c, w, e) && e.Go?
    ensures CanGo(c, w, e.g, e.a)
  {
  }

  lemma NotMine(c: Settings, w: World, e: Event, g: nat, m: string, s: Sec)
    requires CanHappen(c, w, e) && !(e.Go? && e.g == g) && Stands(Apply(c, w, e), g, m, s)
    ensures Stands(w, g, m, s)
  {
  }

  /** No lost wake-up: while a drain waits, its channel has been closed exactly if nothing is in flight at the
      instance any more. */
  lemma NoLostWakeup(c: Settings, w: World, g: nat, i: nat, ch: nat, ret: Ret)
    requires Reachable(c, w) && g < |w.threads| && w.threads[g].pc == In(Draining(i, Wait(ch), ret))
    ensures i < |w.core.insts|
    ensures ch in w.core.insts[i].inflight.closed <==> w.core.insts[i].inflight.count == 0
  {
    var now, es :| Sound(c, now) && w == Run(c, now, es);
    WaitKnown(c, now, es, g, w.threads[g].m, i, ch, ret);
    ReachableInv(c, w);
    assert HoldOf(w) == Holds(w.threads[g].m, Draining(i, Wait(ch), ret));
    assert DrainOk(w.core, HoldOf(w), i);
  }

  lemma DrainMoves(c: Settings, w: World, g: nat, a: Answer, i: nat, phase: Drain, ret: Ret)
    requires CanGo(c, w, g, a) && w.threads[g].pc == In(Draining(i, phase, ret))
    ensures i < |w.core.insts|
    ensures Apply(c, w, Go(g, a)).threads[g].pc == In(DrainStep(c, w.core, i, phase, ret, a).1)
  {
  }

  /** A drain goes on to stop the instance without waiting exactly if nothing is in flight at its first or its
      second look; it waits only on a channel of its own. */
  lemma DrainAnswers(c: Settings, w: World, g: nat, a: Answer, i: nat, ret: Ret)
    requires Reachable(c, w) && CanGo(c, w, g, a)
    ensures w.threads[g].pc == In(Draining(i, Check, ret)) ==>
              && i < |w.core.insts|
              && Apply(c, w, Go(g, a)).threads[g].pc ==
                 In(Draining(i, if w.core.insts[i].inflight.count > 0 then Enlist else Stop, ret))
    ensures w.threads[g].pc == In(Draining(i, Enlist, ret)) ==>
              && i < |w.core.insts|
              && Apply(c, w, Go(g, a)).threads[g].pc ==
                 In(Draining(i, if w.core.insts[i].inflight.count > 0 then Wait(w.core.nextChan) else Stop, ret))
  {
    hide Apply;
    if w.threads[g].pc.In? && w.threads[g].pc.s.Draining? {
      DrainMoves(c, w, g, a, w.threads[g].pc.s.i, w.threads[g].pc.s.phase, w.threads[g].pc.s.ret);
      CountsFit(c, w, w.threads[g].pc.s.i);
    }
  }

  lemma CountsFit(c: Settings, w: World, i: nat)
    requires Reachable(c, w) && i < |w.core.insts|
    ensures w.core.insts[i].inflight.count >= 0
  {
    ReachableInv(c, w);
  }
}
