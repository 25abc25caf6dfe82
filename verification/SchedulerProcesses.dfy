/** Instances and their processes: where each fact about an instance can change, and that no process is left
    running without an owner unless it has been told to stop. */
module SchedulerProcesses {
  import opened Wrappers
  import opened SchedulerCore
  import opened SchedulerInvariant
  import opened SchedulerLaunch
  import opened SchedulerRuns
  import opened SchedulerRunsInvariant
  import opened SchedulerTheorems
  import opened SchedulerFates
  import opened SchedulerAnswers

  // ----- one place for each change -----

  /** What one event does to an instance: its drain begins, the drain's timer fires, Stop is called, its process
      starts or dies, its start is recorded. */
  datatype Effect = Effect(marks: bool, timesOut: bool, stops: bool, starts: bool, dies: bool, stamps: bool)

  const NOTHING := Effect(false, false, false, false, false, false)

  /** From p to q exactly this has happened, at most to the in-flight count and the last use besides. */
  predicate Did(p: Inst, q: Inst, now: int, f: Effect)
  {
    && q.model == p.model && q.port == p.port && q.gpus == p.gpus && q.pinned == p.pinned
    && (q.draining <==> p.draining || f.marks)
    && (q.timedOut <==> p.timedOut || f.timesOut)
    && (q.stopped <==> p.stopped || f.stops)
    && (q.alive <==> f.starts || (p.alive && !f.dies))
    && q.startedAt == (if f.stamps then now else p.startedAt)
  }

  lemma LimitsOnly(c: Settings, k: Core, m: string, gpus: seq<int>, broken: set<int>)
    ensures var k' := RevertLimits(c, k, gpus, broken); k'.insts == k.insts && k'.registry == k.registry
    ensures m in c.config.models ==> ApplyLimits(c, k, m, broken).insts == k.insts
  {
  }

  /** What a step of the section that leads to s' does to instance i, going by the steps and the answer alone. */
  function EffectOf(s: Sec, a: Answer, s': Sec, i: nat): Effect
  {
    if s.Draining? && s.i == i then
      NOTHING.(timesOut := s.phase.Wait? && !a.Yes?, stops := s.phase.Stop?, dies := s.phase.Stop? && a.Yes?)
    else if s.Start? && s.i == i then NOTHING.(starts := a.Yes?)
    else if s.StopFailed? && s.i == i then NOTHING.(stops := true, dies := a.Yes?)
    else if s.Stamp? && s.i == i then NOTHING.(stamps := true)
    else if s'.Draining? && s'.i == i then NOTHING.(marks := true)
    else NOTHING
  }

  predicate HasDone(k: Core, k': Core, i: nat, f: Effect)
  {
    i < |k.insts| <= |k'.insts| && Did(k.insts[i], k'.insts[i], k.now, f)
  }

  lemma DrainSpares(c: Settings, k: Core, j: nat, phase: Drain, ret: Ret, a: Answer, i: nat)
    requires j < |k.insts| && i < |k.insts| && i != j
    ensures var r := DrainStep(c, k, j, phase, ret, a);
            HasDone(k, r.0, i, NOTHING) && (r.1.Draining? ==> r.1.i == j)
  {
    hide RevertLimits;
    LimitsOnly(c, k, "", k.insts[j].gpus, BrokenBy(a));
  }

  lemma DrainDoesOwn(c: Settings, k: Core, i: nat, phase: Drain, ret: Ret, a: Answer)
    requires i < |k.insts|
    ensures HasDone(k, DrainStep(c, k, i, phase, ret, a).0, i,
              NOTHING.(timesOut := phase.Wait? && !a.Yes?, stops := phase.Stop?, dies := phase.Stop? && a.Yes?))
  {
    hide RevertLimits;
    LimitsOnly(c, k, "", k.insts[i].gpus, BrokenBy(a));
  }

  lemma DrainDoes(c: Settings, k: Core, j: nat, phase: Drain, ret: Ret, a: Answer, i: nat)
    requires j < |k.insts| && i < |k.insts|
    ensures var r := DrainStep(c, k, j, phase, ret, a);
            HasDone(k, r.0, i, EffectOf(Draining(j, phase, ret), a, r.1, i))
  {
    hide DrainStep, HasDone;
    if i == j {
      DrainDoesOwn(c, k, i, phase, ret, a);
    } else {
      DrainSpares(c, k, j, phase, ret, a, i);
    }
  }

  lemma LaunchDoes(c: Settings, m: string, k: Core, s: Sec, a: Answer, i: nat)
    requires Launches(s) && SecInBounds(k, s) && m in c.config.models && i < |k.insts|
    ensures var r := LaunchStep(c, m, k, s, a); HasDone(k, r.0, i, EffectOf(s, a, r.1, i))
  {
    hide RevertLimits, ApplyLimits;
    LimitsOnly(c, k, m, Gpus(c, m), BrokenBy(a));
  }

  lemma LookDoes(c: Settings, m: string, k: Core, s: Sec, a: Answer, i: nat)
    requires Enabled(c, m, k, s, a) && Looks(s) && i < |k.insts|
    ensures HasDone(k, k, i, EffectOf(s, a, LookStep(c, m, k, s, a), i))
  {
  }

  lemma EvictDoes(c: Settings, m: string, k: Core, s: Sec, a: Answer, i: nat)
    requires s.Evict? && InBounds(k, s.ev.order) && i < |k.insts|
    ensures var r := EvictStep(c, k, Gpus(c, m), s.ev); HasDone(k, r.0, i, EffectOf(s, a, r.1, i))
  {
  }

  lemma StopLoopDoes(k: Core, s: Sec, a: Answer, i: nat)
    requires s.StopLoop? && InBounds(k, s.all) && i < |k.insts|
    ensures var r := StopLoopStep(k, s.all, s.k); HasDone(k, r.0, i, EffectOf(s, a, r.1, i))
  {
  }

  lemma TouchDoesNothing(k: Core, i: nat, t: int, g: nat, j: nat)
    requires i < |k.insts| && j < |k.insts|
    ensures HasDone(k, TouchAndTrack(k, i, t, g), j, NOTHING) && HasDone(k, TrackInst(k, i, g), j, NOTHING)
  {
  }

  lemma RouteDoes(c: Settings, g: nat, m: string, k: Core, s: Sec, a: Answer, i: nat)
    requires Enabled(c, m, k, s, a) && (s.Reprobe? || s.TrackNew? || s.TrackTotal?) && i < |k.insts|
    ensures var r := SecStep(c, g, m, k, s, a); HasDone(k, r.0, i, EffectOf(s, a, r.1, i))
  {
    hide HasDone, TouchAndTrack, TrackInst;
    if s.Reprobe? && ReadyInst(k, m).Some? {
      TouchDoesNothing(k, ReadyInst(k, m).value, s.t, g, i);
    } else if s.TrackNew? {
      TouchDoesNothing(k, s.i, 0, g, i);
    } else {
      assert s.TrackTotal? ==> AddTotal(k, s.r).insts == k.insts;
      SameInsts(k, SecStep(c, g, m, k, s, a).0, i);
    }
  }

  lemma SameInsts(k: Core, k': Core, i: nat)
    requires i < |k.insts| && k'.insts == k.insts
    ensures HasDone(k, k', i, NOTHING)
  {
  }

  lemma EntryDoes(c: Settings, g: nat, m: string, k: Core, s: Sec, a: Answer, i: nat)
    requires Enabled(c, m, k, s, a) && (s.TakePort? || s.Register?) && (s.Register? ==> m !in k.registry)
             && i < |k.insts|
    ensures var r := SecStep(c, g, m, k, s, a); HasDone(k, r.0, i, EffectOf(s, a, r.1, i))
  {
  }

  lemma SectionDoes(c: Settings, g: nat, m: string, k: Core, s: Sec, a: Answer, i: nat)
    requires Enabled(c, m, k, s, a) && !s.Leave? && (s.Register? ==> m !in k.registry) && i < |k.insts|
    ensures var r := SecStep(c, g, m, k, s, a); HasDone(k, r.0, i, EffectOf(s, a, r.1, i))
  {
    hide HasDone, EffectOf, DrainStep, LaunchStep, LookStep, EvictStep, StopLoopStep;
    if s.Draining? {
      DrainDoes(c, k, s.i, s.phase, s.ret, a, i);
    } else if Launches(s) {
      LaunchDoes(c, m, k, s, a, i);
    } else if Looks(s) {
      LookDoes(c, m, k, s, a, i);
    } else if s.Evict? {
      EvictDoes(c, m, k, s, a, i);
    } else if s.StopLoop? {
      StopLoopDoes(k, s, a, i);
    } else if s.TakePort? || s.Register? {
      EntryDoes(c, g, m, k, s, a, i);
    } else {
      RouteDoes(c, g, m, k, s, a, i);
    }
  }

  lemma BesideDoes(k: Core, e: Env, i: nat)
    requires EnvEnabled(k, e) && i < |k.insts|
    ensures HasDone(k, EnvStep(k, e), i, NOTHING.(dies := e == Env.Crash(i)))
  {
  }

  lemma OuterDoes(c: Settings, w: World, g: nat, a: Answer, i: nat)
    requires CanGo(c, w, g, a) && !w.threads[g].pc.In? && i < |w.core.insts|
    ensures HasDone(w.core, OuterStep(c, w, g, a).core, i, NOTHING)
  {
  }

  /** The effect of an event on instance i in state w. */
  function EffectIn(c: Settings, w: World, e: Event, i: nat): Effect
    requires CanHappen(c, w, e)
  {
    if e.Beside? then NOTHING.(dies := e.e == Env.Crash(i))
    else if e.Go? && w.threads[e.g].pc.In? && Apply(c, w, e).threads[e.g].pc.In? then
      EffectOf(w.threads[e.g].pc.s, e.a, Apply(c, w, e).threads[e.g].pc.s, i)
    else NOTHING
  }

  /** Each fact about an instance changes at one place of the code only, whatever else is going on: draining
      where an eviction or StopAll goes on to drain it, a timed-out drain where its timer fires, its process
      where that starts, crashes or dies of Stop, its start where it is recorded. */
  lemma WhatHappens(c: Settings, w: World, e: Event, i: nat)
    requires Reachable(c, w) && CanHappen(c, w, e) && i < |w.core.insts|
    ensures HasDone(w.core, Apply(c, w, e).core, i, EffectIn(c, w, e, i))
  {
    hide HasDone, SecStep, EffectOf, OuterStep, EnvStep;
    if e.Beside? {
      BesideDoes(w.core, e.e, i);
    } else if e.Go? && !w.threads[e.g].pc.In? {
      OuterDoes(c, w, e.g, e.a, i);
    } else if e.Go? && !w.threads[e.g].pc.s.Leave? {
      if w.threads[e.g].pc.s.Register? {
        NothingToReplace(c, w, e.g);
      }
      SectionDoes(c, e.g, w.threads[e.g].m, w.core, w.threads[e.g].pc.s, e.a, i);
    } else {
      SameInsts(w.core, w.core, i);
    }
  }

  lemma NothingToReplace(c: Settings, w: World, g: nat)
    requires Reachable(c, w) && g < |w.threads| && w.threads[g].pc.In? && w.threads[g].pc.s.Register?
    ensures w.threads[g].m !in w.core.registry
  {
    SectionFactsHold(c, w, g);
    OwnNameFree(c, w.core, w.threads[g].m);
  }

  // ----- no orphans -----

  /** A process runs only for an instance that is registered or being started, or that was told to stop. */
  ghost predicate Accounted(k: Core, h: Hold, i: nat)
    requires i < |k.insts|
  {
    k.insts[i].alive ==> Owner(k, h, i) || k.insts[i].stopped
  }

  /** Before the start nothing runs; a start that is given up has been told to stop, or never ran. */
  ghost predicate StartClean(k: Core, h: Hold)
  {
    && (h.Holds? && (h.s.ApplyPower? || h.s.Start?) && h.s.i < |k.insts| ==> !k.insts[h.s.i].alive)
    && (h.Holds? && h.s.FreeFailed? && h.s.i < |k.insts| ==> !k.insts[h.s.i].alive || k.insts[h.s.i].stopped)
  }

  ghost predicate NoOrphan(k: Core, h: Hold)
  {
    StartClean(k, h) && forall i :: 0 <= i < |k.insts| ==> Accounted(k, h, i)
  }

  ghost predicate StillOwned(k: Core, m: string, s: Sec, k': Core, s': Sec, i: nat)
    requires i < |k.insts|
  {
    Owner(k', Holds(m, s'), i) || k.insts[i].stopped || (s.FreeFailed? && s.i == i)
  }

  lemma DrainStaysOwned(c: Settings, m: string, k: Core, s: Sec, a: Answer, i: nat)
    requires s.Draining? && s.i < |k.insts| && DrainFacts(k, s.i, s.phase) && Owner(k, Holds(m, s), i) && i < |k.insts|
             && !s.ret.AfterReplace?
    ensures var r := DrainStep(c, k, s.i, s.phase, s.ret, a); StillOwned(k, m, s, r.0, r.1, i)
  {
    hide RevertLimits;
    LimitsOnly(c, k, "", k.insts[s.i].gpus, BrokenBy(a));
  }

  lemma LaunchStaysOwned(c: Settings, m: string, k: Core, s: Sec, a: Answer, i: nat)
    requires Launches(s) && SecInBounds(k, s) && m in c.config.models && Owner(k, Holds(m, s), i) && i < |k.insts|
    ensures var r := LaunchStep(c, m, k, s, a); StillOwned(k, m, s, r.0, r.1, i)
  {
  }

  lemma LookStaysOwned(c: Settings, m: string, k: Core, s: Sec, a: Answer, i: nat)
    requires Enabled(c, m, k, s, a) && Looks(s) && Owner(k, Holds(m, s), i) && i < |k.insts|
    ensures StillOwned(k, m, s, k, LookStep(c, m, k, s, a), i)
  {
  }

  lemma LoopStaysOwned(c: Settings, m: string, k: Core, s: Sec, a: Answer, i: nat)
    requires SecInBounds(k, s) && Owner(k, Holds(m, s), i) && i < |k.insts|
    ensures s.Evict? ==> var r := EvictStep(c, k, Gpus(c, m), s.ev); StillOwned(k, m, s, r.0, r.1, i)
    ensures s.StopLoop? ==> var r := StopLoopStep(k, s.all, s.k); StillOwned(k, m, s, r.0, r.1, i)
  {
  }

  lemma EntryStaysOwned(c: Settings, m: string, k: Core, s: Sec, i: nat)
    requires SecInBounds(k, s) && Owner(k, Holds(m, s), i) && i < |k.insts| && m in c.config.models
    ensures s.TakePort? ==> var r := TakePortStep(c, k, m); StillOwned(k, m, s, r.0, r.1, i)
    ensures s.Register? && m !in k.registry && k.insts[s.i].model == m ==>
              var r := RegisterStep(m, k, s.i); StillOwned(k, m, s, r.0, r.1, i)
  {
  }

  /** A step of the section takes an instance from its owner only if it was told to stop, or its start is given
      up. */
  lemma StaysOwned(c: Settings, g: nat, m: string, k: Core, s: Sec, a: Answer, i: nat)
    requires Enabled(c, m, k, s, a) && !s.Leave? && SecInBounds(k, s) && PlaceFacts(c, k, m, s)
    requires Owner(k, Holds(m, s), i) && i < |k.insts| && (s.Register? ==> m !in k.registry)
    ensures var r := SecStep(c, g, m, k, s, a); StillOwned(k, m, s, r.0, r.1, i)
  {
    hide DrainStep, LaunchStep, LookStep, EvictStep, StopLoopStep, TakePortStep, RegisterStep, DrainFacts;
    if s.Draining? {
      DrainStaysOwned(c, m, k, s, a, i);
    } else if Launches(s) {
      LaunchStaysOwned(c, m, k, s, a, i);
    } else if Looks(s) {
      LookStaysOwned(c, m, k, s, a, i);
    } else if s.TakePort? || s.Register? {
      EntryStaysOwned(c, m, k, s, i);
    } else {
      LoopStaysOwned(c, m, k, s, a, i);
    }
  }

  lemma StaysAccounted(c: Settings, g: nat, m: string, k: Core, s: Sec, a: Answer, i: nat)
    requires Enabled(c, m, k, s, a) && !s.Leave? && SecInBounds(k, s) && PlaceFacts(c, k, m, s)
    requires i < |k.insts| && (s.Register? ==> m !in k.registry) && NoOrphan(k, Holds(m, s))
    ensures var r := SecStep(c, g, m, k, s, a); i < |r.0.insts| && Accounted(r.0, Holds(m, r.1), i)
  {
    hide SecStep, PlaceFacts, Enabled;
    SectionDoes(c, g, m, k, s, a, i);
    assert Accounted(k, Holds(m, s), i);
    if Owner(k, Holds(m, s), i) {
      StaysOwned(c, g, m, k, s, a, i);
    }
    StartsInHand(c, g, m, k, s, a);
  }

  lemma StartsInHand(c: Settings, g: nat, m: string, k: Core, s: Sec, a: Answer)
    requires Enabled(c, m, k, s, a) && !s.Leave?
    ensures s.Start? && a.Yes? ==> SecStep(c, g, m, k, s, a).1 == Verify(s.i)
  {
  }

  lemma FreshIsQuiet(c: Settings, g: nat, m: string, k: Core, s: Sec, a: Answer, i: nat)
    requires Enabled(c, m, k, s, a) && !s.Leave? && |k.insts| <= i < |SecStep(c, g, m, k, s, a).0.insts|
    ensures !SecStep(c, g, m, k, s, a).0.insts[i].alive
  {
    hide RevertLimits, ApplyLimits;
    LimitsOnly(c, k, m, Gpus(c, m), BrokenBy(a));
    if s.Draining? {
      LimitsOnly(c, k, m, k.insts[s.i].gpus, BrokenBy(a));
    }
  }

  lemma StartsClean(c: Settings, g: nat, m: string, k: Core, s: Sec, a: Answer)
    requires Enabled(c, m, k, s, a) && !s.Leave? && StartClean(k, Holds(m, s))
    ensures var r := SecStep(c, g, m, k, s, a); StartClean(r.0, Holds(m, r.1))
  {
    hide RevertLimits, ApplyLimits;
    LimitsOnly(c, k, m, Gpus(c, m), BrokenBy(a));
  }

  /** Nobody takes or gives up an instance in hand outside of the section. */
  ghost predicate SameHand(h: Hold, h': Hold)
  {
    h' == h || (HandOf(h) == None && (h'.Holds? ==> h'.s.Recheck? || h'.s.StopScan?))
  }

  lemma OutsideSameHand(c: Settings, w: World, e: Event)
    requires Outside(c, w, e) && PermitInv(w)
    ensures SameHand(HoldOf(w), HoldOf(Apply(c, w, e)))
  {
    var w' := Apply(c, w, e);
    if e.Go? && w.permit.Some? && w.permit != Some(e.g) {
      assert w'.threads[w.permit.value] == w.threads[w.permit.value];
    }
  }

  /** No process has started, no Stop was called, and the instance is what it was. */
  predicate Fades(k: Core, k': Core, i: nat)
  {
    && i < |k.insts| && i < |k'.insts| && k'.insts[i].model == k.insts[i].model
    && (k'.insts[i].alive ==> k.insts[i].alive) && k'.insts[i].stopped == k.insts[i].stopped
  }

  lemma OutsideNoOrphan(k: Core, h: Hold, k': Core, h': Hold)
    requires NoOrphan(k, h) && SameHand(h, h') && k'.registry == k.registry && |k'.insts| == |k.insts|
    requires forall i :: 0 <= i < |k.insts| ==> Fades(k, k', i)
    ensures NoOrphan(k', h')
  {
    forall i | 0 <= i < |k'.insts|
      ensures Accounted(k', h', i)
    {
      assert Accounted(k, h, i) && Fades(k, k', i);
    }
    if h.Holds? && Launches(h.s) && h.s.i < |k.insts| {
      assert Fades(k, k', h.s.i);
    }
  }

  lemma SectionNoOrphan(c: Settings, g: nat, m: string, k: Core, s: Sec, a: Answer)
    requires Enabled(c, m, k, s, a) && !s.Leave? && SecInBounds(k, s) && PlaceFacts(c, k, m, s)
    requires (s.Register? ==> m !in k.registry) && NoOrphan(k, Holds(m, s))
    ensures var r := SecStep(c, g, m, k, s, a); NoOrphan(r.0, Holds(m, r.1))
  {
    hide SecStep, PlaceFacts, Enabled, Accounted, StartClean;
    var r := SecStep(c, g, m, k, s, a);
    StartsClean(c, g, m, k, s, a);
    forall i | 0 <= i < |r.0.insts|
      ensures Accounted(r.0, Holds(m, r.1), i)
    {
      if i < |k.insts| {
        StaysAccounted(c, g, m, k, s, a, i);
      } else {
        FreshIsQuiet(c, g, m, k, s, a, i);
        QuietIsAccounted(r.0, Holds(m, r.1), i);
      }
    }
  }

  lemma QuietIsAccounted(k: Core, h: Hold, i: nat)
    requires i < |k.insts| && !k.insts[i].alive
    ensures Accounted(k, h, i)
  {
  }

  lemma HolderNoOrphan(c: Settings, w: World, g: nat, a: Answer)
    requires Reachable(c, w) && NoOrphan(w.core, HoldOf(w)) && CanGo(c, w, g, a)
    requires w.threads[g].pc.In? && !w.threads[g].pc.s.Leave?
    ensures var w' := Apply(c, w, Go(g, a)); NoOrphan(w'.core, HoldOf(w'))
  {
    hide NoOrphan, SecStep, Enabled, PlaceFacts;
    var m, s := w.threads[g].m, w.threads[g].pc.s;
    SectionFactsHold(c, w, g);
    if s.Register? {
      NothingToReplace(c, w, g);
    }
    assert CanGo(c, w, g, a) ==> Enabled(c, m, w.core, s, a);
    SectionNoOrphan(c, g, m, w.core, s, a);
    HoldAfter(c, w, g, a);
  }

  lemma HoldAfter(c: Settings, w: World, g: nat, a: Answer)
    requires Reachable(c, w) && CanGo(c, w, g, a) && w.threads[g].pc.In? && !w.threads[g].pc.s.Leave?
    ensures var w' := Apply(c, w, Go(g, a));
            var r := SecStep(c, g, w.threads[g].m, w.core, w.threads[g].pc.s, a);
            w'.core == r.0 && HoldOf(w') == Holds(w.threads[g].m, r.1)
  {
    hide SecStep;
    ReachableInv(c, w);
  }

  lemma EventNoOrphan(c: Settings, w: World, e: Event)
    requires Reachable(c, w) && NoOrphan(w.core, HoldOf(w)) && CanHappen(c, w, e)
    ensures var w' := Apply(c, w, e); NoOrphan(w'.core, HoldOf(w'))
  {
    hide NoOrphan, Reachable;
    if e.Go? && w.threads[e.g].pc.In? && !w.threads[e.g].pc.s.Leave? {
      HolderNoOrphan(c, w, e.g, e.a);
    } else {
      OutsideKeeps(c, w, e);
      OutsideNoOrphan(w.core, HoldOf(w), Apply(c, w, e).core, HoldOf(Apply(c, w, e)));
    }
  }

  /** An event outside of the section. */
  predicate Outside(c: Settings, w: World, e: Event)
  {
    CanHappen(c, w, e) && (e.Go? && w.threads[e.g].pc.In? ==> w.threads[e.g].pc.s.Leave?)
  }

  lemma OutsideFades(c: Settings, w: World, e: Event, i: nat)
    requires Reachable(c, w) && Outside(c, w, e) && i < |w.core.insts|
    ensures Fades(w.core, Apply(c, w, e).core, i)
  {
    hide Apply, Reachable, CanHappen;
    WhatHappens(c, w, e, i);
    OutsideEffect(c, w, e, i);
  }

  lemma OutsideEffect(c: Settings, w: World, e: Event, i: nat)
    requires Outside(c, w, e)
    ensures var f := EffectIn(c, w, e, i); !f.starts && !f.stops
  {
  }

  lemma OutsideRegistry(c: Settings, w: World, e: Event)
    requires Outside(c, w, e)
    ensures var k, k' := w.core, Apply(c, w, e).core; k'.registry == k.registry && |k'.insts| == |k.insts|
  {
    if e.Go? && !w.threads[e.g].pc.In? {
      OuterTouchesNothing(c, w, e.g, e.a);
    }
  }

  lemma OutsideKeeps(c: Settings, w: World, e: Event)
    requires Reachable(c, w) && Outside(c, w, e)
    ensures var k, k' := w.core, Apply(c, w, e).core;
            && SameHand(HoldOf(w), HoldOf(Apply(c, w, e))) && k'.registry == k.registry && |k'.insts| == |k.insts|
            && forall i :: 0 <= i < |k.insts| ==> Fades(k, k', i)
  {
    hide Reachable, WorldInv, SameHand, Fades, Apply;
    ReachablePermit(c, w);
    OutsideSameHand(c, w, e);
    OutsideRegistry(c, w, e);
    forall i | 0 <= i < |w.core.insts|
      ensures Fades(w.core, Apply(c, w, e).core, i)
    {
      OutsideFades(c, w, e, i);
    }
  }

  lemma ReachablePermit(c: Settings, w: World)
    requires Reachable(c, w)
    ensures PermitInv(w)
  {
    ReachableInv(c, w);
  }

  lemma {:induction false} RunNoOrphan(c: Settings, now: int, es: seq<Event>)
    requires Sound(c, now)
    ensures var w := Run(c, now, es); NoOrphan(w.core, HoldOf(w))
  {
    hide NoOrphan, Reachable;
    if es == [] {
      StartsEmpty(c, now);
    } else {
      var past, e := es[..|es| - 1], es[|es| - 1];
      RunNoOrphan(c, now, past);
      IsReachable(c, now, past);
      if CanHappen(c, Run(c, now, past), e) {
        EventNoOrphan(c, Run(c, now, past), e);
      }
    }
  }

  lemma StartsEmpty(c: Settings, now: int)
    ensures NoOrphan(Init(c, now).core, HoldOf(Init(c, now)))
  {
  }

  /** No process is orphaned: in every reachable state an instance whose process lives is registered, or being
      started by the permit holder, or has been told to stop. */
  lemma NoOrphans(c: Settings, w: World, i: nat)
    requires Reachable(c, w) && i < |w.core.insts| && w.core.insts[i].alive
    ensures Owner(w.core, HoldOf(w), i) || w.core.insts[i].stopped
  {
    var now, es :| Sound(c, now) && w == Run(c, now, es);
    RunNoOrphan(c, now, es);
    assert Accounted(w.core, HoldOf(w), i);
  }
}
