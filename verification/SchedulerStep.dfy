/** Every step of the scheduling section keeps the invariant, and the section can always take one. */
module SchedulerStep {
  import opened Wrappers
  import opened SchedulerCore
  import opened SchedulerInvariant
  import opened SchedulerFrame
  import opened SchedulerEnv
  import opened SchedulerSection
  import opened SchedulerDrain
  import opened SchedulerLaunch

  // ----- routes handed out under the permit -----

  lemma TrackDrains(k: Core, h: Hold, i: nat, g: nat)
    requires DrainInv(k, h) && Plain(h) && Registered(k, i) && !k.insts[i].draining
    ensures DrainInv(TrackInst(k, i, g), h)
  {
    SameRegistered(k, TrackInst(k, i, g));
    forall x | 0 <= x < |k.insts|
      ensures DrainOk(TrackInst(k, i, g), h, x)
    {
      assert DrainOk(k, h, x);
    }
  }

  lemma TrackBase(c: Settings, k: Core, h: Hold, i: nat, g: nat)
    requires BaseInv(c, k, h) && Plain(h) && Registered(k, i) && !k.insts[i].draining
    ensures BaseInv(c, TrackInst(k, i, g), h)
  {
    InstsCarry(c, k, TrackInst(k, i, g));
    PortsCarry(c, k, h, TrackInst(k, i, g), h);
    PowerCarry(c, k, h, TrackInst(k, i, g), h);
    TrackCounts(k, i, g);
    TrackDrains(k, h, i, g);
  }

  lemma TrackNewBase(c: Settings, k: Core, m: string, i: nat, g: nat)
    requires BaseInv(c, k, Holds(m, TrackNew(i))) && Registered(k, i) && !k.insts[i].draining
    ensures BaseInv(c, TrackInst(k, i, g), Holds(m, TrackTotal(|k.routes|)))
  {
    PlainStep(c, k, Holds(m, TrackNew(i)), Holds(m, TrackTotal(|k.routes|)));
    TrackBase(c, k, Holds(m, TrackTotal(|k.routes|)), i, g);
  }

  lemma TrackNewFacts(c: Settings, k: Core, m: string, i: nat, g: nat)
    requires SecInv(c, k, Holds(m, TrackNew(i)))
    ensures SecInv(c, TrackInst(k, i, g), Holds(m, TrackTotal(|k.routes|)))
  {
  }

  lemma TrackTotalBase(c: Settings, k: Core, m: string, r: nat)
    requires BaseInv(c, k, Holds(m, TrackTotal(r))) && r < |k.routes| && !k.routes[r].tracked
    ensures BaseInv(c, AddTotal(k, r), Holds(m, Leave(Routed(r))))
  {
    PlainStep(c, k, Holds(m, TrackTotal(r)), Holds(m, Leave(Routed(r))));
    EnvBase(c, k, Holds(m, Leave(Routed(r))), CountTotal(r));
  }

  lemma TrackTotalFacts(c: Settings, k: Core, m: string, r: nat)
    requires SecInv(c, k, Holds(m, TrackTotal(r)))
    ensures SecInv(c, AddTotal(k, r), Holds(m, Leave(Routed(r))))
  {
  }

  lemma TouchBase(c: Settings, k: Core, h: Hold, m: string, t: int, g: nat, i: nat)
    requires BaseInv(c, k, h) && ReadyInst(k, m) == Some(i)
    ensures BaseInv(c, TouchAndTrack(k, i, t, g), h)
  {
    EnvBase(c, k, h, Touch(m, t, g));
  }

  lemma HitBase(c: Settings, k: Core, m: string, t: int, g: nat, i: nat)
    requires BaseInv(c, k, Holds(m, Reprobe(t))) && ReadyInst(k, m) == Some(i)
    ensures BaseInv(c, TouchAndTrack(k, i, t, g), Holds(m, TrackTotal(|k.routes|)))
  {
    PlainStep(c, k, Holds(m, Reprobe(t)), Holds(m, TrackTotal(|k.routes|)));
    TouchBase(c, k, Holds(m, TrackTotal(|k.routes|)), m, t, g, i);
  }

  lemma HitFacts(c: Settings, k: Core, m: string, t: int, g: nat, i: nat)
    requires InstsInv(c, k) && Canonical(c, m) && ReadyInst(k, m) == Some(i)
    ensures SecInv(c, TouchAndTrack(k, i, t, g), Holds(m, TrackTotal(|k.routes|)))
  {
    hide EvictFacts, Standing, Evicted, Remaining, HandFacts, SortFacts, DrainFacts, Room;
    var k' := TouchAndTrack(k, i, t, g);
    assert k'.routes[|k.routes|] == Route(i, g, false, false, false) && k'.insts[i].model == m;
  }

  lemma ReprobeBase(c: Settings, k: Core, m: string, t: int, g: nat)
    requires BaseInv(c, k, Holds(m, Reprobe(t)))
    ensures var r := ReprobeStep(g, m, k, t); BaseInv(c, r.0, Holds(m, r.1))
  {
    if ReadyInst(k, m).Some? {
      HitBase(c, k, m, t, g, ReadyInst(k, m).value);
    } else {
      PlainStep(c, k, Holds(m, Reprobe(t)), Holds(m, Capacity));
    }
  }

  lemma ReprobeFacts(c: Settings, k: Core, m: string, t: int, g: nat)
    requires InstsInv(c, k) && Canonical(c, m)
    ensures var r := ReprobeStep(g, m, k, t); SecInv(c, r.0, Holds(m, r.1))
  {
    if ReadyInst(k, m).Some? {
      HitFacts(c, k, m, t, g, ReadyInst(k, m).value);
    }
  }

  // ----- all steps -----

  lemma LaunchBase(c: Settings, m: string, k: Core, s: Sec, a: Answer)
    requires ValidSettings(c) && CoreInv(c, k, Holds(m, s)) && Launches(s)
    ensures var r := LaunchStep(c, m, k, s, a); BaseInv(c, r.0, Holds(m, r.1))
  {
    if s.ApplyPower? {
      ApplyPowerBase(c, m, k, s.i, a);
    } else if s.FreeFailed? {
      FreeFailedBase(c, m, k, s.i, s.revert, a);
    } else if s.RevertFailed? {
      RevertFailedBase(c, m, k, s.i, a);
    } else {
      PrepareBase(c, m, k, s, a);
    }
  }

  lemma LaunchFacts(c: Settings, m: string, k: Core, s: Sec, a: Answer)
    requires SecInv(c, k, Holds(m, s)) && k.now > 0 && Launches(s)
    ensures var r := LaunchStep(c, m, k, s, a); SecInv(c, r.0, Holds(m, r.1))
  {
    if s.ApplyPower? {
      ApplyPowerFacts(c, m, k, s.i, a);
    } else if s.FreeFailed? {
      FreeFailedFacts(c, m, k, s.i, s.revert, a);
    } else if !s.RevertFailed? {
      PrepareFacts(c, m, k, s, a);
    }
  }

  lemma SectionBase(c: Settings, g: nat, m: string, k: Core, s: Sec, a: Answer)
    requires ValidSettings(c) && CoreInv(c, k, Holds(m, s)) && Enabled(c, m, k, s, a) && !s.Leave?
    ensures var r := SecStep(c, g, m, k, s, a); BaseInv(c, r.0, Holds(m, r.1))
  {
    hide InstsInv, PortInv, CountInv, DrainInv, PowerInv, CapInv, EvictingFacts, StoppingFacts;
    if Looks(s) {
      LookBase(c, m, k, s, a);
    } else if Launches(s) {
      LaunchBase(c, m, k, s, a);
    } else if s.Draining? {
      DrainBase(c, k, m, s, a);
    } else if s.Evict? {
      EvictBase(c, k, m, s.ev);
    } else if s.StopLoop? {
      StopLoopBase(c, k, m, s.all, s.k);
    } else if s.TakePort? {
      TakePortBase(c, k, m);
    } else if s.Register? {
      RegisterBase(c, m, k, s.i);
    } else if s.Reprobe? {
      ReprobeBase(c, k, m, s.t, g);
    } else if s.TrackNew? {
      TrackNewBase(c, k, m, s.i, g);
    } else {
      TrackTotalBase(c, k, m, s.r);
    }
  }

  lemma SectionFacts(c: Settings, g: nat, m: string, k: Core, s: Sec, a: Answer)
    requires ValidSettings(c) && CoreInv(c, k, Holds(m, s)) && Enabled(c, m, k, s, a) && !s.Leave?
    ensures var r := SecStep(c, g, m, k, s, a); SecInv(c, r.0, Holds(m, r.1))
  {
    hide PortInv, CountInv, PowerInv, CapInv, EvictingFacts, StoppingFacts;
    if Looks(s) {
      LookFacts(c, m, k, s, a);
    } else if Launches(s) {
      LaunchFacts(c, m, k, s, a);
    } else if s.Draining? {
      DrainFactsStep(c, k, m, s, a);
    } else if s.Evict? {
      EvictFactsStep(c, k, m, s.ev);
    } else if s.StopLoop? {
      StopLoopFacts(c, k, m, s.all, s.k);
    } else if s.TakePort? {
      TakePortFacts(c, k, m);
    } else if s.Register? {
      RegisterBase(c, m, k, s.i);
      RegisterFacts(c, m, k, s.i);
    } else if s.Reprobe? {
      ReprobeFacts(c, k, m, s.t, g);
    } else if s.TrackNew? {
      TrackNewFacts(c, k, m, s.i, g);
    } else {
      TrackTotalFacts(c, k, m, s.r);
    }
  }

  /** The permit holder's steps keep the invariant. */
  lemma SectionKeepsInv(c: Settings, g: nat, m: string, k: Core, s: Sec, a: Answer)
    requires ValidSettings(c) && CoreInv(c, k, Holds(m, s)) && Enabled(c, m, k, s, a) && !s.Leave?
    ensures var r := SecStep(c, g, m, k, s, a); CoreInv(c, r.0, Holds(m, r.1))
  {
    SectionBase(c, g, m, k, s, a);
    SectionFacts(c, g, m, k, s, a);
  }
}
