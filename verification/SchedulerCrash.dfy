/** A crashed pinned model: its own dead entry is in its way, and stays there until StopAll. */
module SchedulerCrash {
  import opened Wrappers
  import opened Config
  import opened SchedulerCore
  import opened SchedulerInvariant
  import opened SchedulerLaunch
  import opened SchedulerRuns
  import opened SchedulerRunsInvariant
  import opened SchedulerTheorems

  /** Instance i holds the entry of the pinned model m, and its process is gone. */
  predicate Dead(k: Core, m: string, i: nat)
  {
    Registered(k, i) && k.insts[i].model == m && k.insts[i].pinned && !k.insts[i].alive
  }

  /** No route made after the first n leads to an instance of m. */
  predicate NoRouteSince(k: Core, m: string, n: nat)
  {
    n <= |k.routes| && forall r :: n <= r < |k.routes| ==>
      k.routes[r].inst < |k.insts| && k.insts[k.routes[r].inst].model != m
  }

  /** A step of StopAll, or the last step of starting i. */
  predicate Ends(s: Sec, i: nat)
  {
    s.StopScan? || s.StopLoop? || (s.Draining? && s.ret.AfterStop?) || s == TrackNew(i)
  }

  ghost predicate Down(k: Core, m: string, i: nat, n: nat)
  {
    Dead(k, m, i) && NoRouteSince(k, m, n)
  }

  lemma EntryConflicts(c: Settings, k: Core, m: string)
    requires ValidSettings(c) && InstsInv(c, k) && m in k.registry
    ensures Conflict(k, Gpus(c, m), k.registry[m])
  {
    var i := k.registry[m];
    assert Canonical(c, k.insts[i].model) && Schedulable(c.config.models[m]);
    assert k.insts[i].gpus[0] in Gpus(c, m);
  }

  lemma RegisteredApart(c: Settings, k: Core, h: Hold, i: nat, j: nat)
    requires PortInv(c, k, h) && Registered(k, i) && Registered(k, j) && i != j
    ensures !Overlaps(k.insts[i].gpus, k.insts[j].gpus)
  {
    assert Owner(k, h, i) && Owner(k, h, j) && Apart(k, i, j);
  }

  /** The conflicts of a registered model are its own entry and nothing else, as every other instance keeps off
      its GPUs: a request for that model has this one instance to evict. */
  lemma OwnEntryConflicts(c: Settings, w: World, m: string)
    requires Reachable(c, w) && m in w.core.registry
    ensures var k := w.core; forall i: nat :: Conflict(k, Gpus(c, m), i) <==> i == k.registry[m]
  {
    ReachableInv(c, w);
    var k, own := w.core, w.core.registry[m];
    EntryConflicts(c, k, m);
    forall i: nat | i != own
      ensures !Conflict(k, Gpus(c, m), i)
    {
      if Registered(k, i) {
        RegisteredApart(c, k, HoldOf(w), i, own);
      }
    }
  }

  lemma TouchStaysDown(k: Core, m: string, i: nat, n: nat, m': string, t: int, g: nat)
    requires Down(k, m, i, n) && ReadyInst(k, m').Some?
             && (forall x :: x in k.registry ==> k.registry[x] < |k.insts| && k.insts[k.registry[x]].model == x)
    ensures Down(TouchAndTrack(k, ReadyInst(k, m').value, t, g), m, i, n)
  {
  }

  /** An eviction's victim is never pinned. */
  lemma EvictorSpares(c: Settings, k: Core, i: nat, m': string, s: Sec)
    requires i < |k.insts| && k.insts[i].pinned && s.Draining? && !s.ret.AfterStop? && SecInv(c, k, Holds(m', s))
    ensures s.i < |k.insts| && s.i != i && s.ret.AfterEvict? && (!s.phase.Free? ==> Registered(k, s.i))
  {
    assert s.i == s.ret.ev.order[s.ret.ev.k];
  }

  lemma DrainLeavesOthers(c: Settings, k: Core, i: nat, phase: Drain, ret: Ret, a: Answer)
    requires i < |k.insts| && ret.AfterEvict?
    ensures var r := DrainStep(c, k, i, phase, ret, a);
            && r.0.registry == (if phase.Delete? then k.registry - {k.insts[i].model} else k.registry)
            && r.0.routes == k.routes && |r.0.insts| == |k.insts| && r.0.insts[i].model == k.insts[i].model
            && (forall j :: 0 <= j < |k.insts| && j != i ==> r.0.insts[j] == k.insts[j])
            && (r.1.Still? || (r.1.Draining? && r.1.ret == ret))
  {
  }

  lemma DrainStaysDown(c: Settings, k: Core, m: string, i: nat, n: nat, s: Sec, a: Answer)
    requires Down(k, m, i, n) && s.Draining? && s.i < |k.insts| && s.i != i && s.ret.AfterEvict?
             && (!s.phase.Free? ==> Registered(k, s.i))
    ensures var r := DrainStep(c, k, s.i, s.phase, s.ret, a); Down(r.0, m, i, n) && !Ends(r.1, i)
  {
    hide DrainStep;
    DrainLeavesOthers(c, k, s.i, s.phase, s.ret, a);
  }

  lemma LaunchStaysDown(c: Settings, k: Core, m: string, i: nat, n: nat, m': string, s: Sec, a: Answer)
    requires Down(k, m, i, n) && Launches(s) && SecInBounds(k, s) && m' in c.config.models
             && (s.RevertFailed? || s.i != i)
    ensures var r := LaunchStep(c, m', k, s, a); Down(r.0, m, i, n) && !Ends(r.1, i)
  {
  }

  lemma RegisterStaysDown(c: Settings, k: Core, m: string, i: nat, n: nat, m': string, s: Sec)
    requires Down(k, m, i, n) && s.Register? && s.i != i && InstsInv(c, k) && m' !in k.registry
    ensures var r := RegisterStep(m', k, s.i); Down(r.0, m, i, n) && !Ends(r.1, i)
  {
  }

  lemma TrackStaysDown(c: Settings, k: Core, m: string, i: nat, n: nat, m': string, s: Sec, g: nat)
    requires Down(k, m, i, n) && s.TrackNew? && s.i != i && SecInv(c, k, Holds(m', s))
    ensures Down(TrackInst(k, s.i, g), m, i, n)
  {
  }

  lemma LookStaysDown(c: Settings, k: Core, i: nat, m': string, s: Sec, a: Answer)
    requires Looks(s) && !Ends(s, i) && Enabled(c, m', k, s, a)
    ensures !Ends(LookStep(c, m', k, s, a), i)
  {
  }

  lemma EvictStaysDown(c: Settings, k: Core, m: string, i: nat, n: nat, m': string, ev: Eviction)
    requires Down(k, m, i, n) && InBounds(k, ev.order)
    ensures var r := EvictStep(c, k, Gpus(c, m'), ev); Down(r.0, m, i, n) && !Ends(r.1, i)
  {
  }

  lemma PortStaysDown(c: Settings, k: Core, m: string, i: nat, n: nat, m': string)
    requires Down(k, m, i, n) && m' in c.config.models
    ensures var r := TakePortStep(c, k, m'); Down(r.0, m, i, n) && !Ends(r.1, i)
  {
  }

  lemma CountStaysDown(k: Core, m: string, i: nat, n: nat, r: nat)
    requires Down(k, m, i, n) && r < |k.routes|
    ensures Down(AddTotal(k, r), m, i, n)
  {
  }

  lemma ReprobeStaysDown(g: nat, k: Core, m: string, i: nat, n: nat, m': string, t: int)
    requires Down(k, m, i, n) && (forall x :: x in k.registry ==>
             k.registry[x] < |k.insts| && k.insts[k.registry[x]].model == x)
    ensures var r := ReprobeStep(g, m', k, t); Down(r.0, m, i, n) && !Ends(r.1, i)
  {
    if ReadyInst(k, m').Some? {
      TouchStaysDown(k, m, i, n, m', t, g);
    }
  }

  lemma OtherStaysDown(c: Settings, g: nat, k: Core, m: string, i: nat, n: nat, m': string, s: Sec, a: Answer)
    requires Down(k, m, i, n) && !Ends(s, i) && Enabled(c, m', k, s, a) && InstsInv(c, k)
    requires !s.Leave? && !s.Draining? && !Launches(s) && !s.Register? && !s.TrackNew?
    ensures var r := SecStep(c, g, m', k, s, a); Down(r.0, m, i, n) && !Ends(r.1, i)
  {
    if Looks(s) {
      LookStaysDown(c, k, i, m', s, a);
    } else if s.Reprobe? {
      ReprobeStaysDown(g, k, m, i, n, m', s.t);
    } else if s.Evict? {
      EvictStaysDown(c, k, m, i, n, m', s.ev);
    } else if s.TakePort? {
      PortStaysDown(c, k, m, i, n, m');
    } else {
      CountStaysDown(k, m, i, n, s.r);
    }
  }

  lemma HandIsNew(c: Settings, k: Core, m: string, i: nat, n: nat, m': string, s: Sec)
    requires Down(k, m, i, n) && PortInv(c, k, Holds(m', s)) && (Launches(s) || s.Register?)
    ensures s.RevertFailed? || s.i != i
  {
    assert HandOf(Holds(m', s)) == if s.RevertFailed? then None else Some(s.i);
  }

  lemma HandStaysDown(c: Settings, g: nat, k: Core, m: string, i: nat, n: nat, m': string, s: Sec, a: Answer)
    requires ValidSettings(c) && Down(k, m, i, n) && Enabled(c, m', k, s, a) && (Launches(s) || s.Register?)
    requires InstsInv(c, k) && PortInv(c, k, Holds(m', s)) && Canonical(c, m') && PlaceFacts(c, k, m', s)
    ensures var r := SecStep(c, g, m', k, s, a); Down(r.0, m, i, n) && !Ends(r.1, i)
  {
    hide Down;
    HandIsNew(c, k, m, i, n, m', s);
    if s.Register? {
      OwnNameFree(c, k, m');
      RegisterStaysDown(c, k, m, i, n, m', s);
    } else {
      LaunchStaysDown(c, k, m, i, n, m', s, a);
    }
  }

  lemma VictimStaysDown(c: Settings, g: nat, k: Core, m: string, i: nat, n: nat, m': string, s: Sec, a: Answer)
    requires Down(k, m, i, n) && !Ends(s, i) && Enabled(c, m', k, s, a) && (s.Draining? || s.TrackNew?)
             && SecInv(c, k, Holds(m', s))
    ensures var r := SecStep(c, g, m', k, s, a); Down(r.0, m, i, n) && !Ends(r.1, i)
  {
    if s.Draining? {
      EvictorSpares(c, k, i, m', s);
      DrainStaysDown(c, k, m, i, n, s, a);
    } else {
      TrackStaysDown(c, k, m, i, n, m', s, g);
    }
  }

  lemma OuterStaysDown(c: Settings, w: World, g: nat, a: Answer, m: string, i: nat, n: nat)
    requires CanGo(c, w, g, a) && !w.threads[g].pc.In? && Down(w.core, m, i, n) && InstsInv(c, w.core)
    ensures Down(OuterStep(c, w, g, a).core, m, i, n)
  {
    if w.threads[g].pc.Probing? && ReadyInst(w.core, w.threads[g].m).Some? {
      TouchStaysDown(w.core, m, i, n, w.threads[g].m, w.threads[g].pc.t, g);
    }
  }

  lemma EnvStaysDown(k: Core, e: Env, m: string, i: nat, n: nat)
    requires EnvEnabled(k, e) && !e.Touch? && Down(k, m, i, n)
    ensures Down(EnvStep(k, e), m, i, n)
  {
  }

  // ----- whole runs -----

  /** Nobody is about to stop everything, or to finish starting i. */
  ghost predicate Undisputed(w: World, i: nat)
  {
    forall g :: 0 <= g < |w.threads| ==>
      !w.threads[g].pc.StopWanting? && !(w.threads[g].pc.In? && Ends(w.threads[g].pc.s, i))
  }

  lemma SectionStaysDown(c: Settings, g: nat, k: Core, m: string, i: nat, n: nat, m': string, s: Sec, a: Answer)
    requires ValidSettings(c) && Down(k, m, i, n) && !Ends(s, i) && Enabled(c, m', k, s, a) && !s.Leave?
    requires InstsInv(c, k) && PortInv(c, k, Holds(m', s)) && SecInv(c, k, Holds(m', s))
    ensures var r := SecStep(c, g, m', k, s, a); Down(r.0, m, i, n) && !Ends(r.1, i)
  {
    hide PortInv, SecFacts;
    if s.Draining? || s.TrackNew? {
      VictimStaysDown(c, g, k, m, i, n, m', s, a);
    } else if Launches(s) || s.Register? {
      SecFactsPlace(c, k, m', s);
      HandStaysDown(c, g, k, m, i, n, m', s, a);
    } else {
      OtherStaysDown(c, g, k, m, i, n, m', s, a);
    }
  }

  lemma SecFactsPlace(c: Settings, k: Core, m: string, s: Sec)
    requires SecInBounds(k, s) && SecFacts(c, k, m, s)
    ensures PlaceFacts(c, k, m, s)
  {
  }

  lemma GoStaysDown(c: Settings, w: World, g: nat, a: Answer, m: string, i: nat, n: nat)
    requires ValidSettings(c) && CanGo(c, w, g, a) && WorldInv(c, w) && Down(w.core, m, i, n) && Undisputed(w, i)
    ensures var w' := Apply(c, w, Go(g, a)); Down(w'.core, m, i, n) && Undisputed(w', i)
  {
    hide Down, PortInv, CountInv, DrainInv, PowerInv, CapInv, SecFacts, WaiterInv, ThreadsInv;
    if !w.threads[g].pc.In? {
      OuterStaysDown(c, w, g, a, m, i, n);
    } else if !w.threads[g].pc.s.Leave? {
      assert HoldOf(w) == Holds(w.threads[g].m, w.threads[g].pc.s);
      SectionStaysDown(c, g, w.core, m, i, n, w.threads[g].m, w.threads[g].pc.s, a);
    }
  }

  lemma StepStaysDown(c: Settings, w: World, e: Event, m: string, i: nat, n: nat)
    requires ValidSettings(c) && !e.CallStop? && CanHappen(c, w, e) && WorldInv(c, w) && Down(w.core, m, i, n)
             && Undisputed(w, i)
    ensures var w' := Apply(c, w, e); Down(w'.core, m, i, n) && Undisputed(w', i)
  {
    if e.Go? {
      GoStaysDown(c, w, e.g, e.a, m, i, n);
    } else if e.Beside? {
      EnvStaysDown(w.core, e.e, m, i, n);
    }
  }

  predicate NoStop(es: seq<Event>)
  {
    forall j :: 0 <= j < |es| ==> !es[j].CallStop?
  }

  /** A pinned model whose process has died stays registered and is never routed to again, whatever happens
      next short of StopAll: the replacement a crash is meant to trigger is refused as a pinned conflict. */
  lemma {:induction false} CrashedPinnedStaysDown(c: Settings, now: int, es: seq<Event>, more: seq<Event>,
      m: string, i: nat)
    requires Sound(c, now) && Dead(Run(c, now, es).core, m, i) && Undisputed(Run(c, now, es), i) && NoStop(more)
    ensures Down(Run(c, now, es + more).core, m, i, |Run(c, now, es).core.routes|)
            && Undisputed(Run(c, now, es + more), i)
  {
    if more == [] {
      assert es + more == es;
    } else {
      var e := more[|more| - 1];
      var past := es + more[..|more| - 1];
      assert (es + more)[..|es + more| - 1] == past && (es + more)[|es + more| - 1] == e;
      CrashedPinnedStaysDown(c, now, es, more[..|more| - 1], m, i);
      if CanHappen(c, Run(c, now, past), e) {
        RunInv(c, now, past);
        StepStaysDown(c, Run(c, now, past), e, m, i, |Run(c, now, es).core.routes|);
      }
    }
  }
}
