/** The invariant of whole runs: the permit, the waiter table and the goroutines around the section. */
module SchedulerRunsInvariant {
  import opened Wrappers
  import opened Config
  import opened SchedulerCore
  import opened SchedulerInvariant
  import opened SchedulerEnv
  import opened SchedulerSection
  import opened SchedulerStep
  import opened SchedulerRuns

  predicate HasPermit(pc: PC)
  {
    pc.In? || pc.Granted?
  }

  predicate InWait(pc: PC)
  {
    pc.Waiting? || pc.Granted? || pc.Refused?
  }

  function HoldOf(w: World): Hold
  {
    if w.permit == None || w.permit.value >= |w.threads| then Nobody
    else
      var t := w.threads[w.permit.value];
      if t.pc.In? then Holds(t.m, t.pc.s) else Holds(t.m, Recheck)
  }

  /** One goroutine at most is in the scheduling section, and the channel is full exactly then. */
  ghost predicate PermitInv(w: World)
  {
    && (w.permit.Some? ==> w.permit.value < |w.threads|)
    && (forall g :: 0 <= g < |w.threads| ==> (HasPermit(w.threads[g].pc) <==> w.permit == Some(g)))
  }

  ghost predicate WaitsFor(w: World, g: nat, m: string)
  {
    g < |w.threads| && InWait(w.threads[g].pc) && w.threads[g].m == m
  }

  /** The waiter table lists exactly the models with a goroutine in the waiting phase, one each. */
  ghost predicate WaiterInv(w: World)
  {
    && (forall g: nat, m :: WaitsFor(w, g, m) ==> m in w.waiters)
    && (forall g: nat, g': nat, m :: WaitsFor(w, g, m) && WaitsFor(w, g', m) ==> g == g')
    && (forall m :: m in w.waiters ==> exists g: nat :: WaitsFor(w, g, m))
  }

  ghost predicate ThreadOk(c: Settings, k: Core, g: nat, t: Thread)
  {
    && (!t.pc.StopWanting? && !t.pc.In? && !t.pc.Finished? ==> Canonical(c, t.m))
    && (t.pc.Counting? ==>
          && t.pc.r < |k.routes| && !k.routes[t.pc.r].tracked && k.routes[t.pc.r].owner == g
          && k.routes[t.pc.r].inst < |k.insts| && k.insts[k.routes[t.pc.r].inst].model == t.m)
    && (t.pc.In? && t.pc.s.TrackTotal? ==> t.pc.s.r < |k.routes| && k.routes[t.pc.s.r].owner == g)
    && (t.pc.Refused? ==> t.pc.outcome == Rejected(WaitTimeout) || t.pc.outcome == Failure)
    && (t.pc.Finished? ==> LeaveFacts(c, k, t.m, t.pc.outcome))
  }

  ghost predicate ThreadsInv(c: Settings, w: World)
  {
    forall g :: 0 <= g < |w.threads| ==> ThreadOk(c, w.core, g, w.threads[g])
  }

  ghost predicate WorldInv(c: Settings, w: World)
  {
    PermitInv(w) && WaiterInv(w) && ThreadsInv(c, w) && CoreInv(c, w.core, HoldOf(w))
  }

  // ----- what other goroutines rely on -----

  /** Instances keep their model, routes keep their instance and owner, and only g counts its own routes. */
  ghost predicate Grows(k: Core, k': Core, g: nat)
  {
    && |k.insts| <= |k'.insts| && (forall i :: 0 <= i < |k.insts| ==> k'.insts[i].model == k.insts[i].model)
    && |k.routes| <= |k'.routes|
    && (forall r :: 0 <= r < |k.routes| ==>
          && k'.routes[r].inst == k.routes[r].inst && k'.routes[r].owner == k.routes[r].owner
          && (k.routes[r].tracked ==> k'.routes[r].tracked)
          && (k'.routes[r].tracked && !k.routes[r].tracked ==> k.routes[r].owner == g))
  }

  lemma ThreadCarries(c: Settings, k: Core, k': Core, g: nat, x: nat, t: Thread)
    requires ThreadOk(c, k, x, t) && Grows(k, k', g) && x != g
    ensures ThreadOk(c, k', x, t)
  {
  }

  lemma OthersCarry(c: Settings, w: World, w': World, g: nat)
    requires ThreadsInv(c, w) && Grows(w.core, w'.core, g) && |w'.threads| == |w.threads| && g < |w.threads|
    requires forall x :: 0 <= x < |w.threads| && x != g ==> w'.threads[x] == w.threads[x]
    requires ThreadOk(c, w'.core, g, w'.threads[g])
    ensures ThreadsInv(c, w')
  {
    forall x | 0 <= x < |w.threads| && x != g
      ensures ThreadOk(c, w'.core, x, w'.threads[x])
    {
      ThreadCarries(c, w.core, w'.core, g, x, w.threads[x]);
    }
  }

  // ----- waiters -----

  lemma WaitersSame(w: World, w': World, g: nat)
    requires WaiterInv(w) && w'.waiters == w.waiters && |w'.threads| == |w.threads| && g < |w.threads|
    requires forall x :: 0 <= x < |w.threads| ==> w'.threads[x].m == w.threads[x].m
    requires forall x :: 0 <= x < |w.threads| ==> (InWait(w'.threads[x].pc) <==> InWait(w.threads[x].pc))
    ensures WaiterInv(w')
  {
    assert forall x: nat, m :: WaitsFor(w', x, m) <==> WaitsFor(w, x, m);
  }

  lemma WaiterJoins(w: World, g: nat)
    requires WaiterInv(w) && g < |w.threads| && w.threads[g].pc.Contended? && w.threads[g].m !in w.waiters
    ensures WaiterInv(SetPC(w.(waiters := w.waiters + {w.threads[g].m}), g, Waiting))
  {
    var m0 := w.threads[g].m;
    var w' := SetPC(w.(waiters := w.waiters + {m0}), g, Waiting);
    assert forall x: nat, m :: WaitsFor(w', x, m) <==> WaitsFor(w, x, m) || (x == g && m == m0);
    forall m | m in w'.waiters
      ensures exists x: nat :: WaitsFor(w', x, m)
    {
      if m == m0 {
        assert WaitsFor(w', g, m);
      } else {
        var x: nat :| WaitsFor(w, x, m);
        assert WaitsFor(w', x, m);
      }
    }
  }

  lemma WaiterLeaves(w: World, g: nat, pc: PC)
    requires WaiterInv(w) && g < |w.threads| && InWait(w.threads[g].pc) && !InWait(pc)
    ensures WaiterInv(SetPC(w.(waiters := w.waiters - {w.threads[g].m}), g, pc))
  {
    var m0 := w.threads[g].m;
    var w' := SetPC(w.(waiters := w.waiters - {m0}), g, pc);
    assert WaitsFor(w, g, m0);
    assert forall x: nat, m :: WaitsFor(w', x, m) <==> WaitsFor(w, x, m) && x != g;
  }

  // ----- steps outside the section -----

  lemma HoldSame(w: World, w': World, g: nat)
    requires PermitInv(w) && w'.permit == w.permit && |w'.threads| == |w.threads| && w.permit != Some(g)
    requires forall x :: 0 <= x < |w.threads| && x != g ==> w'.threads[x] == w.threads[x]
    ensures HoldOf(w') == HoldOf(w)
  {
  }

  /** A step that moves one goroutine, not the permit holder, and leaves everything shared alone. */
  lemma LocalStep(c: Settings, w: World, g: nat, pc: PC)
    requires WorldInv(c, w) && g < |w.threads| && !HasPermit(w.threads[g].pc) && !HasPermit(pc)
    requires InWait(pc) <==> InWait(w.threads[g].pc)
    requires ThreadOk(c, w.core, g, w.threads[g].(pc := pc))
    ensures WorldInv(c, SetPC(w, g, pc))
  {
    hide BaseInv, SecInv;
    var w' := SetPC(w, g, pc);
    HoldSame(w, w', g);
    WaitersSame(w, w', g);
    OthersCarry(c, w, w', g);
  }

  lemma TouchGrows(k: Core, i: nat, t: int, g: nat)
    requires i < |k.insts|
    ensures Grows(k, TouchAndTrack(k, i, t, g), g)
  {
  }

  lemma ProbeHits(c: Settings, w: World, g: nat, i: nat)
    requires WorldInv(c, w) && g < |w.threads| && w.threads[g].pc.Probing?
             && ReadyInst(w.core, w.threads[g].m) == Some(i)
    ensures WorldInv(c, SetPC(w.(core := TouchAndTrack(w.core, i, w.threads[g].pc.t, g)), g, Counting(|w.core.routes|)))
  {
    hide PortInv, CountInv, DrainInv, PowerInv, CapInv, SecFacts;
    var t := w.threads[g].pc.t;
    var w' := SetPC(w.(core := TouchAndTrack(w.core, i, t, g)), g, Counting(|w.core.routes|));
    HoldSame(w, w', g);
    WaitersSame(w, w', g);
    TouchGrows(w.core, i, t, g);
    OthersCarry(c, w, w', g);
    EnvKeepsInv(c, w.core, HoldOf(w), Touch(w.threads[g].m, t, g));
  }

  lemma CountStep(c: Settings, w: World, g: nat, r: nat)
    requires WorldInv(c, w) && g < |w.threads| && w.threads[g].pc == Counting(r)
    ensures r < |w.core.routes|
    ensures WorldInv(c, SetPC(w.(core := AddTotal(w.core, r)), g, Finished(Routed(r))))
  {
    hide BaseInv, SecInv;
    assert ThreadOk(c, w.core, g, w.threads[g]);
    var w' := SetPC(w.(core := AddTotal(w.core, r)), g, Finished(Routed(r)));
    HoldSame(w, w', g);
    WaitersSame(w, w', g);
    OthersCarry(c, w, w', g);
    var h := HoldOf(w);
    if h.Holds? && h.s.TrackTotal? {
      assert ThreadOk(c, w.core, w.permit.value, w.threads[w.permit.value]);
    }
    EnvKeepsInv(c, w.core, h, CountTotal(r));
  }

  lemma PermitTaken(c: Settings, w: World, g: nat, pc: PC, h: Hold)
    requires WorldInv(c, w) && g < |w.threads| && w.permit == None && HasPermit(pc)
    requires InWait(pc) <==> InWait(w.threads[g].pc)
    requires ThreadOk(c, w.core, g, w.threads[g].(pc := pc))
    requires h == HoldOf(SetPC(w.(permit := Some(g)), g, pc)) && Plain(h) && SecInv(c, w.core, h)
    ensures WorldInv(c, SetPC(w.(permit := Some(g)), g, pc))
  {
    hide BaseInv, SecInv;
    var w' := SetPC(w.(permit := Some(g)), g, pc);
    WaitersSame(w, w', g);
    OthersCarry(c, w, w', g);
    PlainStep(c, w.core, Nobody, h);
  }

  lemma JoinStep(c: Settings, w: World, g: nat)
    requires WorldInv(c, w) && g < |w.threads| && w.threads[g].pc.Contended? && w.threads[g].m !in w.waiters
    ensures WorldInv(c, SetPC(w.(waiters := w.waiters + {w.threads[g].m}), g, Waiting))
  {
    hide BaseInv, SecInv;
    var w' := SetPC(w.(waiters := w.waiters + {w.threads[g].m}), g, Waiting);
    HoldSame(w, w', g);
    WaiterJoins(w, g);
    assert ThreadOk(c, w.core, g, w.threads[g]);
    OthersCarry(c, w, w', g);
  }

  lemma GrantedStep(c: Settings, w: World, g: nat)
    requires WorldInv(c, w) && g < |w.threads| && w.threads[g].pc.Granted?
    ensures WorldInv(c, SetPC(w.(waiters := w.waiters - {w.threads[g].m}), g, In(Recheck)))
  {
    hide BaseInv, SecInv;
    var w' := SetPC(w.(waiters := w.waiters - {w.threads[g].m}), g, In(Recheck));
    WaiterLeaves(w, g, In(Recheck));
    OthersCarry(c, w, w', g);
    assert HoldOf(w') == HoldOf(w);
  }

  lemma RefusedStep(c: Settings, w: World, g: nat, o: Outcome)
    requires WorldInv(c, w) && g < |w.threads| && w.threads[g].pc == Refused(o)
    ensures WorldInv(c, SetPC(w.(waiters := w.waiters - {w.threads[g].m}), g, Finished(o)))
  {
    hide BaseInv, SecInv;
    var w' := SetPC(w.(waiters := w.waiters - {w.threads[g].m}), g, Finished(o));
    HoldSame(w, w', g);
    WaiterLeaves(w, g, Finished(o));
    assert ThreadOk(c, w.core, g, w.threads[g]);
    OthersCarry(c, w, w', g);
  }

  lemma RouteSteps(c: Settings, w: World, g: nat, a: Answer)
    requires WorldInv(c, w) && CanGo(c, w, g, a)
    requires w.threads[g].pc.Counting? || (w.threads[g].pc.Probing? && ReadyInst(w.core, w.threads[g].m).Some?)
    ensures WorldInv(c, OuterStep(c, w, g, a))
  {
    if w.threads[g].pc.Counting? {
      CountStep(c, w, g, w.threads[g].pc.r);
    } else {
      ProbeHits(c, w, g, ReadyInst(w.core, w.threads[g].m).value);
    }
  }

  /** The step puts the token into the permit channel. */
  predicate TakesPermit(w: World, g: nat, a: Answer)
    requires g < |w.threads|
  {
    var pc := w.threads[g].pc;
    (pc.Wanting? && w.permit == None) || (pc.Waiting? && a.Yes?) || pc.StopWanting?
  }

  /** The first step under the permit knows nothing yet. */
  lemma NothingKnown(c: Settings, k: Core, m: string, s: Sec)
    requires s.Recheck? || s.StopScan?
    requires s.Recheck? ==> Canonical(c, m)
    ensures Plain(Holds(m, s)) && SecInv(c, k, Holds(m, s))
  {
  }

  lemma PermitSteps(c: Settings, w: World, g: nat, a: Answer)
    requires WorldInv(c, w) && CanGo(c, w, g, a) && TakesPermit(w, g, a)
    ensures WorldInv(c, OuterStep(c, w, g, a))
  {
    hide BaseInv, SecInv;
    assert ThreadOk(c, w.core, g, w.threads[g]);
    var pc := if w.threads[g].pc.Waiting? then Granted else if w.threads[g].pc.StopWanting? then In(StopScan)
      else In(Recheck);
    NothingKnown(c, w.core, w.threads[g].m, if pc.Granted? then Recheck else pc.s);
    PermitTaken(c, w, g, pc, Holds(w.threads[g].m, if pc.Granted? then Recheck else pc.s));
  }

  /** The step changes the waiter table. */
  predicate MovesWaiter(w: World, g: nat)
    requires g < |w.threads|
  {
    var pc := w.threads[g].pc;
    (pc.Contended? && w.threads[g].m !in w.waiters) || pc.Granted? || pc.Refused?
  }

  lemma WaiterSteps(c: Settings, w: World, g: nat, a: Answer)
    requires WorldInv(c, w) && CanGo(c, w, g, a) && MovesWaiter(w, g)
    ensures WorldInv(c, OuterStep(c, w, g, a))
  {
    if w.threads[g].pc.Contended? {
      JoinStep(c, w, g);
    } else if w.threads[g].pc.Granted? {
      GrantedStep(c, w, g);
    } else {
      RefusedStep(c, w, g, w.threads[g].pc.outcome);
    }
  }

  lemma OuterKeepsInv(c: Settings, w: World, g: nat, a: Answer)
    requires WorldInv(c, w) && CanGo(c, w, g, a) && !w.threads[g].pc.In?
    ensures WorldInv(c, OuterStep(c, w, g, a))
  {
    hide BaseInv, SecInv;
    var pc := w.threads[g].pc;
    if pc.Counting? || (pc.Probing? && ReadyInst(w.core, w.threads[g].m).Some?) {
      RouteSteps(c, w, g, a);
    } else if TakesPermit(w, g, a) {
      PermitSteps(c, w, g, a);
    } else if MovesWaiter(w, g) {
      WaiterSteps(c, w, g, a);
    } else {
      assert ThreadOk(c, w.core, g, w.threads[g]);
      LocalStep(c, w, g, OuterStep(c, w, g, a).threads[g].pc);
    }
  }

  // ----- steps inside the section -----

  lemma ReleaseStep(c: Settings, w: World, g: nat, o: Outcome)
    requires WorldInv(c, w) && g < |w.threads| && w.threads[g].pc == In(Leave(o))
    ensures WorldInv(c, SetPC(w.(permit := None), g, Finished(o)))
  {
    hide BaseInv;
    var w' := SetPC(w.(permit := None), g, Finished(o));
    WaitersSame(w, w', g);
    OthersCarry(c, w, w', g);
    PlainStep(c, w.core, HoldOf(w), Nobody);
  }

  lemma LaunchGrows(c: Settings, g: nat, m: string, k: Core, s: Sec, a: Answer)
    requires Enabled(c, m, k, s, a) && Launches(s)
    ensures Grows(k, LaunchStep(c, m, k, s, a).0, g)
  {
  }

  lemma DrainGrows(c: Settings, g: nat, k: Core, i: nat, phase: Drain, ret: Ret, a: Answer)
    requires i < |k.insts|
    ensures Grows(k, DrainStep(c, k, i, phase, ret, a).0, g)
  {
  }

  lemma ReprobeGrows(g: nat, m: string, k: Core, t: int)
    ensures Grows(k, ReprobeStep(g, m, k, t).0, g)
  {
  }

  lemma PlainGrows(c: Settings, g: nat, m: string, k: Core, s: Sec, a: Answer)
    requires Enabled(c, m, k, s, a) && !s.Leave? && !Looks(s) && !Launches(s) && !s.Draining? && !s.Reprobe?
    requires s.TrackTotal? ==> k.routes[s.r].owner == g
    ensures Grows(k, SecStep(c, g, m, k, s, a).0, g)
  {
  }

  lemma SectionGrows(c: Settings, g: nat, m: string, k: Core, s: Sec, a: Answer)
    requires Enabled(c, m, k, s, a) && !s.Leave? && (s.TrackTotal? ==> k.routes[s.r].owner == g)
    ensures Grows(k, SecStep(c, g, m, k, s, a).0, g)
  {
    if Launches(s) {
      LaunchGrows(c, g, m, k, s, a);
    } else if s.Draining? {
      DrainGrows(c, g, k, s.i, s.phase, s.ret, a);
    } else if s.Reprobe? {
      ReprobeGrows(g, m, k, s.t);
    } else if !Looks(s) {
      PlainGrows(c, g, m, k, s, a);
    }
  }

  lemma DrainMakesNoRoute(c: Settings, k: Core, i: nat, phase: Drain, ret: Ret, a: Answer)
    requires i < |k.insts|
    ensures !DrainStep(c, k, i, phase, ret, a).1.TrackTotal?
  {
  }

  lemma LookMakesNoRoute(c: Settings, m: string, k: Core, s: Sec, a: Answer)
    requires Enabled(c, m, k, s, a) && Looks(s)
    ensures !LookStep(c, m, k, s, a).TrackTotal?
  {
  }

  /** A route the section is about to count belongs to the goroutine that runs it. */
  lemma OwnRoute(c: Settings, g: nat, m: string, k: Core, s: Sec, a: Answer)
    requires Enabled(c, m, k, s, a) && !s.Leave?
    ensures var r := SecStep(c, g, m, k, s, a); r.1.TrackTotal? ==> r.1.r < |r.0.routes| && r.0.routes[r.1.r].owner == g
  {
    if Looks(s) {
      LookMakesNoRoute(c, m, k, s, a);
    } else if s.Draining? {
      DrainMakesNoRoute(c, k, s.i, s.phase, s.ret, a);
    }
  }

  lemma SectionStep(c: Settings, w: World, g: nat, a: Answer)
    requires ValidSettings(c) && WorldInv(c, w) && CanGo(c, w, g, a) && w.threads[g].pc.In? && !w.threads[g].pc.s.Leave?
    ensures WorldInv(c, InnerStep(c, w, g, a))
  {
    hide BaseInv, SecInv;
    var m, s := w.threads[g].m, w.threads[g].pc.s;
    var w' := InnerStep(c, w, g, a);
    assert ThreadOk(c, w.core, g, w.threads[g]);
    assert HoldOf(w) == Holds(m, s);
    SectionKeepsInv(c, g, m, w.core, s, a);
    SectionGrows(c, g, m, w.core, s, a);
    OwnRoute(c, g, m, w.core, s, a);
    OthersCarry(c, w, w', g);
    WaitersSame(w, w', g);
  }

  // ----- arrivals and the environment -----

  lemma ArrivalKeepsInv(c: Settings, w: World, t: Thread)
    requires WorldInv(c, w) && ThreadOk(c, w.core, |w.threads|, t) && !HasPermit(t.pc) && !InWait(t.pc)
    ensures WorldInv(c, w.(threads := w.threads + [t]))
  {
    hide BaseInv, SecInv;
    var w' := w.(threads := w.threads + [t]);
    assert HoldOf(w') == HoldOf(w);
    assert forall x: nat, m :: WaitsFor(w', x, m) <==> WaitsFor(w, x, m);
    forall x | 0 <= x < |w'.threads|
      ensures ThreadOk(c, w'.core, x, w'.threads[x])
    {
      assert x < |w.threads| ==> ThreadOk(c, w.core, x, w.threads[x]);
    }
  }

  lemma BesideKeepsInv(c: Settings, w: World, e: Env)
    requires WorldInv(c, w) && EnvEnabled(w.core, e) && !e.Touch? && !e.CountTotal?
    ensures WorldInv(c, w.(core := EnvStep(w.core, e)))
  {
    hide BaseInv, SecInv;
    var w' := w.(core := EnvStep(w.core, e));
    EnvKeepsInv(c, w.core, HoldOf(w), e);
    EnvShape(w.core, e);
    forall x | 0 <= x < |w'.threads|
      ensures ThreadOk(c, w'.core, x, w'.threads[x])
    {
      assert ThreadOk(c, w.core, x, w.threads[x]);
    }
    assert forall x: nat, m :: WaitsFor(w', x, m) <==> WaitsFor(w, x, m);
  }

  lemma CallKeepsInv(c: Settings, w: World, requested: string)
    requires WorldInv(c, w) && AliasesOk(c.config.models)
    ensures WorldInv(c, Apply(c, w, Call(requested)))
  {
    AliasesOkIffResolved(c.config.models);
    ArrivalKeepsInv(c, w, Apply(c, w, Call(requested)).threads[|w.threads|]);
  }

  lemma ApplyKeepsInv(c: Settings, w: World, e: Event)
    requires ValidSettings(c) && AliasesOk(c.config.models) && WorldInv(c, w) && CanHappen(c, w, e)
    ensures WorldInv(c, Apply(c, w, e))
  {
    if e.Call? {
      CallKeepsInv(c, w, e.requested);
    } else if e.CallStop? {
      ArrivalKeepsInv(c, w, Thread("", StopWanting));
    } else if e.Beside? {
      BesideKeepsInv(c, w, e.e);
    } else if !w.threads[e.g].pc.In? {
      OuterKeepsInv(c, w, e.g, e.a);
    } else if w.threads[e.g].pc.s.Leave? {
      ReleaseStep(c, w, e.g, w.threads[e.g].pc.s.outcome);
    } else {
      SectionStep(c, w, e.g, e.a);
    }
  }

  lemma InitInv(c: Settings, now: int)
    requires ValidSettings(c) && now > 0
    ensures WorldInv(c, Init(c, now))
  {
  }

  /** Every reachable state of the scheduler satisfies the invariant. */
  lemma {:induction false} RunInv(c: Settings, now: int, es: seq<Event>)
    requires ValidSettings(c) && AliasesOk(c.config.models) && now > 0
    ensures WorldInv(c, Run(c, now, es))
  {
    if es == [] {
      InitInv(c, now);
    } else {
      RunInv(c, now, es[..|es| - 1]);
      var w := Run(c, now, es[..|es| - 1]);
      if CanHappen(c, w, es[|es| - 1]) {
        ApplyKeepsInv(c, w, es[|es| - 1]);
      }
    }
  }
}
