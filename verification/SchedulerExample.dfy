/** Concrete runs from an empty scheduler: a pinned model that is served and crashes, and a start whose limits
    are refused. */
module SchedulerExample {
  import opened Wrappers
  import opened Config
  import opened Ports
  import opened Inflight
  import opened SchedulerCore
  import opened SchedulerRuns
  import opened SchedulerTheorems
  import opened SchedulerCrash
  import Power

  const PINNED := ModelConfig("org/m", "", [0], Some(1), Some(true), None, None, {})
  const ONE_PORT := Some(SchedulerConfig(8000, 8000, None, None))
  const SETUP := Settings(Config(map["m" := PINNED], ONE_PORT, {}), None)
  const EMPTY := Start(SETUP)

  const PLENTY := Listing(Some(map[0 := 1, 1 := 1]))

  /** A validated configuration with one port and a model m that asks for one megabyte on GPUs 0 and 1 at most. */
  ghost predicate Small(c: Settings)
  {
    && Sound(c, 1) && Canonical(c, "m") && c.config.scheduler == ONE_PORT
    && FloorOf(c, "m") == 1 && forall x :: x in Gpus(c, "m") ==> x == 0 || x == 1
  }

  function Start(c: Settings): Core
  {
    Init(c, 1).core
  }

  /** The one goroutine at pc. */
  function Sole(k: Core, permit: Option<nat>, pc: PC): World
  {
    World(k, permit, {}, [Thread("m", pc)])
  }

  function InSection(k: Core, s: Sec): World
  {
    Sole(k, Some(0), In(s))
  }

  lemma Extend(c: Settings, w: World, e: Event)
    requires Reachable(c, w) && CanHappen(c, w, e)
    ensures Reachable(c, Apply(c, w, e))
  {
    var now, es :| Sound(c, now) && w == Run(c, now, es);
    assert (es + [e])[..|es|] == es;
    assert Run(c, now, es + [e]) == Apply(c, w, e);
  }

  /** One step in the section. */
  lemma Walk(c: Settings, k: Core, s: Sec, a: Answer, k': Core, s': Sec)
    requires Reachable(c, InSection(k, s)) && Enabled(c, "m", k, s, a) && !s.Leave?
    requires SecStep(c, 0, "m", k, s, a) == (k', s')
    ensures Reachable(c, InSection(k', s'))
  {
    Extend(c, InSection(k, s), Go(0, a));
    assert Apply(c, InSection(k, s), Go(0, a)) == InSection(k', s');
  }

  // ----- from the call to a free port, for any small configuration -----

  lemma Arrives(c: Settings)
    requires Small(c)
    ensures Reachable(c, Sole(Start(c), None, Entered))
  {
    assert Run(c, 1, []) == Init(c, 1);
    Extend(c, Init(c, 1), Call("m"));
    assert Apply(c, Init(c, 1), Call("m")) == Sole(Start(c), None, Entered);
  }

  lemma TakesThePermit(c: Settings)
    requires Small(c)
    ensures Reachable(c, InSection(Start(c), Recheck))
  {
    Arrives(c);
    Extend(c, Sole(Start(c), None, Entered), Go(0, Yes));
    Extend(c, Sole(Start(c), None, Probing(1)), Go(0, Yes));
    Extend(c, Sole(Start(c), None, Wanting), Go(0, Yes));
  }

  lemma LooksAgain(c: Settings)
    requires Small(c)
    ensures Reachable(c, InSection(Start(c), Capacity))
  {
    hide Reachable;
    TakesThePermit(c);
    Walk(c, Start(c), Recheck, Yes, Start(c), Reprobe(1));
    Walk(c, Start(c), Reprobe(1), Yes, Start(c), Capacity);
  }

  lemma FindsTheGPUs(c: Settings)
    requires Small(c)
    ensures Reachable(c, InSection(Start(c), ScanClock))
  {
    hide Reachable;
    LooksAgain(c);
    assert Schedulable(c.config.models["m"]);
    Walk(c, Start(c), Capacity, Yes, Start(c), FindGPUs);
    Walk(c, Start(c), FindGPUs, PLENTY, Start(c), ScanClock);
  }

  lemma FindsNoConflict(c: Settings)
    requires Small(c)
    ensures Reachable(c, InSection(Start(c), Sort(1, [])))
  {
    hide Reachable;
    FindsTheGPUs(c);
    Walk(c, Start(c), ScanClock, Yes, Start(c), Scan(1));
    Walk(c, Start(c), Scan(1), Order([]), Start(c), Sort(1, []));
  }

  lemma NothingToSort(k: Core)
    ensures Sorts(k, [], []) && Keys(k, []) == []
  {
  }

  lemma SortsNobody(c: Settings)
    requires Small(c)
    ensures Reachable(c, InSection(Start(c), Evict(Eviction(1, [], [], 0))))
  {
    hide Reachable, Sorts, Keys;
    FindsNoConflict(c);
    NothingToSort(Start(c));
    Walk(c, Start(c), Sort(1, []), Order([]), Start(c), Evict(Eviction(1, [], [], 0)));
  }

  lemma EvictsNobody(c: Settings)
    requires Small(c)
    ensures Reachable(c, InSection(Start(c), Final))
  {
    hide Reachable;
    SortsNobody(c);
    Walk(c, Start(c), Evict(Eviction(1, [], [], 0)), Yes, Start(c), Final);
  }

  lemma HasMemory(c: Settings)
    requires Small(c)
    ensures Reachable(c, InSection(Start(c), TakePort))
  {
    hide Reachable;
    EvictsNobody(c);
    Walk(c, Start(c), Final, Yes, Start(c), Vram);
    Walk(c, Start(c), Vram, PLENTY, Start(c), TakePort);
  }

  lemma GetsAPort(c: Settings)
    requires Small(c)
    ensures var inst := FreshInst(c, "m", 8000);
            Reachable(c, InSection(Start(c).(insts := [inst], used := {8000}), ApplyPower(0)))
  {
    hide Reachable;
    HasMemory(c);
    var inst := FreshInst(c, "m", 8000);
    assert FirstFree(8000, 8000, {}) == Some(8000);
    assert [] + [inst] == [inst] && {} + {8000} == {8000};
    Walk(c, Start(c), TakePort, Yes, Start(c).(insts := [inst], used := {8000}), ApplyPower(0));
  }

  // ----- a pinned model is served and crashes -----

  lemma SetupIsSmall()
    ensures Small(SETUP)
  {
  }

  /** The model's instance on port 8000, at time 1. */
  function Instance(state: State, at: int, alive: bool, inflight: TrackerState): Inst
  {
    Inst("m", 8000, [0], true, false, at, at, state, alive, inflight, false, false)
  }

  function Launched(inst: Inst): Core
  {
    EMPTY.(insts := [inst], used := {8000})
  }

  lemma SetsNoLimits()
    ensures Reachable(SETUP, InSection(Launched(Instance(Starting, 0, false, FRESH)), Sec.Start(0)))
  {
    hide Reachable;
    SetupIsSmall();
    GetsAPort(SETUP);
    var k := Launched(Instance(Starting, 0, false, FRESH));
    assert k.insts == [FreshInst(SETUP, "m", 8000)];
    Walk(SETUP, k, ApplyPower(0), Yes, k, Sec.Start(0));
  }

  lemma Starts()
    ensures Reachable(SETUP, InSection(Launched(Instance(Starting, 0, true, FRESH)), Stamp(0)))
  {
    hide Reachable;
    SetsNoLimits();
    var i, i' := Instance(Starting, 0, false, FRESH), Instance(Starting, 0, true, FRESH);
    assert [i][0 := i'] == [i'];
    Walk(SETUP, Launched(i), Sec.Start(0), Yes, Launched(i'), Verify(0));
    Walk(SETUP, Launched(i'), Verify(0), Yes, Launched(i'), Stamp(0));
  }

  lemma IsReady()
    ensures Reachable(SETUP, InSection(Launched(Instance(Ready, 1, true, FRESH)), Register(0)))
  {
    hide Reachable;
    Starts();
    var i, i' := Instance(Starting, 0, true, FRESH), Instance(Ready, 1, true, FRESH);
    assert [i][0 := i'] == [i'];
    Walk(SETUP, Launched(i), Stamp(0), Yes, Launched(i'), Register(0));
  }

  /** Registered, and routed to once. */
  function Serving(alive: bool): Core
  {
    Launched(Instance(Ready, 1, alive, TrackerState(1, [], []))).(
      registry := map["m" := 0], routes := [Route(0, 0, true, false, false)], total := TrackerState(1, [], []))
  }

  function HalfCounted(): Core
  {
    Serving(true).(routes := [Route(0, 0, false, false, false)], total := FRESH)
  }

  lemma Registers()
    ensures Reachable(SETUP, InSection(HalfCounted(), TrackTotal(0)))
  {
    hide Reachable;
    IsReady();
    var k := Launched(Instance(Ready, 1, true, FRESH));
    var k' := k.(registry := map["m" := 0]);
    assert k.insts[0 := Serving(true).insts[0]] == Serving(true).insts
      && [] + HalfCounted().routes == HalfCounted().routes;
    Walk(SETUP, k, Register(0), Yes, k', TrackNew(0));
    Walk(SETUP, k', TrackNew(0), Yes, HalfCounted(), TrackTotal(0));
  }

  lemma Serves()
    ensures Reachable(SETUP, InSection(Serving(true), Leave(Routed(0))))
  {
    hide Reachable;
    Registers();
    assert HalfCounted().routes[0 := Serving(true).routes[0]] == Serving(true).routes;
    Walk(SETUP, HalfCounted(), TrackTotal(0), Yes, Serving(true), Leave(Routed(0)));
  }

  lemma Crashes()
    ensures Reachable(SETUP, Sole(Serving(false), None, PC.Finished(Routed(0))))
  {
    Serves();
    var w := Sole(Serving(true), None, PC.Finished(Routed(0)));
    Extend(SETUP, InSection(Serving(true), Leave(Routed(0))), Go(0, Yes));
    assert Apply(SETUP, InSection(Serving(true), Leave(Routed(0))), Go(0, Yes)) == w;
    Extend(SETUP, w, Beside(Crash(0)));
    assert Apply(SETUP, w, Beside(Crash(0))) == Sole(Serving(false), None, PC.Finished(Routed(0)));
  }

  /** From here CrashedPinnedStaysDown applies: the model is configured, was served, and is now out of reach. */
  lemma CrashedPinnedModelExists()
    ensures var w := Sole(Serving(false), None, PC.Finished(Routed(0)));
            Reachable(SETUP, w) && Dead(w.core, "m", 0) && Undisputed(w, 0)
  {
    Crashes();
  }

  // ----- a start whose limits are refused -----

  /** Two GPUs at 200 W; the model wants 300 W on both. */
  const HUNGRY := ModelConfig("org/m", "", [0, 1], Some(1), None, Some(300), None, {})
  const LIMITED := Settings(Config(map["m" := HUNGRY], ONE_PORT, {}),
    Some(PowerSettings(map[0 := 200, 1 := 200], true)))

  lemma LimitedIsSmall()
    ensures Small(LIMITED) && PowerLimitsOk(HUNGRY)
  {
  }

  function Refused(used: set<int>): Core
  {
    Start(LIMITED).(
      insts := [FreshInst(LIMITED, "m", 8000)], used := used, power := map[0 := 300, 1 := 200], powerClean := false)
  }

  lemma RefusesOneLimit()
    ensures Reachable(LIMITED, InSection(Refused({8000}), FreeFailed(0, false)))
  {
    hide Reachable;
    LimitedIsSmall();
    GetsAPort(LIMITED);
    var k := Start(LIMITED).(insts := [FreshInst(LIMITED, "m", 8000)], used := {8000});
    assert [0, 1][0] == 0 && [0, 1][1] == 1;
    assert Power.Attempted([0, 1], Some(300), None) == {0, 1};
    assert Power.Applied(k.power, [0, 1], Some(300), None, {1}) == map[0 := 300, 1 := 200];
    assert 1 in Power.Attempted([0, 1], Some(300), None) * {1};
    Walk(LIMITED, k, ApplyPower(0), Broken({1}), Refused({8000}), FreeFailed(0, false));
  }

  lemma GivesUp()
    ensures Reachable(LIMITED, InSection(Refused({}), Leave(Failure)))
  {
    hide Reachable;
    RefusesOneLimit();
    assert {8000} - {8000} == {};
    Walk(LIMITED, Refused({8000}), FreeFailed(0, false), Yes, Refused({}), Leave(Failure));
  }

  /** The call has failed, nobody schedules and nothing is registered, and GPU 0 is still at 300 W. */
  lemma RefusedLimitStays()
    ensures var w := Sole(Refused({}), None, PC.Finished(Failure));
            && Reachable(LIMITED, w) && PowerLimitsOk(HUNGRY) && w.permit == None && w.core.registry == map[]
            && w.core.power[0] == 300 && LIMITED.power.value.defaults[0] == 200
  {
    GivesUp();
    LimitedIsSmall();
    Extend(LIMITED, InSection(Refused({}), Leave(Failure)), Go(0, Yes));
    assert Apply(LIMITED, InSection(Refused({}), Leave(Failure)), Go(0, Yes)) ==
      Sole(Refused({}), None, PC.Finished(Failure));
  }
}
