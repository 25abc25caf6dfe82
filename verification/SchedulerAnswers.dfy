/** When the scheduler's decisions go which way, in terms of the registry, the configuration and what a call
    was told: each of them in both directions. */
module SchedulerAnswers {
  import opened Wrappers
  import opened Config
  import opened Inflight
  import opened SchedulerCore
  import opened SchedulerInvariant
  import opened SchedulerRuns
  import opened SchedulerRunsInvariant
  import opened SchedulerTheorems
  import opened SchedulerFates

  // ----- routing -----

  /** The model's registered instance is not draining and its process lives. */
  predicate HasLive(k: Core, m: string)
  {
    && m in k.registry && k.registry[m] < |k.insts|
    && !k.insts[k.registry[m]].draining && k.insts[k.registry[m]].alive
  }

  /** A registered instance that is not draining is ready, so looking at its state adds nothing. */
  lemma ReadyIsLive(c: Settings, w: World, m: string)
    requires Reachable(c, w)
    ensures ReadyInst(w.core, m) == if HasLive(w.core, m) then Some(w.core.registry[m]) else None
  {
    ReachableInv(c, w);
    if m in w.core.registry {
      assert DrainOk(w.core, HoldOf(w), w.core.registry[m]);
    }
  }

  /** The time a goroutine looks for a ready instance with, on the fast path or under the permit. */
  function LooksWith(pc: PC): Option<int>
  {
    if pc.Probing? then Some(pc.t)
    else if pc.In? && pc.s.Reprobe? then Some(pc.s.t)
    else None
  }

  /** A request is now in flight at instance i, which it has used at time t. */
  predicate RoutedTo(k: Core, k': Core, i: nat, t: int, g: nat)
  {
    && i < |k.insts| == |k'.insts| && k'.routes == k.routes + [Route(i, g, false, false, false)]
    && k'.insts[i].inflight.count == k.insts[i].inflight.count + 1 && k'.insts[i].lastUsedAt == t
    && (forall j :: 0 <= j < |k.insts| && j != i ==> k'.insts[j] == k.insts[j])
  }

  /** A look routes to the model's instance exactly if that is registered, not draining and alive, however
      many requests it has; otherwise nothing changes. */
  lemma LookRoutes(c: Settings, w: World, g: nat, a: Answer)
    requires Reachable(c, w) && CanGo(c, w, g, a) && LooksWith(w.threads[g].pc).Some?
    ensures var m, w' := w.threads[g].m, Apply(c, w, Go(g, a));
            && (|w'.core.routes| > |w.core.routes| <==> HasLive(w.core, m))
            && (HasLive(w.core, m) ==>
                  RoutedTo(w.core, w'.core, w.core.registry[m], LooksWith(w.threads[g].pc).value, g))
            && (!HasLive(w.core, m) ==>
                  w'.core == w.core && w'.threads[g].pc == if w.threads[g].pc.In? then In(Capacity) else Wanting)
  {
    hide Reachable;
    ReadyIsLive(c, w, w.threads[g].m);
  }

  // ----- waiting for the permit -----

  /** A request finds the permit taken and is turned away at once exactly if another one already waits for the
      same model. */
  lemma BusyMeansWaiter(c: Settings, w: World, g: nat, a: Answer)
    requires Reachable(c, w) && CanGo(c, w, g, a) && w.threads[g].pc.Contended?
    ensures var m, w' := w.threads[g].m, Apply(c, w, Go(g, a));
            && (w'.threads[g].pc == Finished(Rejected(Busy)) <==> exists g': nat :: g' != g && WaitsFor(w, g', m))
            && (w'.threads[g].pc != Finished(Rejected(Busy)) ==> w'.threads[g].pc == Waiting && WaitsFor(w', g, m))
  {
    WaitersExact(c, w, w.threads[g].m);
    if g': nat :| WaitsFor(w, g', w.threads[g].m) {
      assert g' != g;
    }
  }

  // ----- the cap -----

  lemma LookMoves(c: Settings, w: World, g: nat, a: Answer)
    requires CanGo(c, w, g, a) && w.threads[g].pc.In? && Looks(w.threads[g].pc.s)
    ensures Enabled(c, w.threads[g].m, w.core, w.threads[g].pc.s, a)
    ensures Apply(c, w, Go(g, a)).threads[g].pc == In(LookStep(c, w.threads[g].m, w.core, w.threads[g].pc.s, a))
  {
  }

  /** A validated model has GPUs and a memory requirement. */
  lemma SchedulesModel(c: Settings, w: World, g: nat)
    requires Reachable(c, w) && g < |w.threads| && w.threads[g].pc.In? && Scheduling(w.threads[g].pc.s)
    ensures var m := w.threads[g].m;
            c.config.scheduler.Some? && m in c.config.models && Gpus(c, m) != [] && c.config.models[m].minFreeMB.Some?
  {
    SectionFactsHold(c, w, g);
    ReachableInv(c, w);
    assert Schedulable(c.config.models[w.threads[g].m]);
  }

  /** The capacity check lets a model pass exactly if, its own entry apart, fewer than max_instances instances
      are registered. */
  lemma CapacityAnswers(c: Settings, w: World, g: nat, a: Answer)
    requires Reachable(c, w) && CanGo(c, w, g, a) && w.threads[g].pc == In(Capacity)
    ensures c.config.scheduler.Some?
    ensures var max, others := c.config.scheduler.value.maxInstances, |w.core.registry.Keys - {w.threads[g].m}|;
            Apply(c, w, Go(g, a)).threads[g].pc ==
            if max.None? || others < max.value then In(FindGPUs) else In(Leave(Rejected(NoCapacity)))
  {
    hide Reachable, Apply;
    SchedulesModel(c, w, g);
    LookMoves(c, w, g, a);
  }

  // ----- evicting -----

  lemma EvictMoves(c: Settings, w: World, g: nat, a: Answer, ev: Eviction)
    requires CanGo(c, w, g, a) && w.threads[g].pc == In(Evict(ev))
    ensures InBounds(w.core, ev.order)
    ensures Apply(c, w, Go(g, a)).threads[g].pc == In(EvictStep(c, w.core, Gpus(c, w.threads[g].m), ev).1)
  {
  }

  lemma NextVictim(c: Settings, w: World, g: nat, ev: Eviction)
    requires Reachable(c, w) && g < |w.threads| && w.threads[g].pc == In(Evict(ev)) && ev.k < |ev.order|
    ensures ev.order[ev.k] < |w.core.insts|
    ensures var inst := w.core.insts[ev.order[ev.k]];
            inst.startedAt > 0 && Overlaps(inst.gpus, Gpus(c, w.threads[g].m))
  {
    SectionFactsHold(c, w, g);
    DrainsHold(c, w, ev.order[ev.k]);
  }

  lemma DrainsHold(c: Settings, w: World, i: nat)
    requires Reachable(c, w) && i < |w.core.insts|
    ensures DrainOk(w.core, HoldOf(w), i)
  {
    ReachableInv(c, w);
  }

  /** The next conflict is refused exactly if, when the clock was read, it had been up for less than the
      configured minimum, or 30 seconds if none is configured. */
  lemma AgeAnswers(c: Settings, w: World, g: nat, a: Answer, ev: Eviction)
    requires Reachable(c, w) && CanGo(c, w, g, a) && w.threads[g].pc == In(Evict(ev)) && ev.k < |ev.order|
    ensures c.config.scheduler.Some? && ev.order[ev.k] < |w.core.insts|
    ensures var i := ev.order[ev.k];
            var least := match c.config.scheduler.value.minUptime case Some(t) => t case None => 30;
            Apply(c, w, Go(g, a)).threads[g].pc ==
            if ev.t - w.core.insts[i].startedAt >= least then In(Draining(i, Check, AfterEvict(ev)))
            else In(Leave(Rejected(MinUptime)))
  {
    hide Reachable, Apply;
    SchedulesModel(c, w, g);
    NextVictim(c, w, g, ev);
    EvictMoves(c, w, g, a, ev);
  }

  /** An eviction takes nothing down but an instance that holds a GPU the model needs. */
  lemma OnlySharersEvicted(c: Settings, w: World, g: nat, i: nat, phase: Drain, ev: Eviction)
    requires Reachable(c, w) && g < |w.threads| && w.threads[g].pc == In(Draining(i, phase, AfterEvict(ev)))
    ensures i < |w.core.insts| && w.threads[g].m in c.config.models
    ensures exists x :: x in w.core.insts[i].gpus && x in c.config.models[w.threads[g].m].gpus
  {
    hide Reachable;
    SectionFactsHold(c, w, g);
  }

  // ----- free memory -----

  /** Steps after the memory check. */
  predicate PastMemory(s: Sec)
  {
    s.TakePort? || Launches(s) || s.Register? || s.TrackNew?
  }

  /** At event j goroutine g was told of enough free memory on each GPU of its model. */
  ghost predicate ToldOfRoom(c: Settings, now: int, es: seq<Event>, j: nat, g: nat, m: string)
  {
    && j < |es| && Stands(Run(c, now, es[..j]), g, m, Vram) && es[j].Go? && es[j].g == g
    && es[j].a.Listing? && es[j].a.inv.Some? && m in c.config.models && c.config.models[m].minFreeMB.Some?
    && forall x :: x in c.config.models[m].gpus ==>
         x in es[j].a.inv.value && es[j].a.inv.value[x] >= c.config.models[m].minFreeMB.value
  }

  ghost predicate LaunchFrom(c: Settings, m: string, s: Sec, a: Answer)
  {
    || PastMemory(s) || (s.Draining? && s.ret.AfterReplace?)
    || (s.Vram? && MemoryRefusal(InventoryOf(a), Gpus(c, m), FloorOf(c, m)) == None)
  }

  lemma LookIntoLaunch(c: Settings, m: string, k: Core, s: Sec, a: Answer)
    requires Enabled(c, m, k, s, a) && Looks(s) && PastMemory(LookStep(c, m, k, s, a))
    ensures LaunchFrom(c, m, s, a)
  {
    hide MemoryRefusal;
  }

  lemma SectionIntoLaunch(c: Settings, g: nat, m: string, k: Core, s: Sec, a: Answer)
    requires Enabled(c, m, k, s, a) && !s.Leave? && PastMemory(SecStep(c, g, m, k, s, a).1)
    ensures LaunchFrom(c, m, s, a)
  {
    hide MemoryRefusal, LookStep, Enabled;
    if Looks(s) {
      LookIntoLaunch(c, m, k, s, a);
    }
  }

  lemma IntoLaunch(c: Settings, w: World, g: nat, a: Answer, m: string, s': Sec) returns (s: Sec)
    requires CanGo(c, w, g, a) && Stands(Apply(c, w, Go(g, a)), g, m, s') && PastMemory(s')
    ensures Stands(w, g, m, s) && LaunchFrom(c, m, s, a)
  {
    hide SecStep, Enabled, LaunchFrom;
    assert w.threads[g].pc.In?;
    s := w.threads[g].pc.s;
    assert Enabled(c, m, w.core, s, a);
    SectionIntoLaunch(c, g, m, w.core, s, a);
  }

  lemma RoomTold(c: Settings, now: int, es: seq<Event>, i: nat, a: Answer, g: nat, m: string, s: Sec)
    requires Sound(c, now) && i < |es| && es[i] == Go(g, a) && Stands(Run(c, now, es[..i]), g, m, s)
    requires s.Vram? && LaunchFrom(c, m, s, a)
    ensures ToldOfRoom(c, now, es, i, g, m)
  {
    hide Run, Reachable;
    IsReachable(c, now, es[..i]);
    HasFloor(c, Run(c, now, es[..i]), g, m);
  }

  lemma StillTold(c: Settings, now: int, es: seq<Event>, i: nat, j: nat, g: nat, m: string)
    requires i <= |es| && ToldOfRoom(c, now, es[..i], j, g, m)
    ensures ToldOfRoom(c, now, es, j, g, m)
  {
    assert es[..i][..j] == es[..j];
  }

  lemma NeverReplaces(c: Settings, now: int, es: seq<Event>, g: nat, m: string, s: Sec)
    requires Sound(c, now) && Stands(Run(c, now, es), g, m, s)
    ensures !(s.Draining? && s.ret.AfterReplace?)
  {
    IsReachable(c, now, es);
    DeadExits(c, Run(c, now, es), g);
  }

  /** A process is started, or a port taken for it, only after the inventory has shown the model's minimum free
      on all of its GPUs. */
  lemma {:induction false} StartsWithRoom(c: Settings, now: int, es: seq<Event>, g: nat, m: string, s: Sec)
      returns (j: nat)
    requires Sound(c, now) && Stands(Run(c, now, es), g, m, s) && PastMemory(s)
    ensures ToldOfRoom(c, now, es, j, g, m)
    decreases |es|
  {
    hide Run, Apply, Stands, ToldOfRoom, MemoryRefusal;
    var i, a := LastMove(c, now, es, g, m, s);
    var s' := IntoLaunch(c, Run(c, now, es[..i]), g, a, m, s);
    NeverReplaces(c, now, es[..i], g, m, s');
    if s'.Vram? {
      RoomTold(c, now, es, i, a, g, m, s');
      j := i;
    } else {
      j := StartsWithRoom(c, now, es[..i], g, m, s');
      StillTold(c, now, es, i, j, g, m);
    }
  }

  lemma IsReachable(c: Settings, now: int, es: seq<Event>)
    requires Sound(c, now)
    ensures Reachable(c, Run(c, now, es))
  {
  }

  lemma HasFloor(c: Settings, w: World, g: nat, m: string)
    requires Reachable(c, w) && Stands(w, g, m, Vram)
    ensures m in c.config.models && c.config.models[m].minFreeMB.Some?
  {
    SchedulesModel(c, w, g);
  }
}
