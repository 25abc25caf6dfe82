/**
 The Scheduler of internal/jukebox/scheduler.go as code: AcquireRoute, StopAll and the methods under them.
 Between two atomic blocks anything the other goroutines can do may happen (Others).  Every block is shown
 to be a step of SchedulerRuns, so the object's state is always that of some run, and what is proved of
 runs holds of it.  Outcomes of processes, timers and nvidia-smi are chosen arbitrarily (`:= *`).
 */
module Scheduler {
  import opened Wrappers
  import opened Config
  import opened Ports
  import opened Inflight
  import opened SchedulerCore
  import opened SchedulerInvariant
  import opened SchedulerLaunch
  import opened SchedulerOrder
  import opened SchedulerRuns
  import opened SchedulerRunsInvariant
  import opened SchedulerTheorems
  import opened SchedulerFates
  import opened SchedulerCrash
  import opened SchedulerAnswers
  import Power
  import Sets

  /** What a call meets outside: the inventory as listed before evicting and after it, the GPUs whose limits
      nvidia-smi refuses to set, and whether the process starts and passes its check. */
  datatype Outside = Outside(
    found: Option<map<int, int>>, free: Option<map<int, int>>, refused: set<int>, starts: bool, verifies: bool)

  /** What a goroutine must wait for, or be handed, before its next step. */
  predicate Allowed(c: Settings, w: World, g: nat, a: Answer)
    requires g < |w.threads|
  {
    var pc := w.threads[g].pc;
    && !pc.Finished?
    && (pc.Waiting? && a.Yes? ==> w.permit == None)
    && (pc.StopWanting? ==> w.permit == None)
    && (pc.In? && pc.s.Scan? ==> a.Order? && Lists(w.core, Gpus(c, w.threads[g].m), a.order))
    && (pc.In? && pc.s.Sort? ==> a.Order? && Sorts(w.core, pc.s.found, a.order))
    && (pc.In? && pc.s.StopScan? ==> a.Order? && Enumerates(w.core, a.order))
    && (pc.In? && pc.s.Draining? && pc.s.phase.Wait? && a.Yes? ==>
          pc.s.i < |w.core.insts| && pc.s.phase.ch in w.core.insts[pc.s.i].inflight.closed)
  }

  lemma AllowedCanGo(c: Settings, w: World, g: nat, a: Answer)
    requires Reachable(c, w) && g < |w.threads| && Allowed(c, w, g, a)
    ensures CanGo(c, w, g, a)
  {
    if w.threads[g].pc.In? {
      SectionFactsHold(c, w, g);
    } else {
      ReachableInv(c, w);
      assert ThreadOk(c, w.core, g, w.threads[g]);
    }
  }

  /** An instance without a port has nothing to give back. */
  function Freed(used: set<int>, port: int): set<int>
  {
    if port == 0 then used else used - {port}
  }

  lemma RegistryPoints(c: Settings, w: World)
    requires Reachable(c, w)
    ensures var k := w.core; forall m :: m in k.registry ==>
            k.registry[m] < |k.insts| && k.insts[k.registry[m]].model == m
  {
    ReachableInv(c, w);
  }

  lemma OthersLeaveMe(c: Settings, w: World, e: Event, g: nat)
    requires CanHappen(c, w, e) && g < |w.threads| && !(e.Go? && e.g == g)
    ensures |w.threads| <= |Apply(c, w, e).threads| && Apply(c, w, e).threads[g] == w.threads[g]
  {
  }

  ghost predicate Prefix(es: seq<Event>, es': seq<Event>)
  {
    es <= es'
  }

  lemma PrefixMeans(es: seq<Event>)
    ensures Prefix(es, es)
    ensures forall es' :: Prefix(es, es') ==> es <= es'
  {
  }

  lemma RunOneMore(c: Settings, now: int, es: seq<Event>, e: Event)
    requires CanHappen(c, Run(c, now, es), e)
    ensures Run(c, now, es + [e]) == Apply(c, Run(c, now, es), e)
  {
    assert (es + [e])[..|es|] == es;
  }

  // ----- Apply, unfolded for each kind of step, so that the methods below can hide it -----

  lemma LookApplies(c: Settings, w: World, g: nat, a: Answer)
    requires CanGo(c, w, g, a) && w.threads[g].pc.In? && Looks(w.threads[g].pc.s)
    ensures Enabled(c, w.threads[g].m, w.core, w.threads[g].pc.s, a)
    ensures Apply(c, w, Go(g, a)) == SetPC(w, g, In(LookStep(c, w.threads[g].m, w.core, w.threads[g].pc.s, a)))
  {
  }

  lemma DrainApplies(c: Settings, w: World, g: nat, i: nat, phase: Drain, ret: Ret, a: Answer)
    requires CanGo(c, w, g, a) && w.threads[g].pc == In(Draining(i, phase, ret))
    ensures i < |w.core.insts|
    ensures var r := DrainStep(c, w.core, i, phase, ret, a);
            Apply(c, w, Go(g, a)) == SetPC(w.(core := r.0), g, In(r.1))
  {
  }

  lemma EvictApplies(c: Settings, w: World, g: nat, ev: Eviction)
    requires CanGo(c, w, g, Yes) && w.threads[g].pc == In(Evict(ev))
    ensures InBounds(w.core, ev.order)
    ensures var r := EvictStep(c, w.core, Gpus(c, w.threads[g].m), ev);
            Apply(c, w, Go(g, Yes)) == SetPC(w.(core := r.0), g, In(r.1))
  {
  }

  lemma StopLoopApplies(c: Settings, w: World, g: nat, all: seq<nat>, k: nat)
    requires CanGo(c, w, g, Yes) && w.threads[g].pc == In(StopLoop(all, k))
    ensures InBounds(w.core, all)
    ensures var r := StopLoopStep(w.core, all, k);
            Apply(c, w, Go(g, Yes)) == SetPC(w.(core := r.0), g, In(r.1))
  {
  }

  lemma LaunchApplies(c: Settings, w: World, g: nat, a: Answer)
    requires CanGo(c, w, g, a) && w.threads[g].pc.In? && Launches(w.threads[g].pc.s)
    ensures w.threads[g].m in c.config.models && SecInBounds(w.core, w.threads[g].pc.s)
    ensures var r := LaunchStep(c, w.threads[g].m, w.core, w.threads[g].pc.s, a);
            Apply(c, w, Go(g, a)) == SetPC(w.(core := r.0), g, In(r.1))
  {
  }

  lemma PortApplies(c: Settings, w: World, g: nat)
    requires CanGo(c, w, g, Yes) && w.threads[g].pc == In(TakePort)
    ensures w.threads[g].m in c.config.models
    ensures var r := TakePortStep(c, w.core, w.threads[g].m);
            Apply(c, w, Go(g, Yes)) == SetPC(w.(core := r.0), g, In(r.1))
  {
  }

  lemma RegisterApplies(c: Settings, w: World, g: nat, i: nat)
    requires CanGo(c, w, g, Yes) && w.threads[g].pc == In(Register(i)) && w.threads[g].m !in w.core.registry
    ensures Apply(c, w, Go(g, Yes)) ==
            SetPC(w.(core := w.core.(registry := w.core.registry[w.threads[g].m := i])), g, In(TrackNew(i)))
  {
  }

  lemma TrackNewApplies(c: Settings, w: World, g: nat, i: nat)
    requires CanGo(c, w, g, Yes) && w.threads[g].pc == In(TrackNew(i))
    ensures i < |w.core.insts|
    ensures Apply(c, w, Go(g, Yes)) == SetPC(w.(core := TrackInst(w.core, i, g)), g, In(TrackTotal(|w.core.routes|)))
  {
  }

  lemma ReleaseApplies(c: Settings, w: World, g: nat, o: Outcome)
    requires CanGo(c, w, g, Yes) && w.threads[g].pc == In(Leave(o))
    ensures Apply(c, w, Go(g, Yes)) == SetPC(w.(permit := None), g, PC.Finished(o))
  {
  }

  lemma CallApplies(c: Settings, w: World, requested: string)
    ensures Apply(c, w, Call(requested)) ==
            w.(threads := w.threads + [match ResolveModel(c.config.models, requested)
                                       case Ok(r) => Thread(r.0, Entered)
                                       case Err(_) => Thread(requested, PC.Finished(Failure))])
    ensures Apply(c, w, CallStop) == w.(threads := w.threads + [Thread("", StopWanting)])
  {
  }

  lemma ProbingApplies(c: Settings, w: World, g: nat, inside: bool)
    requires CanGo(c, w, g, Yes) && w.threads[g].pc == if inside then In(Recheck) else Entered
    ensures Apply(c, w, Go(g, Yes)) == SetPC(w, g, if inside then In(Reprobe(w.core.now)) else Probing(w.core.now))
  {
  }

  lemma ProbeApplies(c: Settings, w: World, g: nat, t: int, inside: bool)
    requires CanGo(c, w, g, Yes) && w.threads[g].pc == if inside then In(Reprobe(t)) else Probing(t)
    ensures var ready := ReadyInst(w.core, w.threads[g].m);
            Apply(c, w, Go(g, Yes)) ==
            if ready.None? then SetPC(w, g, if inside then In(Capacity) else Wanting)
            else SetPC(w.(core := TouchAndTrack(w.core, ready.value, t, g)), g,
                       if inside then In(TrackTotal(|w.core.routes|)) else Counting(|w.core.routes|))
  {
  }

  lemma CountApplies(c: Settings, w: World, g: nat, r: nat, inside: bool)
    requires CanGo(c, w, g, Yes) && w.threads[g].pc == if inside then In(TrackTotal(r)) else Counting(r)
    ensures r < |w.core.routes|
    ensures Apply(c, w, Go(g, Yes)) ==
            SetPC(w.(core := AddTotal(w.core, r)), g, if inside then In(Leave(Routed(r))) else Finished(Routed(r)))
  {
  }

  lemma OuterApplies(c: Settings, w: World, g: nat, a: Answer)
    requires CanGo(c, w, g, a) && !w.threads[g].pc.In?
    ensures Apply(c, w, Go(g, a)) == OuterStep(c, w, g, a)
  {
  }

  // ----- what evictConflicts is told by the invariant -----

  /** At the head of its loop and after a drain: the first n conflicts are gone, the rest still stand. */
  ghost predicate Halfway(c: Settings, k: Core, target: seq<int>, ev: Eviction, n: nat)
  {
    && InBounds(k, ev.order) && NoRepeats(ev.order) && n <= |ev.order|
    && (forall j :: 0 <= j < |ev.order| ==> !k.insts[ev.order[j]].pinned && Overlaps(k.insts[ev.order[j]].gpus, target))
    && (forall j :: 0 <= j < n ==> ev.t - k.insts[ev.order[j]].startedAt >= MinUptimeOf(c))
    && (forall j :: n <= j < |ev.order| ==> Registered(k, ev.order[j]))
  }

  lemma HalfwayThere(c: Settings, w: World, g: nat)
    requires Reachable(c, w) && g < |w.threads| && w.threads[g].pc.In?
    requires w.threads[g].pc.s.Evict? || w.threads[g].pc.s.Still?
    ensures var s := w.threads[g].pc.s;
            Halfway(c, w.core, Gpus(c, w.threads[g].m), s.ev, if s.Evict? then s.ev.k else s.ev.k + 1)
  {
    SectionFactsHold(c, w, g);
  }

  lemma GPUsFreed(c: Settings, w: World, g: nat)
    requires Reachable(c, w) && g < |w.threads| && w.threads[g].pc.In?
    requires GPUsFree(w.threads[g].pc.s)
    ensures !SomeConflict(w.core, Gpus(c, w.threads[g].m)) && w.threads[g].m !in w.core.registry
  {
    SectionFactsHold(c, w, g);
    OwnNameFree(c, w.core, w.threads[g].m);
  }

  /** From the state `scan` to the state k exactly the first n instances of the order have been evicted. */
  ghost predicate EvictedExactly(scan: Core, k: Core, order: seq<nat>, n: nat)
  {
    && n <= |order| && InBounds(k, order) && AllSame(scan.insts, k.insts)
    && (forall i: nat :: Registered(k, i) <==> Registered(scan, i) && i !in order[..n])
    && (forall j :: 0 <= j < n ==> k.insts[order[j]].stopped)
  }

  /** Neither pinned nor, at time t, too young to be evicted. */
  predicate Evictable(c: Settings, k: Core, t: int, i: nat)
    requires i < |k.insts|
  {
    !k.insts[i].pinned && t - k.insts[i].startedAt >= MinUptimeOf(c)
  }

  lemma AllEvictable(c: Settings, scan: Core, k: Core, target: seq<int>, ev: Eviction, n: nat)
    requires Lists(scan, target, ev.order) && EvictedExactly(scan, k, ev.order, n)
    requires forall j :: 0 <= j < |ev.order| ==> ev.order[j] < |k.insts| && Evictable(c, k, ev.t, ev.order[j])
    ensures forall i: nat :: Conflict(scan, target, i) ==> Evictable(c, scan, ev.t, i)
  {
    forall i: nat | Conflict(scan, target, i)
      ensures Evictable(c, scan, ev.t, i)
    {
      assert i in ev.order;
      var j :| 0 <= j < |ev.order| && ev.order[j] == i;
      assert Evictable(c, k, ev.t, ev.order[j]);
    }
  }

  lemma NotEvictable(c: Settings, scan: Core, k: Core, target: seq<int>, ev: Eviction, n: nat)
    requires Lists(scan, target, ev.order) && EvictedExactly(scan, k, ev.order, n) && n < |ev.order|
    requires ev.order[n] < |k.insts| && !Evictable(c, k, ev.t, ev.order[n])
    ensures Conflict(scan, target, ev.order[n]) && !Evictable(c, scan, ev.t, ev.order[n])
  {
    assert ev.order[n] in ev.order;
  }

  /** The model can be scheduled at all: it has a memory requirement. */
  predicate Fit(c: Settings, m: string)
  {
    m in c.config.models && c.config.models[m].minFreeMB.Some?
  }

  lemma FitIs(c: Settings, m: string)
    ensures Fit(c, m) <==> m in c.config.models && c.config.models[m].minFreeMB.Some?
  {
  }

  /** Fewer instances of other models than max_instances are registered. */
  predicate HasPlace(c: Settings, k: Core, m: string)
  {
    c.config.scheduler.Some? && c.config.scheduler.value.maxInstances.Some? ==>
      |k.registry.Keys - {m}| < c.config.scheduler.value.maxInstances.value
  }

  /** The inventory has all of the model's GPUs. */
  predicate Listed(c: Settings, m: string, inv: Option<map<int, int>>)
  {
    inv.Some? && forall x :: x in Gpus(c, m) ==> x in inv.value
  }

  /** The model's minimum is free on each of its GPUs. */
  predicate Roomy(c: Settings, m: string, inv: Option<map<int, int>>)
    requires Fit(c, m)
  {
    inv.Some? && forall x :: x in Gpus(c, m) ==> HasRoom(inv.value, x, c.config.models[m].minFreeMB.value)
  }

  /** The limits the model asks for are set, or a refusal of some of them does not matter. */
  predicate LimitsAccepted(c: Settings, m: string, refused: set<int>)
  {
    m in c.config.models && c.power.Some? && c.power.value.required ==>
      forall x :: x in Gpus(c, m) && x in refused ==>
        Power.Override(c.config.models[m].powerLimit, c.config.models[m].powerLimits, x).None?
  }

  lemma AcceptedUnlessAttempted(c: Settings, m: string, refused: set<int>)
    requires m in c.config.models
    ensures var mc := c.config.models[m];
            LimitsAccepted(c, m, refused) <==>
            c.power.None? || !c.power.value.required
            || Power.Attempted(mc.gpus, mc.powerLimit, mc.powerLimits) * refused == {}
  {
    var mc := c.config.models[m];
    var tried := Power.Attempted(mc.gpus, mc.powerLimit, mc.powerLimits) * refused;
    if tried != {} {
      var x :| x in tried;
      assert x in Gpus(c, m);
    }
    if x :| x in Gpus(c, m) && x in refused && Power.Override(mc.powerLimit, mc.powerLimits, x).Some? {
      assert x in tried;
    }
  }

  /** Every instance in the way of the target may be evicted at time t. */
  ghost predicate Clear(c: Settings, k: Core, target: seq<int>, t: int)
  {
    forall i: nat :: Conflict(k, target, i) ==> Evictable(c, k, t, i)
  }

  /** The models whose instances keep off the target. */
  function Spared(k: Core, target: seq<int>): set<string>
  {
    set m | m in k.registry && !Conflict(k, target, k.registry[m])
  }

  ghost predicate Points(k: Core)
  {
    forall m :: m in k.registry ==> k.registry[m] < |k.insts| && k.insts[k.registry[m]].model == m
  }

  lemma SameConflict(k: Core, k': Core, target: seq<int>, i: nat)
    requires k'.registry == k.registry && AllSame(k.insts, k'.insts) && Points(k)
    ensures Conflict(k', target, i) <==> Conflict(k, target, i)
    ensures Conflict(k, target, i) ==> i < |k.insts| && Same(k.insts[i], k'.insts[i])
  {
    if Registered(k', i) {
      assert Registered(k, i) && Same(k.insts[i], k'.insts[i]);
    }
  }

  /** As long as the registry stays as it is, so do the conflicts and whether they may be evicted. */
  lemma SameConflicts(c: Settings, k: Core, k': Core, target: seq<int>, t: int)
    requires k'.registry == k.registry && AllSame(k.insts, k'.insts) && Points(k)
    ensures Clear(c, k, target, t) <==> Clear(c, k', target, t)
    ensures PinnedAmong(k, target) <==> PinnedAmong(k', target)
    ensures Spared(k, target) == Spared(k', target)
  {
    forall i: nat
      ensures Conflict(k', target, i) <==> Conflict(k, target, i)
      ensures Conflict(k, target, i) ==> i < |k.insts| && Same(k.insts[i], k'.insts[i])
    {
      SameConflict(k, k', target, i);
    }
  }

  /** Once all conflicts have been evicted, the models left are those that were spared. */
  lemma SparedAreLeft(scan: Core, k: Core, target: seq<int>, order: seq<nat>)
    requires Lists(scan, target, order) && EvictedExactly(scan, k, order, |order|) && Points(scan) && Points(k)
    ensures k.registry.Keys == Spared(scan, target)
  {
    assert order[..|order|] == order;
    forall m
      ensures m in k.registry <==> m in Spared(scan, target)
    {
      if m in k.registry {
        assert Registered(k, k.registry[m]);
        assert Same(scan.insts[k.registry[m]], k.insts[k.registry[m]]);
      }
      if m in Spared(scan, target) {
        assert Registered(scan, scan.registry[m]);
        assert Same(scan.insts[scan.registry[m]], k.insts[scan.registry[m]]);
      }
    }
  }

  /** At that step a port is free exactly if there are fewer instances than ports. */
  lemma PortIfFewer(c: Settings, w: World, g: nat)
    requires Reachable(c, w) && g < |w.threads| && w.threads[g].pc == In(TakePort)
    ensures c.config.scheduler.Some?
    ensures var lo, hi := c.config.scheduler.value.portStart, c.config.scheduler.value.portEnd;
            (exists p :: lo <= p <= hi && p !in w.core.used) <==> |w.core.registry| <= hi - lo
  {
    PortsCounted(c, w, g);
    var lo, hi := c.config.scheduler.value.portStart, c.config.scheduler.value.portEnd;
    if |w.core.registry| <= hi - lo {
      FreePortExists(lo, hi, w.core.used);
    } else if p :| lo <= p <= hi && p !in w.core.used {
      Sets.SubsetSize(w.core.used, Range(lo, hi) - {p});
      assert false;
    }
  }

  lemma PortsCounted(c: Settings, w: World, g: nat)
    requires Reachable(c, w) && g < |w.threads| && w.threads[g].pc == In(TakePort)
    ensures c.config.scheduler.Some? && c.config.scheduler.value.portStart <= c.config.scheduler.value.portEnd + 1
    ensures |w.core.used| == |w.core.registry|
    ensures forall p :: p in w.core.used ==>
              c.config.scheduler.value.portStart <= p <= c.config.scheduler.value.portEnd
  {
    hide CountInv, DrainInv, PowerInv, CapInv, WaiterInv, ThreadsInv, SecInv;
    ReachableInv(c, w);
    assert HoldOf(w) == Holds(w.threads[g].m, TakePort);
    UsedCount(c, w.core, HoldOf(w));
    forall p | p in w.core.used
      ensures c.config.scheduler.value.portStart <= p <= c.config.scheduler.value.portEnd
    {
      PortsConserved(c, w, p);
    }
  }

  /** For a model with an entry, all conflicts can be evicted if its entry can. */
  lemma OwnEntryOnly(c: Settings, w: World, scan: Core, m: string, t: int)
    requires Reachable(c, w) && m in w.core.registry && scan.registry == w.core.registry
             && AllSame(w.core.insts, scan.insts)
    ensures w.core.registry[m] < |w.core.insts|
    ensures PinnedAmong(scan, Gpus(c, m)) <==> w.core.insts[w.core.registry[m]].pinned
    ensures (forall i: nat :: Conflict(scan, Gpus(c, m), i) ==> Evictable(c, scan, t, i)) <==>
            Evictable(c, w.core, t, w.core.registry[m])
  {
    RegistryPoints(c, w);
    OwnEntryConflicts(c, w, m);
    forall i: nat
      ensures Conflict(scan, Gpus(c, m), i) <==> i == w.core.registry[m]
    {
      if Registered(scan, i) {
        assert Registered(w.core, i) && Same(w.core.insts[i], scan.insts[i]);
      }
      assert Conflict(scan, Gpus(c, m), i) <==> Conflict(w.core, Gpus(c, m), i);
    }
    var own := w.core.registry[m];
    assert Conflict(scan, Gpus(c, m), own) && Same(w.core.insts[own], scan.insts[own]);
  }

  lemma PinnedNotEvictable(c: Settings, k: Core, target: seq<int>, t: int)
    requires PinnedAmong(k, target)
    ensures exists i: nat :: Conflict(k, target, i) && !Evictable(c, k, t, i)
  {
    var i :| 0 <= i < |k.insts| && Conflict(k, target, i) && k.insts[i].pinned;
    assert !Evictable(c, k, t, i);
  }

  lemma ListsInBounds(k: Core, target: seq<int>, order: seq<nat>)
    requires Lists(k, target, order)
    ensures InBounds(k, order)
  {
  }

  lemma ListFacts(scan: Core, k: Core, target: seq<int>, found: seq<nat>)
    requires Lists(scan, target, found) && EvictedExactly(scan, k, found, 0)
    ensures NoRepeats(found) && AllSame(scan.insts, k.insts)
  {
  }

  lemma SortsMeans(k: Core, found: seq<nat>, order: seq<nat>)
    requires Sorts(k, found, order)
    ensures InBounds(k, order) && SortedByUse(k, order)
  {
  }

  lemma FoundExist(c: Settings, w: World, g: nat)
    requires Reachable(c, w) && g < |w.threads| && w.threads[g].pc.In? && w.threads[g].pc.s.Sort?
    ensures InBounds(w.core, w.threads[g].pc.s.found)
  {
    SectionFactsHold(c, w, g);
  }

  /** What is known of the list found holds of it sorted. */
  lemma SortKeepsList(scan: Core, k: Core, k': Core, target: seq<int>, found: seq<nat>, order: seq<nat>)
    requires Lists(scan, target, found) && EvictedExactly(scan, k, found, 0) && Sorts(k, found, order)
    requires k'.registry == k.registry && AllSame(k.insts, k'.insts)
             && (forall m :: m in k.registry ==> k.registry[m] < |k.insts|)
    ensures Lists(scan, target, order) && EvictedExactly(scan, k', order, 0)
  {
    forall j | 0 <= j < |order|
      ensures order[j] < |scan.insts|
    {
      assert order[j] in found;
    }
  }

  lemma EvictedNone(scan: Core, k: Core, order: seq<nat>)
    requires InBounds(scan, order) && k.registry == scan.registry && AllSame(scan.insts, k.insts)
    requires forall m :: m in scan.registry ==> scan.registry[m] < |scan.insts|
    ensures EvictedExactly(scan, k, order, 0)
  {
  }

  lemma EvictedStill(scan: Core, k: Core, k': Core, order: seq<nat>, n: nat)
    requires EvictedExactly(scan, k, order, n) && k'.registry == k.registry && AllSame(k.insts, k'.insts)
    requires forall m :: m in k.registry ==> k.registry[m] < |k.insts|
    ensures EvictedExactly(scan, k', order, n)
  {
  }

  /** One more eviction: the registry loses the entry of the next instance of the order. */
  lemma EvictedOneMore(scan: Core, k: Core, k': Core, target: seq<int>, order: seq<nat>, n: nat)
    requires Lists(scan, target, order) && EvictedExactly(scan, k, order, n) && n < |order|
    requires AllSame(k.insts, k'.insts) && k'.registry == k.registry - {k'.insts[order[n]].model}
             && k'.insts[order[n]].stopped
    requires forall m :: m in k.registry ==> k.registry[m] < |k.insts| && k.insts[k.registry[m]].model == m
    ensures EvictedExactly(scan, k', order, n + 1)
  {
    assert order[..n + 1] == order[..n] + [order[n]];
    assert order[n] in order && order[n] !in order[..n];
    assert Registered(k, order[n]);
  }

  lemma CountOthers(registry: map<string, nat>, m: string)
    ensures |registry.Keys - {m}| == |registry| - if m in registry then 1 else 0
  {
    assert |registry.Keys| == |registry|;
    if m !in registry {
      assert registry.Keys - {m} == registry.Keys;
    }
  }

  /** A validated model has GPUs and a memory requirement. */
  lemma AlwaysSchedulable(c: Settings, w: World, g: nat)
    requires Reachable(c, w) && g < |w.threads| && w.threads[g].pc.In?
    requires Scheduling(w.threads[g].pc.s)
    ensures var m := w.threads[g].m; m in c.config.models && Gpus(c, m) != [] && c.config.models[m].minFreeMB.Some?
  {
    SectionFactsHold(c, w, g);
  }

  lemma NoneLeft(c: Settings, k: Core, h: Hold, all: seq<nat>)
    requires InstsInv(c, k) && PortInv(c, k, h) && HandOf(h) == None && Remaining(k, all, |all|, None)
    ensures k.registry == map[] && k.used == {}
  {
    if m :| m in k.registry {
      assert Registered(k, k.registry[m]);
      assert false;
    }
    assert forall i: nat :: !Registered(k, i);
    assert forall p :: !PortOwned(k, h, p);
    assert forall p :: p !in k.used;
  }

  /** StopAll's loop is through: no instance and no port is left. */
  lemma AllGone(c: Settings, w: World, g: nat, all: seq<nat>)
    requires Reachable(c, w) && g < |w.threads| && w.threads[g].pc == In(StopLoop(all, |all|))
    ensures var k := w.core; k.registry == map[] && k.used == {}
  {
    hide CountInv, DrainInv, PowerInv, CapInv, WaiterInv, ThreadsInv;
    ReachableInv(c, w);
    assert HoldOf(w) == Holds(w.threads[g].m, StopLoop(all, |all|));
    NoneLeft(c, w.core, HoldOf(w), all);
  }

  lemma StillThere(c: Settings, w: World, g: nat)
    requires Reachable(c, w) && g < |w.threads| && w.threads[g].pc.In?
    requires w.threads[g].pc.s.StopLoop?
    ensures InBounds(w.core, w.threads[g].pc.s.all)
  {
    SectionFactsHold(c, w, g);
  }

  /** What is left of a call that has returned. */
  lemma Returned(c: Settings, w: World, g: nat)
    requires Reachable(c, w) && g < |w.threads| && w.threads[g].pc.Finished?
    ensures w.permit != Some(g) && LeaveFacts(c, w.core, w.threads[g].m, w.threads[g].pc.outcome)
  {
    ReachableInv(c, w);
    assert ThreadOk(c, w.core, g, w.threads[g]);
  }

  // ----- loops that only look -----

  method HaveOverlap(a: seq<int>, b: seq<int>) returns (r: bool)
    ensures r <==> exists x :: x in a && x in b
  {
    if |a| == 0 || |b| == 0 {
      return false;
    }
    var seen: set<int> := {};
    for i := 0 to |a|
      invariant forall x :: x in seen <==> x in a[..i]
    {
      seen := seen + {a[i]};
      assert a[..i + 1] == a[..i] + [a[i]];
    }
    assert a[..|a|] == a;
    for i := 0 to |b|
      invariant forall y :: y in b[..i] ==> y !in a
    {
      var y := b[i];
      assert y in b;
      if y in seen {
        return true;
      }
      assert b[..i + 1] == b[..i] + [y];
    }
    assert b[..|b|] == b;
    return false;
  }

  /** ensureGPUsExist, for an inventory of free megabytes by GPU or a listing that failed. */
  method EnsureGPUsExist(inv: Option<map<int, int>>, gpuIDs: seq<int>) returns (ok: bool)
    ensures ok <==> inv.Some? && forall g :: g in gpuIDs ==> g in inv.value
  {
    if inv.None? {
      return false;
    }
    for i := 0 to |gpuIDs|
      invariant forall g :: g in gpuIDs[..i] ==> g in inv.value
    {
      var id := gpuIDs[i];
      assert id in gpuIDs;
      if id !in inv.value {
        return false;
      }
      assert gpuIDs[..i + 1] == gpuIDs[..i] + [id];
    }
    assert gpuIDs[..|gpuIDs|] == gpuIDs;
    return true;
  }

  /** Some GPU of the list has too little memory, and all before it have enough. */
  ghost predicate RunsLow(inv: map<int, int>, gpus: seq<int>, minFreeMB: int)
  {
    exists n :: 0 <= n < |gpus| && gpus[n] in inv && inv[gpus[n]] < minFreeMB
                && forall j :: 0 <= j < n ==> HasRoom(inv, gpus[j], minFreeMB)
  }

  /** The first GPU without enough memory decides: a rejection if it is listed, a failure if it is not. */
  method EnsureFreeVRAM(inv: Option<map<int, int>>, gpuIDs: seq<int>, minFreeMB: int) returns (err: Option<Outcome>)
    ensures err == MemoryRefusal(inv, gpuIDs, minFreeMB)
    ensures err.None? <==> inv.Some? && forall g :: g in gpuIDs ==> HasRoom(inv.value, g, minFreeMB)
    ensures err.Some? ==> err.value == Rejected(LowMemory) || err.value == Failure
    ensures err == Some(Rejected(LowMemory)) <==> inv.Some? && RunsLow(inv.value, gpuIDs, minFreeMB)
  {
    if inv.None? {
      return Some(Failure);
    }
    for i := 0 to |gpuIDs|
      invariant forall j :: 0 <= j < i ==> HasRoom(inv.value, gpuIDs[j], minFreeMB)
      invariant MemoryRefusal(inv, gpuIDs, minFreeMB) == MemoryRefusal(inv, gpuIDs[i..], minFreeMB)
    {
      assert gpuIDs[i] in gpuIDs;
      if gpuIDs[i] !in inv.value {
        return Some(Failure);
      }
      if inv.value[gpuIDs[i]] < minFreeMB {
        return Some(Rejected(LowMemory));
      }
    }
    return None;
  }

  class Scheduler {
    const cfg: Settings
    const ports: Pool
    const powerMgr: Power.Manager
    var now: int
    var insts: seq<Inst>
    var instances: map<string, nat>
    var powerClean: bool
    var total: TrackerState
    var routes: seq<Route>
    var nextChan: nat
    var sched: Option<nat>
    var waiters: set<string>
    var threads: seq<Thread>
    ghost var epoch: int
    ghost var trace: seq<Event>

    /** NewSchedulerWithFactory, for a validated configuration whose default limits have been applied. */
    constructor (cfg: Settings, ports: Pool, powerMgr: Power.Manager, now: int)
      requires Sound(cfg, now) && ports.used == {}
      requires ports.start == cfg.config.scheduler.value.portStart && ports.end == cfg.config.scheduler.value.portEnd
      requires powerMgr.current == if cfg.power.Some? then cfg.power.value.defaults else map[]
      requires cfg.power.Some? ==>
                 powerMgr.defaults == cfg.power.value.defaults && powerMgr.required == cfg.power.value.required
      ensures Valid() && this.cfg == cfg && this.ports == ports && this.powerMgr == powerMgr
      ensures Snapshot() == Init(cfg, now) && trace == []
    {
      this.cfg, this.ports, this.powerMgr, this.now := cfg, ports, powerMgr, now;
      insts, instances, powerClean, total, routes, nextChan := [], map[], true, FRESH, [], 0;
      sched, waiters, threads := None, {}, [];
      epoch, trace := now, [];
    }

    function Snapshot(): World
      reads this, ports, powerMgr
    {
      World(Core(now, insts, instances, ports.used, powerMgr.current, powerClean, total, routes, nextChan), sched,
        waiters, threads)
    }

    /** The pool and the power manager are those of the configuration. */
    predicate Wired()
    {
      && cfg.config.scheduler.Some?
      && ports.start == cfg.config.scheduler.value.portStart && ports.end == cfg.config.scheduler.value.portEnd
      && (cfg.power.Some? ==>
            powerMgr.defaults == cfg.power.value.defaults && powerMgr.required == cfg.power.value.required)
    }

    ghost predicate Valid()
      reads this, ports, powerMgr
    {
      Wired() && Sound(cfg, epoch) && Snapshot() == Run(cfg, epoch, trace)
    }

    /** The registry's entries exist and sit under their own names. */
    ghost predicate Indexed()
      reads this
    {
      forall m :: m in instances ==> instances[m] < |insts| && insts[instances[m]].model == m
    }

    /** Goroutine g stands at pc, and can take any step it need not wait for. */
    ghost predicate At(g: nat, pc: PC)
      reads this, ports, powerMgr
    {
      && Valid() && Reachable(cfg, Snapshot()) && g < |threads| && threads[g].pc == pc
      && Indexed()
      && (forall a :: Allowed(cfg, Snapshot(), g, a) ==> CanGo(cfg, Snapshot(), g, a))
    }

    /** The run went on; goroutine g is still about the same model. */
    twostate predicate Later(g: nat)
      requires g < old(|threads|)
      reads this
    {
      && epoch == old(epoch) && (forall es :: Prefix(es, old(trace)) ==> Prefix(es, trace))
      && |old(threads)| <= |threads| && threads[g].m == old(threads[g].m)
    }

    /** Registry, ports and limits are as they were, and no instance has become another one. */
    twostate predicate Undisturbed()
      reads this, ports, powerMgr
    {
      && instances == old(instances) && ports.used == old(ports.used) && powerMgr.current == old(powerMgr.current)
      && AllSame(old(insts), insts)
    }

    method BecomeInsts(k: Core)
      modifies this`now, this`insts, this`instances, this`powerClean, this`total
      ensures now == k.now && insts == k.insts && instances == k.registry && powerClean == k.powerClean
              && total == k.total
    {
      now, insts, instances, powerClean, total := k.now, k.insts, k.registry, k.powerClean, k.total;
    }

    method Become(w: World)
      modifies this, ports, powerMgr
      ensures Snapshot() == w && epoch == old(epoch) && trace == old(trace)
    {
      BecomeInsts(w.core);
      routes, nextChan, ports.used, powerMgr.current := w.core.routes, w.core.nextChan, w.core.used, w.core.power;
      sched, waiters, threads := w.permit, w.waiters, w.threads;
    }

    /** One thing another goroutine does. */
    method Other(g: nat, e: Event)
      requires Valid() && g < |threads| && CanHappen(cfg, Snapshot(), e) && !(e.Go? && e.g == g)
      modifies this, ports, powerMgr
      ensures Valid() && Later(g) && threads[g] == old(threads[g])
      ensures HasPermit(threads[g].pc) ==> Undisturbed()
    {
      hide Run, Apply, Sound;
      RunOneMore(cfg, epoch, trace, e);
      OthersLeaveMe(cfg, Snapshot(), e, g);
      if HasPermit(threads[g].pc) {
        HolderUndisturbed(cfg, Snapshot(), e, g);
      }
      Become(Apply(cfg, Snapshot(), e));
      trace := trace + [e];
    }

    /** The other goroutines, the clock, crashes and finished requests, for as long as they like. */
    method Others(g: nat)
      requires Valid() && g < |threads|
      modifies this, ports, powerMgr
      ensures At(g, old(threads[g].pc)) && Later(g)
      ensures HasPermit(threads[g].pc) ==> Undisturbed()
    {
      var es: seq<Event> := *;
      for i := 0 to |es|
        invariant Valid() && Later(g) && threads[g] == old(threads[g])
        invariant HasPermit(threads[g].pc) ==> Undisturbed()
      {
        if CanHappen(cfg, Snapshot(), es[i]) && !(es[i].Go? && es[i].g == g) {
          Other(g, es[i]);
        }
      }
      RegistryPoints(cfg, Snapshot());
      forall a | Allowed(cfg, Snapshot(), g, a)
        ensures CanGo(cfg, Snapshot(), g, a)
      {
        AllowedCanGo(cfg, Snapshot(), g, a);
      }
    }

    /** The end of an atomic block that began in state w: goroutine g has taken the step a of a run. */
    method Step(g: nat, ghost a: Answer, pc: PC, ghost w: World)
      requires Wired() && Sound(cfg, epoch) && w == Run(cfg, epoch, trace) && CanGo(cfg, w, g, a)
      requires g < |threads| && SetPC(Snapshot(), g, pc) == Apply(cfg, w, Go(g, a))
      modifies this, ports, powerMgr
      ensures At(g, pc) && Later(g)
      ensures HasPermit(pc) ==> Undisturbed()
    {
      RunOneMore(cfg, epoch, trace, Go(g, a));
      threads := threads[g := threads[g].(pc := pc)];
      trace := trace + [Go(g, a)];
      Others(g);
    }

    /** Ends the block that began in state w by counting a request to instance i, then counts it in the total. */
    method RouteForInstance(g: nat, i: nat, inside: bool, ghost w: World) returns (r: nat)
      requires Wired() && Sound(cfg, epoch) && w == Run(cfg, epoch, trace) && CanGo(cfg, w, g, Yes)
      requires g < |threads| && i < |insts|
      requires SetPC(Snapshot().(core := TrackInst(Snapshot().core, i, g)), g,
                     if inside then In(TrackTotal(|routes|)) else Counting(|routes|)) ==
               Apply(cfg, w, Go(g, Yes))
      modifies this, ports, powerMgr
      ensures At(g, if inside then In(Leave(Routed(r))) else Finished(Routed(r))) && Later(g)
      ensures inside ==> instances == old(instances) && ports.used == old(ports.used)
    {
      insts := insts[i := insts[i].(inflight := Tracked(insts[i].inflight))];
      r := |routes|;
      routes := routes + [Route(i, g, false, false, false)];
      Step(g, Yes, if inside then In(TrackTotal(r)) else Counting(r), w);
      CountTotal(g, r, inside);
    }

    method CountTotal(g: nat, r: nat, inside: bool)
      requires At(g, if inside then In(TrackTotal(r)) else Counting(r))
      modifies this, ports, powerMgr
      ensures At(g, if inside then In(Leave(Routed(r))) else Finished(Routed(r))) && Later(g)
      ensures inside ==> instances == old(instances) && ports.used == old(ports.used)
    {
      ghost var w := Snapshot();
      assert Allowed(cfg, w, g, Yes);
      CountApplies(cfg, w, g, r, inside);
      total := Tracked(total);
      routes := routes[r := routes[r].(tracked := true)];
      Step(g, Yes, if inside then In(Leave(Routed(r))) else Finished(Routed(r)), w);
    }

    /** AcquireRoute's first look, and the second one under the permit: it routes exactly if in a state the run
        passes through meanwhile the model has a ready instance with a live process that is not draining. */
    method TryRouteReady(g: nat, inside: bool) returns (r: Option<nat>, ghost at: seq<Event>)
      requires At(g, if inside then In(Recheck) else Entered)
      modifies this, ports, powerMgr
      ensures Later(g)
      ensures r.Some? ==> At(g, if inside then In(Leave(Routed(r.value))) else Finished(Routed(r.value)))
      ensures r.None? ==> At(g, if inside then In(Capacity) else Wanting)
      ensures Prefix(old(trace), at) && Prefix(at, trace)
      ensures r.Some? <==> HasLive(Run(cfg, epoch, at).core, old(threads[g].m))
    {
      hide Run, Apply, CanGo, Sound, Reachable, Prefix;
      ghost var w := Snapshot();
      assert Allowed(cfg, w, g, Yes);
      PrefixMeans(trace);
      ProbingApplies(cfg, w, g, inside);
      var t := now;
      Step(g, Yes, if inside then In(Reprobe(t)) else Probing(t), w);
      at := trace;
      PrefixMeans(at);
      r := Probe(g, t, inside);
    }

    /** The locked part of tryRouteReady, with the clock already read. */
    method Probe(g: nat, t: int, inside: bool) returns (r: Option<nat>)
      requires At(g, if inside then In(Reprobe(t)) else Probing(t))
      modifies this, ports, powerMgr
      ensures Later(g)
      ensures r.Some? ==> At(g, if inside then In(Leave(Routed(r.value))) else Finished(Routed(r.value)))
      ensures r.None? ==> At(g, if inside then In(Capacity) else Wanting)
      ensures r.Some? <==> old(
                threads[g].m in instances && insts[instances[threads[g].m]].state == Ready
                && !insts[instances[threads[g].m]].draining && insts[instances[threads[g].m]].alive)
      ensures r.Some? <==> HasLive(old(Snapshot()).core, old(threads[g].m))
    {
      hide Run, Apply, CanGo, Sound, Reachable, Prefix;
      ghost var w := Snapshot();
      assert Allowed(cfg, w, g, Yes);
      ReadyIsLive(cfg, w, threads[g].m);
      ProbeApplies(cfg, w, g, t, inside);
      var m := threads[g].m;
      if m !in instances || insts[instances[m]].state != Ready || insts[instances[m]].draining
        || !insts[instances[m]].alive {
        Step(g, Yes, if inside then In(Capacity) else Wanting, w);
        return None;
      }
      var i := instances[m];
      insts := insts[i := insts[i].(lastUsedAt := t)];
      var n := RouteForInstance(g, i, inside, w);
      return Some(n);
    }

    /** Takes the permit, or waits for it unless, in a state the run passes through, a request for the same model
        already does. */
    method AcquirePermitOrReject(g: nat) returns (err: Option<Outcome>, ghost at: seq<Event>)
      requires At(g, Wanting)
      modifies this, ports, powerMgr
      ensures Later(g) && Prefix(old(trace), at) && Prefix(at, trace)
      ensures old(sched) == None ==> err.None?
      ensures err == Some(Rejected(Busy)) <==> old(sched).Some? && threads[g].m in Run(cfg, epoch, at).waiters
      ensures err.None? ==> At(g, In(Recheck))
      ensures err.Some? ==> At(g, Finished(err.value)) && err.value in {Rejected(Busy), Rejected(WaitTimeout), Failure}
    {
      hide Run, Apply, CanGo, Sound, Reachable, Prefix;
      ghost var w := Snapshot();
      assert Allowed(cfg, w, g, Yes);
      OuterApplies(cfg, w, g, Yes);
      at := trace;
      PrefixMeans(at);
      if sched == None {
        sched := Some(g);
        Step(g, Yes, In(Recheck), w);
        return None, at;
      }
      Step(g, Yes, Contended, w);
      at := trace;
      PrefixMeans(at);
      err := JoinWaiters(g);
    }

    /** At most one waiter for a model. */
    method JoinWaiters(g: nat) returns (err: Option<Outcome>)
      requires At(g, Contended)
      modifies this, ports, powerMgr
      ensures Later(g) && (err == Some(Rejected(Busy)) <==> threads[g].m in old(waiters))
      ensures err.None? ==> At(g, In(Recheck))
      ensures err.Some? ==> At(g, Finished(err.value)) && err.value in {Rejected(Busy), Rejected(WaitTimeout), Failure}
    {
      hide Run, Apply, CanGo, Sound, Reachable, Prefix;
      ghost var w := Snapshot();
      assert Allowed(cfg, w, g, Yes);
      OuterApplies(cfg, w, g, Yes);
      var m := threads[g].m;
      if m in waiters {
        Step(g, Yes, Finished(Rejected(Busy)), w);
        return Some(Rejected(Busy));
      }
      waiters := waiters + {m};
      Step(g, Yes, Waiting, w);
      err := AwaitPermit(g);
    }

    /** The select on the permit, the timer and the request's context, and the deferred removal of the waiter. */
    method AwaitPermit(g: nat) returns (err: Option<Outcome>)
      requires At(g, Waiting)
      modifies this, ports, powerMgr
      ensures Later(g)
      ensures err.None? ==> At(g, In(Recheck))
      ensures err.Some? ==> At(g, Finished(err.value)) && err.value in {Rejected(WaitTimeout), Failure}
    {
      hide Run, Apply, CanGo, Sound, Reachable, Prefix;
      ghost var w := Snapshot();
      var gaveUp, cancelled: bool := *, *;
      if sched == None && !gaveUp {
        assert Allowed(cfg, w, g, Yes);
        OuterApplies(cfg, w, g, Yes);
        sched := Some(g);
        Step(g, Yes, Granted, w);
        err := None;
      } else {
        assert Allowed(cfg, w, g, No) && Allowed(cfg, w, g, Broken({}));
        err := Some(if cancelled then Failure else Rejected(WaitTimeout));
        OuterApplies(cfg, w, g, if cancelled then Broken({}) else No);
        Step(g, if cancelled then Broken({}) else No, Refused(err.value), w);
      }
      LeaveWaiters(g, err);
    }

    method LeaveWaiters(g: nat, err: Option<Outcome>)
      requires At(g, if err.None? then Granted else Refused(err.value))
      modifies this, ports, powerMgr
      ensures Later(g) && At(g, if err.None? then In(Recheck) else Finished(err.value))
    {
      hide Run, Apply, CanGo, Sound, Reachable, Prefix;
      ghost var w := Snapshot();
      assert Allowed(cfg, w, g, Yes);
      OuterApplies(cfg, w, g, Yes);
      waiters := waiters - {threads[g].m};
      Step(g, Yes, if err.None? then In(Recheck) else Finished(err.value), w);
    }

    /** The locked part that marks the instance; then drain, stop, revert its limits, forget it, free its port. */
    method DrainAndStopInstance(g: nat, i: nat, ret: Ret)
      requires AboutToDrain(g, i, ret)
      modifies this, ports, powerMgr
      ensures Later(g) && At(g, In(After(ret)))
      ensures i < |old(insts)| && AllSame(old(insts), insts)
      ensures instances == old(instances) - {insts[i].model} && ports.used == Freed(old(ports.used), insts[i].port)
      ensures insts[i].stopped && (insts[i].inflight.count > 0 ==> insts[i].timedOut)
    {
      hide Run, Apply, CanGo, Sound, Reachable, Prefix;
      HaltInstance(g, i, ret);
      ForgetInstance(g, i, ret);
    }

    method HaltInstance(g: nat, i: nat, ret: Ret)
      requires AboutToDrain(g, i, ret)
      modifies this, ports, powerMgr
      ensures Later(g) && At(g, In(Draining(i, Delete, ret))) && i < |old(insts)| && !ret.AfterReplace?
      ensures AllSame(old(insts), insts) && insts[i].stopped && instances == old(instances)
              && ports.used == old(ports.used)
    {
      hide Run, Apply, CanGo, Sound, Reachable, Prefix;
      MarkAndDrain(g, i, ret);
      StopInstance(g, i, ret);
    }

    /** The loop of evictConflicts has decided on instance i, or StopAll's loop has come to it. */
    ghost predicate AboutToDrain(g: nat, i: nat, ret: Ret)
      reads this, ports, powerMgr
    {
      match ret
      case AfterEvict(ev) =>
        && At(g, In(Evict(ev))) && ev.k < |ev.order| && ev.order[ev.k] == i && i < |insts|
        && Overlaps(insts[i].gpus, Gpus(cfg, threads[g].m))
        && (insts[i].startedAt == 0 || ev.t - insts[i].startedAt >= MinUptimeOf(cfg))
      case AfterStop(all, k) => At(g, In(StopLoop(all, k))) && k < |all| && all[k] == i && i < |insts|
      case AfterReplace(_) => false
    }

    /** No new request reaches the instance from here on; those in flight get their time. */
    method MarkAndDrain(g: nat, i: nat, ret: Ret)
      requires AboutToDrain(g, i, ret)
      modifies this, ports, powerMgr
      ensures Later(g) && At(g, In(Draining(i, Stop, ret))) && i < |old(insts)| && Undisturbed()
    {
      hide Run, Apply, CanGo, Sound, Reachable, Prefix;
      Mark(g, i, ret);
      DrainInstance(g, i, ret);
    }

    method Mark(g: nat, i: nat, ret: Ret)
      requires AboutToDrain(g, i, ret)
      modifies this, ports, powerMgr
      ensures Later(g) && At(g, In(Draining(i, Check, ret))) && i < |old(insts)| && Undisturbed()
    {
      hide Run, Apply, CanGo, Sound, Reachable, Prefix;
      ghost var w := Snapshot();
      assert Allowed(cfg, w, g, Yes);
      if ret.AfterEvict? {
        EvictApplies(cfg, w, g, ret.ev);
      } else {
        StopLoopApplies(cfg, w, g, ret.all, ret.k);
      }
      insts := insts[i := insts[i].(draining := true, state := Stopping)];
      Step(g, Yes, In(Draining(i, Check, ret)), w);
    }

    /** Waits until nothing is in flight or the drain timer fires. */
    method DrainInstance(g: nat, i: nat, ret: Ret)
      requires At(g, In(Draining(i, Check, ret))) && i < |insts|
      modifies this, ports, powerMgr
      ensures Later(g) && At(g, In(Draining(i, Stop, ret))) && Undisturbed()
    {
      hide Run, Apply, CanGo, Sound, Reachable, Prefix;
      ghost var w := Snapshot();
      assert Allowed(cfg, w, g, Yes);
      DrainApplies(cfg, w, g, i, Check, ret, Yes);
      if insts[i].inflight.count == 0 {
        Step(g, Yes, In(Draining(i, Stop, ret)), w);
      } else {
        Step(g, Yes, In(Draining(i, Enlist, ret)), w);
        WaitForDrain(g, i, ret);
      }
    }

    method WaitForDrain(g: nat, i: nat, ret: Ret)
      requires At(g, In(Draining(i, Enlist, ret))) && i < |insts|
      modifies this, ports, powerMgr
      ensures Later(g) && At(g, In(Draining(i, Stop, ret))) && Undisturbed()
    {
      hide Run, Apply, CanGo, Sound, Reachable, Prefix;
      ghost var w := Snapshot();
      assert Allowed(cfg, w, g, Yes);
      DrainApplies(cfg, w, g, i, Enlist, ret, Yes);
      if insts[i].inflight.count == 0 {
        Step(g, Yes, In(Draining(i, Stop, ret)), w);
        return;
      }
      var ch := nextChan;
      nextChan := nextChan + 1;
      insts := insts[i := insts[i].(inflight := Enlisted(insts[i].inflight, ch))];
      Step(g, Yes, In(Draining(i, Wait(ch), ret)), w);
      AwaitDrain(g, i, ch, ret);
    }

    /** The select on the drain channel and the timer. */
    method AwaitDrain(g: nat, i: nat, ch: nat, ret: Ret)
      requires At(g, In(Draining(i, Wait(ch), ret))) && i < |insts|
      modifies this, ports, powerMgr
      ensures Later(g) && At(g, In(Draining(i, Stop, ret))) && Undisturbed()
    {
      hide Run, Apply, CanGo, Sound, Reachable, Prefix;
      ghost var w := Snapshot();
      var timeout: bool := *;
      if ch in insts[i].inflight.closed && !timeout {
        assert Allowed(cfg, w, g, Yes);
        DrainApplies(cfg, w, g, i, Wait(ch), ret, Yes);
        Step(g, Yes, In(Draining(i, Stop, ret)), w);
      } else {
        assert Allowed(cfg, w, g, No);
        DrainApplies(cfg, w, g, i, Wait(ch), ret, No);
        insts := insts[i := insts[i].(timedOut := true)];
        Step(g, No, In(Draining(i, Stop, ret)), w);
      }
    }

    /** Stops the process and reverts the instance's limits. */
    method StopInstance(g: nat, i: nat, ret: Ret)
      requires At(g, In(Draining(i, Stop, ret))) && i < |insts| && !ret.AfterReplace?
      modifies this, ports, powerMgr
      ensures Later(g) && At(g, In(Draining(i, Delete, ret)))
      ensures AllSame(old(insts), insts) && insts[i].stopped && instances == old(instances)
              && ports.used == old(ports.used)
    {
      hide Run, Apply, CanGo, Sound, Reachable, Prefix;
      StopProcess(g, i, ret);
      RevertInstance(g, i, ret);
    }

    /** An error of the manager's Stop is ignored; whether the process died is another matter. */
    method StopProcess(g: nat, i: nat, ret: Ret)
      requires At(g, In(Draining(i, Stop, ret))) && i < |insts| && !ret.AfterReplace?
      modifies this, ports, powerMgr
      ensures Later(g) && At(g, In(Draining(i, Revert, ret)))
      ensures AllSame(old(insts), insts) && insts[i].stopped && instances == old(instances)
              && ports.used == old(ports.used)
    {
      hide Run, Apply, CanGo, Sound, Reachable, Prefix;
      ghost var w := Snapshot();
      var died: bool := *;
      ghost var a := if died then Yes else No;
      assert Allowed(cfg, w, g, a);
      DrainApplies(cfg, w, g, i, Stop, ret, a);
      insts := insts[i := insts[i].(stopped := true, alive := insts[i].alive && !died)];
      Step(g, a, In(Draining(i, Revert, ret)), w);
    }

    method RevertInstance(g: nat, i: nat, ret: Ret)
      requires At(g, In(Draining(i, Revert, ret))) && i < |insts| && !ret.AfterReplace?
      modifies this, ports, powerMgr
      ensures Later(g) && At(g, In(Draining(i, Delete, ret)))
      ensures AllSame(old(insts), insts) && instances == old(instances) && ports.used == old(ports.used)
    {
      hide Run, Apply, CanGo, Sound, Reachable, Prefix;
      ghost var w := Snapshot();
      var broken: set<int> := *;
      ghost var a := Broken(broken);
      AllowedCanGo(cfg, Snapshot(), g, a);
      DrainApplies(cfg, w, g, i, Revert, ret, a);
      if cfg.power.Some? {
        powerMgr.RevertModelLimits(insts[i].gpus, broken);
        powerClean := powerClean && broken == {};
      }
      Step(g, a, In(Draining(i, Delete, ret)), w);
    }

    function After(ret: Ret): Sec
    {
      match ret
      case AfterEvict(ev) => Still(ev)
      case AfterStop(all, k) => StopLoop(all, k + 1)
      case AfterReplace(n) => TrackNew(n)
    }

    /** Deletes the registry entry and gives the port back. */
    method ForgetInstance(g: nat, i: nat, ret: Ret)
      requires At(g, In(Draining(i, Delete, ret))) && i < |insts| && insts[i].stopped && !ret.AfterReplace?
      modifies this, ports, powerMgr
      ensures Later(g) && At(g, In(After(ret)))
      ensures AllSame(old(insts), insts) && insts[i].stopped
      ensures instances == old(instances) - {insts[i].model} && ports.used == Freed(old(ports.used), insts[i].port)
      ensures insts[i].inflight.count > 0 ==> insts[i].timedOut
    {
      hide Run, Apply, CanGo, Sound, Reachable, Prefix;
      ghost var w := Snapshot();
      assert Allowed(cfg, w, g, Yes);
      DrainApplies(cfg, w, g, i, Delete, ret, Yes);
      instances := instances - {insts[i].model};
      Step(g, Yes, In(Draining(i, Free, ret)), w);
      FreePort(g, i, ret);
    }

    method FreePort(g: nat, i: nat, ret: Ret)
      requires At(g, In(Draining(i, Free, ret))) && i < |insts| && insts[i].stopped && !ret.AfterReplace?
      modifies this, ports, powerMgr
      ensures Later(g) && At(g, In(After(ret)))
      ensures AllSame(old(insts), insts) && insts[i].stopped
      ensures instances == old(instances) && ports.used == Freed(old(ports.used), insts[i].port)
      ensures insts[i].inflight.count > 0 ==> insts[i].timedOut
    {
      hide Run, Apply, CanGo, Sound, Reachable, Prefix;
      ghost var w := Snapshot();
      assert Allowed(cfg, w, g, Yes);
      DrainApplies(cfg, w, g, i, Free, ret, Yes);
      if insts[i].port != 0 {
        ports.Release(insts[i].port);
      }
      Step(g, Yes, In(After(ret)), w);
      DrainBeforeStop(cfg, Snapshot(), i);
    }

    // ----- evictConflicts -----

    method FindConflicts(target: seq<int>) returns (found: seq<nat>)
      requires Indexed()
      ensures InBounds(Snapshot().core, found) && NoRepeats(found)
      ensures forall i: nat :: i in found <==> Conflict(Snapshot().core, target, i)
    {
      found := [];
      var todo := instances.Keys;
      while todo != {}
        invariant todo <= instances.Keys && InBounds(Snapshot().core, found) && NoRepeats(found)
        invariant forall i: nat :: i in found <==> Conflict(Snapshot().core, target, i) && insts[i].model !in todo
      {
        var m :| m in todo;
        todo := todo - {m};
        var hit := HaveOverlap(insts[instances[m]].gpus, target);
        if hit {
          found := found + [instances[m]];
        }
      }
    }

    method AnyConflict(target: seq<int>) returns (found: bool)
      requires Indexed()
      ensures found <==> SomeConflict(Snapshot().core, target)
    {
      var todo := instances.Keys;
      while todo != {}
        invariant todo <= instances.Keys
        invariant forall i: nat :: Conflict(Snapshot().core, target, i) ==> insts[i].model in todo
      {
        var m :| m in todo;
        todo := todo - {m};
        var hit := HaveOverlap(insts[instances[m]].gpus, target);
        if hit {
          assert Conflict(Snapshot().core, target, instances[m]);
          return true;
        }
      }
      return false;
    }

    method AnyPinned(found: seq<nat>) returns (r: bool)
      requires InBounds(Snapshot().core, found)
      ensures r <==> exists j :: 0 <= j < |found| && insts[found[j]].pinned
    {
      for n := 0 to |found|
        invariant forall j :: 0 <= j < n ==> !insts[found[j]].pinned
      {
        if insts[found[n]].pinned {
          return true;
        }
      }
      return false;
    }

    method SortByUse(found: seq<nat>) returns (order: seq<nat>)
      requires InBounds(Snapshot().core, found) && NoRepeats(found)
      ensures Sorts(Snapshot().core, found, order)
    {
      order := [];
      for n := 0 to |found|
        invariant InBounds(Snapshot().core, order) && SortedByUse(Snapshot().core, order) && NoRepeats(order)
        invariant forall i :: i in order <==> i in found[..n]
      {
        assert found[..n + 1] == found[..n] + [found[n]];
        InsertSorts(Snapshot().core, order, found[n]);
        order := Insert(Snapshot().core, order, found[n]);
      }
      assert found[..|found|] == found;
    }

    /** Collects the conflicts under the lock, and refuses if one is pinned. */
    method ScanConflicts(g: nat, target: seq<int>, t: int) returns (pinned: bool, found: seq<nat>)
      requires At(g, In(Scan(t))) && target == Gpus(cfg, threads[g].m)
      modifies this, ports, powerMgr
      ensures Later(g) && Undisturbed()
      ensures pinned <==> PinnedAmong(old(Snapshot().core), target)
      ensures At(g, if pinned then In(Leave(Rejected(PinnedConflict))) else In(Sort(t, found)))
      ensures Lists(old(Snapshot().core), target, found)
    {
      hide Run, Apply, CanGo, Sound, Reachable, Prefix;
      ghost var w := Snapshot();
      found := FindConflicts(target);
      pinned := AnyPinned(found);
      ghost var a := Order(found);
      assert Lists(w.core, target, found);
      AllowedCanGo(cfg, Snapshot(), g, a);
      LookApplies(cfg, w, g, a);
      Step(g, a, if pinned then In(Leave(Rejected(PinnedConflict))) else In(Sort(t, found)), w);
    }

    /** Sorts after the lock has been given up, by the last uses of that instant. */
    method SortConflicts(g: nat, t: int, found: seq<nat>) returns (ev: Eviction)
      requires At(g, In(Sort(t, found))) && NoRepeats(found)
      modifies this, ports, powerMgr
      ensures Later(g) && Undisturbed() && At(g, In(Evict(ev)))
      ensures Sorts(old(Snapshot().core), found, ev.order) && ev.k == 0 && ev.t == t
    {
      hide Run, Apply, CanGo, Sound, Reachable, Prefix;
      ghost var w := Snapshot();
      FoundExist(cfg, w, g);
      var order := SortByUse(found);
      ev := Eviction(t, order, Keys(Snapshot().core, order), 0);
      ghost var a := Order(order);
      AllowedCanGo(cfg, Snapshot(), g, a);
      LookApplies(cfg, w, g, a);
      Step(g, a, In(Evict(ev)), w);
    }

    /** Reads the clock first, as the ages are measured against it. */
    method CollectConflicts(g: nat, target: seq<int>) returns (pinned: bool, t: int, found: seq<nat>, ghost scan: Core)
      requires At(g, In(ScanClock)) && target == Gpus(cfg, threads[g].m)
      modifies this, ports, powerMgr
      ensures Later(g) && scan.registry == old(instances) && AllSame(old(insts), scan.insts) && t == old(now)
      ensures pinned <==> PinnedAmong(scan, target)
      ensures At(g, if pinned then In(Leave(Rejected(PinnedConflict))) else In(Sort(t, found)))
      ensures Lists(scan, target, found) && EvictedExactly(scan, Snapshot().core, found, 0)
    {
      hide Run, Apply, CanGo, Sound, Reachable, Prefix, EvictedExactly, Lists;
      ghost var w := Snapshot();
      assert Allowed(cfg, w, g, Yes);
      LookApplies(cfg, w, g, Yes);
      t := now;
      Step(g, Yes, In(Scan(t)), w);
      scan := Snapshot().core;
      pinned, found := ScanConflicts(g, target, t);
      ListsInBounds(scan, target, found);
      EvictedNone(scan, Snapshot().core, found);
    }

    /** Every listed conflict could be evicted. */
    ghost predicate NoneSpared(ev: Eviction)
      reads this, ports, powerMgr
    {
      forall j :: 0 <= j < |ev.order| ==>
        ev.order[j] < |insts| && Evictable(cfg, Snapshot().core, ev.t, ev.order[j])
    }

    ghost predicate TooYoung(ev: Eviction)
      reads this
    {
      ev.k < |ev.order| && ev.order[ev.k] < |insts| && ev.t - insts[ev.order[ev.k]].startedAt < MinUptimeOf(cfg)
    }

    /** One turn of the eviction loop: the next conflict is refused for its age, or drained and stopped. */
    method EvictNext(g: nat, target: seq<int>, ev: Eviction, ghost scan: Core) returns (done: bool, err: Option<Reason>)
      requires At(g, In(Evict(ev))) && ev.k < |ev.order| && target == Gpus(cfg, threads[g].m)
      requires Lists(scan, target, ev.order) && EvictedExactly(scan, Snapshot().core, ev.order, ev.k)
      modifies this, ports, powerMgr
      ensures Later(g)
      ensures EvictedExactly(scan, Snapshot().core, ev.order, if err.Some? then ev.k else ev.k + 1)
      ensures err.Some? ==> done && err.value == MinUptime && At(g, In(Leave(Rejected(MinUptime)))) && TooYoung(ev)
      ensures err.None? && done ==> At(g, In(Vram)) && ev.k + 1 == |ev.order| && NoneSpared(ev)
      ensures !done ==> err.None? && At(g, In(Evict(ev.(k := ev.k + 1))))
    {
      hide Run, Apply, CanGo, Sound, Reachable, Prefix, EvictedExactly;
      ghost var w := Snapshot();
      HalfwayThere(cfg, Snapshot(), g);
      var i := ev.order[ev.k];
      var hit := HaveOverlap(insts[i].gpus, target);
      if !hit {
        assert false;
      }
      if insts[i].startedAt != 0 && ev.t - insts[i].startedAt < MinUptimeOf(cfg) {
        RefuseYoung(g, ev, scan);
        return true, Some(MinUptime);
      }
      done := EvictOne(g, target, ev, scan);
      err := None;
    }

    method RefuseYoung(g: nat, ev: Eviction, ghost scan: Core)
      requires At(g, In(Evict(ev))) && TooYoung(ev) && insts[ev.order[ev.k]].startedAt != 0
      requires Overlaps(insts[ev.order[ev.k]].gpus, Gpus(cfg, threads[g].m))
               && EvictedExactly(scan, Snapshot().core, ev.order, ev.k)
      modifies this, ports, powerMgr
      ensures Later(g) && At(g, In(Leave(Rejected(MinUptime)))) && TooYoung(ev)
      ensures EvictedExactly(scan, Snapshot().core, ev.order, ev.k)
    {
      hide Run, Apply, CanGo, Sound, Reachable, Prefix;
      ghost var w := Snapshot();
      assert Allowed(cfg, w, g, Yes);
      EvictApplies(cfg, w, g, ev);
      Step(g, Yes, In(Leave(Rejected(MinUptime))), w);
      EvictedStill(scan, w.core, Snapshot().core, ev.order, ev.k);
    }

    method EvictOne(g: nat, target: seq<int>, ev: Eviction, ghost scan: Core) returns (done: bool)
      requires At(g, In(Evict(ev))) && ev.k < |ev.order| && target == Gpus(cfg, threads[g].m)
      requires AboutToDrain(g, ev.order[ev.k], AfterEvict(ev))
      requires Lists(scan, target, ev.order) && EvictedExactly(scan, Snapshot().core, ev.order, ev.k)
      modifies this, ports, powerMgr
      ensures Later(g) && EvictedExactly(scan, Snapshot().core, ev.order, ev.k + 1)
      ensures done ==> At(g, In(Vram)) && ev.k + 1 == |ev.order| && NoneSpared(ev)
      ensures !done ==> At(g, In(Evict(ev.(k := ev.k + 1))))
    {
      hide Run, Apply, CanGo, Sound, Reachable, Prefix, EvictedExactly, Lists, AllSame;
      ghost var k := Snapshot().core;
      DrainAndStopInstance(g, ev.order[ev.k], AfterEvict(ev));
      ghost var k' := Snapshot().core;
      EvictedOneMore(scan, k, k', target, ev.order, ev.k);
      done := Recompute(g, target, ev);
      EvictedStill(scan, k', Snapshot().core, ev.order, ev.k + 1);
    }

    /** Whether conflicts remain after an eviction. */
    method Recompute(g: nat, target: seq<int>, ev: Eviction) returns (done: bool)
      requires At(g, In(Still(ev))) && target == Gpus(cfg, threads[g].m)
      modifies this, ports, powerMgr
      ensures Later(g) && Undisturbed()
      ensures done ==> At(g, In(Vram)) && ev.k + 1 == |ev.order| && NoneSpared(ev)
      ensures !done ==> At(g, In(Evict(ev.(k := ev.k + 1))))
    {
      hide Run, Apply, CanGo, Sound, Reachable, Prefix;
      ghost var w := Snapshot();
      assert Allowed(cfg, w, g, Yes);
      LookApplies(cfg, w, g, Yes);
      HalfwayThere(cfg, Snapshot(), g);
      assert ev.k + 1 < |ev.order| ==> Conflict(w.core, target, ev.order[ev.k + 1]);
      var still := AnyConflict(target);
      done := !still;
      Step(g, Yes, if still then In(Evict(ev.(k := ev.k + 1))) else In(Vram), w);
    }

    /** The eviction loop over the sorted conflicts. */
    method EvictInOrder(g: nat, target: seq<int>, ev: Eviction, ghost scan: Core)
        returns (err: Option<Reason>, ghost n: nat)
      requires At(g, In(Evict(ev))) && ev.k == 0 && target == Gpus(cfg, threads[g].m)
      requires Lists(scan, target, ev.order) && EvictedExactly(scan, Snapshot().core, ev.order, 0)
      modifies this, ports, powerMgr
      ensures Later(g) && EvictedExactly(scan, Snapshot().core, ev.order, n)
      ensures err.None? ==> At(g, In(Vram)) && n == |ev.order| && NoneSpared(ev)
      ensures err.Some? ==> err.value == MinUptime && At(g, In(Leave(Rejected(MinUptime)))) && TooYoung(ev.(k := n))
    {
      hide Run, Apply, CanGo, Sound, Reachable, Prefix, EvictedExactly, Lists, AllSame;
      var j := 0;
      while j < |ev.order|
        invariant 0 <= j <= |ev.order| && Later(g)
        invariant At(g, In(Evict(ev.(k := j)))) && EvictedExactly(scan, Snapshot().core, ev.order, j)
      {
        var done;
        done, err := EvictNext(g, target, ev.(k := j), scan);
        if err.Some? {
          return err, j;
        }
        j := j + 1;
        if done {
          return None, j;
        }
      }
      FinalCheck(g, target, ev.(k := j), scan);
      return None, j;
    }

    /** The loop has run out: the last look finds no conflict. */
    method FinalCheck(g: nat, target: seq<int>, ev: Eviction, ghost scan: Core)
      requires At(g, In(Evict(ev))) && ev.k == |ev.order| && target == Gpus(cfg, threads[g].m)
      requires EvictedExactly(scan, Snapshot().core, ev.order, ev.k)
      modifies this, ports, powerMgr
      ensures Later(g) && At(g, In(Vram)) && NoneSpared(ev) && EvictedExactly(scan, Snapshot().core, ev.order, ev.k)
    {
      hide Run, Apply, CanGo, Sound, Reachable, Prefix, EvictedExactly;
      ghost var w := Snapshot();
      ghost var k := w.core;
      HalfwayThere(cfg, Snapshot(), g);
      assert Allowed(cfg, w, g, Yes);
      EvictApplies(cfg, w, g, ev);
      Step(g, Yes, In(Final), w);
      w := Snapshot();
      GPUsFreed(cfg, Snapshot(), g);
      assert Allowed(cfg, w, g, Yes);
      LookApplies(cfg, w, g, Yes);
      var left := AnyConflict(target);
      if left {
        assert false;
      }
      Step(g, Yes, In(Vram), w);
      EvictedStill(scan, k, Snapshot().core, ev.order, ev.k);
    }

    /**
     Succeeds exactly if, when the conflicts are collected, none of them is pinned and each has been up for
     the minimum time when the method begins; if the model itself is registered that is a matter of its own
     entry alone.  Either way the instances evicted are the first n of the conflicts in order of last use in
     the state `sorted`, which the run passes through after the events `at`: all of them on success, none if
     one is pinned, and otherwise those before one that is too young.
     */
    method EvictConflicts(g: nat, target: seq<int>) returns (
        err: Option<Reason>, ghost scan: Core, ghost at: seq<Event>, ghost sorted: Core, ghost ev: Eviction,
        ghost n: nat)
      requires At(g, In(ScanClock)) && target == Gpus(cfg, threads[g].m)
      modifies this, ports, powerMgr
      ensures Later(g) && scan.registry == old(instances) && AllSame(old(insts), scan.insts) && ev.t == old(now)
      ensures Prefix(at, trace) && forall es :: Prefix(es, old(trace)) ==> Prefix(es, at)
      ensures Lists(scan, target, ev.order) && EvictedExactly(scan, Snapshot().core, ev.order, n)
      ensures At(g, if err.Some? then In(Leave(Rejected(err.value))) else In(Vram))
      ensures err.None? <==> forall i: nat :: Conflict(scan, target, i) ==> Evictable(cfg, scan, ev.t, i)
      ensures old(threads[g].m in instances) ==>
                var own := old(insts[instances[threads[g].m]]);
                err.None? <==> !own.pinned && old(now) - own.startedAt >= MinUptimeOf(cfg)
      ensures err.None? ==> n == |ev.order|
      ensures err == Some(PinnedConflict) <==> PinnedAmong(scan, target)
      ensures err == Some(PinnedConflict) ==> n == 0
      ensures err != Some(PinnedConflict) ==>
                && sorted == Run(cfg, epoch, at).core
                && AllSame(scan.insts, sorted.insts) && InBounds(sorted, ev.order) && SortedByUse(sorted, ev.order)
      ensures err.Some? && !PinnedAmong(scan, target) ==>
                err.value == MinUptime && n < |ev.order| && !Evictable(cfg, scan, ev.t, ev.order[n])
    {
      hide Run, Apply, CanGo, Sound, Reachable, Prefix, EvictedExactly, Lists, AllSame, Conflict, PinnedAmong;
      ghost var w := Snapshot();
      var pinned, t, found;
      pinned, t, found, scan := CollectConflicts(g, target);
      at := trace;
      PrefixMeans(at);
      if threads[g].m in w.core.registry {
        OwnEntryOnly(cfg, w, scan, threads[g].m, t);
      }
      if pinned {
        PinnedNotEvictable(cfg, scan, target, t);
        return Some(PinnedConflict), scan, at, scan, Eviction(t, found, [], 0), 0;
      }
      err, sorted, ev, n := EvictUnpinned(g, target, t, found, scan);
    }

    method EvictUnpinned(g: nat, target: seq<int>, t: int, found: seq<nat>, ghost scan: Core)
      returns (err: Option<Reason>, ghost sorted: Core, ghost ev: Eviction, ghost n: nat)
      requires At(g, In(Sort(t, found))) && target == Gpus(cfg, threads[g].m)
      requires Lists(scan, target, found) && EvictedExactly(scan, Snapshot().core, found, 0)
      modifies this, ports, powerMgr
      ensures Later(g) && Lists(scan, target, ev.order) && EvictedExactly(scan, Snapshot().core, ev.order, n)
      ensures At(g, if err.Some? then In(Leave(Rejected(err.value))) else In(Vram))
      ensures ev.t == t && sorted == old(Snapshot().core)
      ensures AllSame(scan.insts, sorted.insts) && InBounds(sorted, ev.order) && SortedByUse(sorted, ev.order)
      ensures err.None? ==> n == |ev.order| && forall i: nat :: Conflict(scan, target, i) ==>
              Evictable(cfg, scan, ev.t, i)
      ensures err.Some? ==>
                && err.value == MinUptime && n < |ev.order| && Conflict(scan, target, ev.order[n])
                && !Evictable(cfg, scan, ev.t, ev.order[n])
    {
      hide Run, Apply, CanGo, Sound, Reachable, Prefix, EvictedExactly, Lists, Sorts;
      sorted := Snapshot().core;
      ListFacts(scan, sorted, target, found);
      var eviction := SortConflicts(g, t, found);
      ev := eviction;
      SortKeepsList(scan, sorted, Snapshot().core, target, found, ev.order);
      SortsMeans(sorted, found, ev.order);
      err, n := EvictSorted(g, target, eviction, scan);
    }

    method EvictSorted(g: nat, target: seq<int>, ev: Eviction, ghost scan: Core)
        returns (err: Option<Reason>, ghost n: nat)
      requires At(g, In(Evict(ev))) && ev.k == 0 && target == Gpus(cfg, threads[g].m)
      requires Lists(scan, target, ev.order) && EvictedExactly(scan, Snapshot().core, ev.order, 0)
      modifies this, ports, powerMgr
      ensures Later(g) && EvictedExactly(scan, Snapshot().core, ev.order, n)
      ensures At(g, if err.Some? then In(Leave(Rejected(err.value))) else In(Vram))
      ensures err.None? ==> n == |ev.order| && forall i: nat :: Conflict(scan, target, i) ==>
              Evictable(cfg, scan, ev.t, i)
      ensures err.Some? ==>
                && err.value == MinUptime && n < |ev.order| && Conflict(scan, target, ev.order[n])
                && !Evictable(cfg, scan, ev.t, ev.order[n])
    {
      hide Run, Apply, CanGo, Sound, Reachable, Prefix, EvictedExactly, Lists;
      err, n := EvictInOrder(g, target, ev, scan);
      if err.None? {
        AllEvictable(cfg, scan, Snapshot().core, target, ev, n);
      } else {
        NotEvictable(cfg, scan, Snapshot().core, target, ev, n);
      }
    }

    // ----- starting an instance -----

    /** Takes the lowest free port and makes the instance, which nobody else can see yet. */
    method NewInstance(g: nat) returns (i: Option<nat>)
      requires At(g, In(TakePort))
      modifies this, ports, powerMgr
      ensures Later(g) && instances == old(instances)
      ensures i.None? ==> At(g, In(Leave(Rejected(NoPorts)))) && ports.used == old(ports.used)
      ensures i.None? ==> forall p :: ports.start <= p <= ports.end ==> p in old(ports.used)
      ensures i.Some? <==> |old(instances)| <= ports.end - ports.start
      ensures i.Some? ==>
                && At(g, In(ApplyPower(i.value))) && i.value < |insts| && insts[i.value].port !in old(ports.used)
                && ports.start <= insts[i.value].port <= ports.end
                   && ports.used == old(ports.used) + {insts[i.value].port}
    {
      hide Run, Apply, CanGo, Sound, Reachable, Prefix;
      ghost var w := Snapshot();
      assert Allowed(cfg, w, g, Yes);
      PortApplies(cfg, w, g);
      PortIfFewer(cfg, w, g);
      var port, ok := ports.Acquire();
      if !ok {
        Step(g, Yes, In(Leave(Rejected(NoPorts))), w);
        return None;
      }
      var n := |insts|;
      insts := insts + [FreshInst(cfg, threads[g].m, port)];
      Step(g, Yes, In(ApplyPower(n)), w);
      return Some(n);
    }

    /** Limits, Start, VerifyReady, and on a failure of any of them everything is given back; a process that
        has started and fails its check is told to stop. */
    method LaunchInstance(g: nat, i: nat, o: Outside) returns (ok: bool)
      requires At(g, In(ApplyPower(i))) && i < |insts|
      modifies this, ports, powerMgr
      ensures Later(g) && instances == old(instances) && threads[g].m in cfg.config.models
      ensures ok <==> LimitsAccepted(cfg, threads[g].m, o.refused) && o.starts && o.verifies
      ensures At(g, if ok then In(Register(i)) else In(Leave(Failure)))
      ensures ports.used == if ok then old(ports.used) else old(ports.used) - {old(insts[i].port)}
      ensures LimitsAccepted(cfg, threads[g].m, o.refused) && o.starts && !o.verifies ==>
                i < |insts| && insts[i].stopped
    {
      hide Run, Apply, CanGo, Sound, Reachable, Prefix;
      ok := SetLimits(g, i, o.refused);
      if ok {
        ok := StartInstance(g, i, o.starts, o.verifies);
      } else {
        var _ := GiveBack(g, i, false);
      }
    }

    method SetLimits(g: nat, i: nat, refused: set<int>) returns (ok: bool)
      requires At(g, In(ApplyPower(i))) && i < |insts|
      modifies this, ports, powerMgr
      ensures Later(g) && instances == old(instances) && ports.used == old(ports.used) && AllSame(old(insts), insts)
      ensures At(g, if ok then In(Sec.Start(i)) else In(FreeFailed(i, false)))
      ensures threads[g].m in cfg.config.models && (ok <==> LimitsAccepted(cfg, threads[g].m, refused))
    {
      hide Run, Apply, CanGo, Sound, Reachable, Prefix;
      ghost var w := Snapshot();
      ghost var a := Broken(refused);
      AllowedCanGo(cfg, Snapshot(), g, a);
      LaunchApplies(cfg, w, g, a);
      var mc := cfg.config.models[threads[g].m];
      ok := true;
      if cfg.power.Some? {
        var err := powerMgr.ApplyModelLimits(mc.gpus, mc.powerLimit, mc.powerLimits, refused);
        powerClean := powerClean && refused == {};
        ok := err.None?;
      }
      AcceptedUnlessAttempted(cfg, threads[g].m, refused);
      Step(g, a, if ok then In(Sec.Start(i)) else In(FreeFailed(i, false)), w);
    }

    method StartInstance(g: nat, i: nat, starts: bool, verifies: bool) returns (ok: bool)
      requires At(g, In(Sec.Start(i))) && i < |insts|
      modifies this, ports, powerMgr
      ensures Later(g) && instances == old(instances)
      ensures ok <==> starts && verifies
      ensures At(g, if ok then In(Register(i)) else In(Leave(Failure)))
      ensures ports.used == if ok then old(ports.used) else old(ports.used) - {old(insts[i].port)}
      ensures starts && !verifies ==> i < |insts| && insts[i].stopped
    {
      hide Run, Apply, CanGo, Sound, Reachable, Prefix;
      ghost var w := Snapshot();
      ghost var a := if starts then Yes else No;
      assert Allowed(cfg, w, g, a);
      LaunchApplies(cfg, w, g, a);
      if starts {
        insts := insts[i := insts[i].(alive := true)];
      }
      Step(g, a, if starts then In(Verify(i)) else In(FreeFailed(i, true)), w);
      if starts {
        ok := VerifyInstance(g, i, verifies);
      } else {
        var _ := GiveBack(g, i, true);
        ok := false;
      }
    }

    method VerifyInstance(g: nat, i: nat, verifies: bool) returns (ok: bool)
      requires At(g, In(Verify(i))) && i < |insts|
      modifies this, ports, powerMgr
      ensures Later(g) && instances == old(instances)
      ensures ok <==> verifies
      ensures At(g, if ok then In(Register(i)) else In(Leave(Failure)))
      ensures ports.used == if ok then old(ports.used) else old(ports.used) - {old(insts[i].port)}
      ensures !verifies ==> i < |insts| && insts[i].stopped
    {
      hide Run, Apply, CanGo, Sound, Reachable, Prefix;
      ghost var w := Snapshot();
      ok := verifies;
      ghost var a := if ok then Yes else No;
      assert Allowed(cfg, w, g, a);
      LaunchApplies(cfg, w, g, a);
      Step(g, a, if ok then In(Sec.Stamp(i)) else In(StopFailed(i)), w);
      if ok {
        StampInstance(g, i);
      } else {
        AbandonUnverified(g, i);
      }
    }

    method AbandonUnverified(g: nat, i: nat)
      requires At(g, In(StopFailed(i))) && i < |insts|
      modifies this, ports, powerMgr
      ensures Later(g) && instances == old(instances) && i < |insts| && insts[i].stopped
      ensures At(g, In(Leave(Failure))) && ports.used == old(ports.used) - {old(insts[i].port)}
    {
      hide Run, Apply, CanGo, Sound, Reachable, Prefix;
      StopUnverified(g, i);
      var _ := GiveBack(g, i, true);
    }

    /** The instance is as old as this moment, and last used now. */
    method StampInstance(g: nat, i: nat)
      requires At(g, In(Sec.Stamp(i))) && i < |insts|
      modifies this, ports, powerMgr
      ensures Later(g) && instances == old(instances) && ports.used == old(ports.used) && At(g, In(Register(i)))
      ensures i < |insts| && insts[i].startedAt == old(now)
    {
      hide Run, Apply, CanGo, Sound, Reachable, Prefix;
      ghost var w := Snapshot();
      assert Allowed(cfg, w, g, Yes);
      LaunchApplies(cfg, w, g, Yes);
      insts := insts[i := insts[i].(state := Ready, startedAt := now, lastUsedAt := now)];
      Step(g, Yes, In(Register(i)), w);
    }

    /** An error of Stop is ignored; whether the process died is another matter. */
    method StopUnverified(g: nat, i: nat)
      requires At(g, In(StopFailed(i))) && i < |insts|
      modifies this, ports, powerMgr
      ensures Later(g) && instances == old(instances) && ports.used == old(ports.used)
      ensures At(g, In(FreeFailed(i, true))) && i < |insts| && insts[i].port == old(insts[i].port) && insts[i].stopped
    {
      hide Run, Apply, CanGo, Sound, Reachable, Prefix;
      ghost var w := Snapshot();
      var died: bool := *;
      ghost var a := if died then Yes else No;
      assert Allowed(cfg, w, g, a);
      LaunchApplies(cfg, w, g, a);
      insts := insts[i := insts[i].(stopped := true, alive := insts[i].alive && !died)];
      Step(g, a, In(FreeFailed(i, true)), w);
    }

    /** A failed start returns its port, and reverts its limits, as far as nvidia-smi lets it, unless setting
        them is what failed: then the limits stay as they are. */
    method GiveBack(g: nat, i: nat, revert: bool) returns (ghost refused: set<int>)
      requires At(g, In(FreeFailed(i, revert))) && i < |insts|
      modifies this, ports, powerMgr
      ensures Later(g) && instances == old(instances) && AllSame(old(insts), insts)
      ensures At(g, In(Leave(Failure))) && ports.used == old(ports.used) - {old(insts[i].port)}
      ensures powerMgr.current == if revert then WithoutLimits(g, refused, old(powerMgr.current))
              else old(powerMgr.current)
    {
      hide Run, Apply, CanGo, Sound, Reachable, Prefix;
      ghost var w := Snapshot();
      assert Allowed(cfg, w, g, Yes);
      LaunchApplies(cfg, w, g, Yes);
      ports.Release(insts[i].port);
      if !revert {
        Step(g, Yes, In(Leave(Failure)), w);
        return {};
      }
      Step(g, Yes, In(RevertFailed(i)), w);
      refused := RevertLimitsOf(g, i);
    }

    /** The limits after g's model has given its own up, for the GPUs nvidia-smi refuses to reset. */
    ghost function WithoutLimits(g: nat, refused: set<int>, current: map<int, int>): map<int, int>
      requires g < |threads|
      reads this
    {
      if cfg.power.None? then current
      else Power.Reverted(cfg.power.value.defaults, current, Gpus(cfg, threads[g].m), refused)
    }

    method RevertLimitsOf(g: nat, i: nat) returns (ghost refused: set<int>)
      requires At(g, In(RevertFailed(i)))
      modifies this, ports, powerMgr
      ensures Later(g) && instances == old(instances) && ports.used == old(ports.used) && At(g, In(Leave(Failure)))
      ensures AllSame(old(insts), insts)
      ensures powerMgr.current == WithoutLimits(g, refused, old(powerMgr.current))
    {
      hide Run, Apply, CanGo, Sound, Reachable, Prefix;
      ghost var w := Snapshot();
      var broken: set<int> := *;
      ghost var a := Broken(broken);
      refused := broken;
      AllowedCanGo(cfg, Snapshot(), g, a);
      LaunchApplies(cfg, w, g, a);
      if cfg.power.Some? {
        powerMgr.RevertModelLimits(Gpus(cfg, threads[g].m), broken);
        powerClean := powerClean && broken == {};
      }
      Step(g, a, In(Leave(Failure)), w);
    }

    /** Enters the new instance under its model's name and routes the request to it.  The code would also
        drain and stop a previous holder of the entry; there never is one, as its GPUs are the model's own. */
    method RegisterInstance(g: nat, i: nat) returns (r: nat)
      requires At(g, In(Register(i)))
      modifies this, ports, powerMgr
      ensures Later(g) && At(g, In(Leave(Routed(r))))
      ensures threads[g].m !in old(instances) && instances == old(instances)[threads[g].m := i]
              && ports.used == old(ports.used)
    {
      hide Run, Apply, CanGo, Sound, Reachable, Prefix;
      ghost var w := Snapshot();
      assert Allowed(cfg, w, g, Yes);
      GPUsFreed(cfg, Snapshot(), g);
      var m := threads[g].m;
      if m in instances {
        assert false;
      }
      RegisterApplies(cfg, w, g, i);
      instances := instances[m := i];
      Step(g, Yes, In(TrackNew(i)), w);
      r := RouteToNew(g, i);
    }

    method RouteToNew(g: nat, i: nat) returns (r: nat)
      requires At(g, In(TrackNew(i)))
      modifies this, ports, powerMgr
      ensures Later(g) && At(g, In(Leave(Routed(r)))) && instances == old(instances) && ports.used == old(ports.used)
    {
      hide Run, Apply, CanGo, Sound, Reachable, Prefix;
      ghost var w := Snapshot();
      assert Allowed(cfg, w, g, Yes);
      TrackNewApplies(cfg, w, g, i);
      r := RouteForInstance(g, i, true, w);
    }

    // ----- AcquireRoute and StopAll -----

    /** What AcquireRoute does under the permit. */
    method Schedule(g: nat, o: Outside) returns (out: Outcome)
      requires At(g, In(Recheck))
      modifies this, ports, powerMgr
      ensures Later(g) && At(g, In(Leave(out)))
    {
      hide Run, Apply, CanGo, Sound, Reachable, Prefix;
      var r, _ := TryRouteReady(g, true);
      if r.Some? {
        return Routed(r.value);
      }
      var scheduled, _ := ScheduleNew(g, o);
      return scheduled;
    }

    /**
     A request that has found no ready instance is served exactly if there is a place for it, its GPUs exist,
     every instance on them may be evicted by the clock of a state the run passes through, the others leave a
     port, its memory is free after that, its limits are accepted, and its process starts and is verified.
     The answers that stop it short are exact too.
     */
    method ScheduleNew(g: nat, o: Outside) returns (out: Outcome, ghost at: seq<Event>)
      requires At(g, In(Capacity))
      modifies this, ports, powerMgr
      ensures Later(g) && At(g, In(Leave(out))) && Prefix(old(trace), at) && Prefix(at, trace) && Fit(cfg, threads[g].m)
      ensures var target, t := Gpus(cfg, threads[g].m), Run(cfg, epoch, at).core.now;
              && (out.Routed? <==>
                    && HasPlace(cfg, old(Snapshot().core), threads[g].m) && Listed(cfg, threads[g].m, o.found)
                    && Clear(cfg, old(Snapshot()).core, target, t)
                    && |Spared(old(Snapshot()).core, target)| <= ports.end - ports.start
                    && Roomy(cfg, threads[g].m, o.free) && LimitsAccepted(cfg, threads[g].m, o.refused)
                    && o.starts && o.verifies)
              && (out == Rejected(NoCapacity) <==> !HasPlace(cfg, old(Snapshot().core), threads[g].m))
              && (out == Rejected(PinnedConflict) <==>
                    && HasPlace(cfg, old(Snapshot().core), threads[g].m) && Listed(cfg, threads[g].m, o.found)
                    && PinnedAmong(old(Snapshot()).core, target))
              && (out == Rejected(MinUptime) <==>
                    && HasPlace(cfg, old(Snapshot().core), threads[g].m) && Listed(cfg, threads[g].m, o.found)
                    && !PinnedAmong(old(Snapshot()).core, target) && !Clear(cfg, old(Snapshot()).core, target, t))
    {
      hide Run, Apply, CanGo, Sound, Reachable, Prefix, EvictedExactly, Lists, AllSame;
      hide PinnedAmong, Clear, Spared, HasPlace, Listed, Roomy, LimitsAccepted, Fit;
      PrefixMeans(trace);
      ghost var k := Snapshot().core;
      var refusal := Admit(g, o.found);
      at := trace;
      PrefixMeans(at);
      if refusal.Some? {
        return refusal.value, at;
      }
      out := ServeAdmitted(g, o, k);
    }

    method ServeAdmitted(g: nat, o: Outside, ghost k: Core) returns (out: Outcome)
      requires At(g, In(ScanClock)) && k.registry == instances && AllSame(k.insts, insts) && Points(k)
      modifies this, ports, powerMgr
      ensures Later(g) && At(g, In(Leave(out))) && Fit(cfg, threads[g].m)
      ensures var target := Gpus(cfg, threads[g].m);
              && (out.Routed? <==>
                    && Clear(cfg, k, target, old(now)) && |Spared(k, target)| <= ports.end - ports.start
                    && Roomy(cfg, threads[g].m, o.free) && LimitsAccepted(cfg, threads[g].m, o.refused)
                    && o.starts && o.verifies)
              && out != Rejected(NoCapacity)
              && (out == Rejected(PinnedConflict) <==> PinnedAmong(k, target))
              && (out == Rejected(MinUptime) <==> !PinnedAmong(k, target) && !Clear(cfg, k, target, old(now)))
    {
      hide Run, Apply, CanGo, Sound, Reachable, Prefix, AllSame, PinnedAmong, Clear, Spared, Roomy, LimitsAccepted, Fit;
      AlwaysSchedulable(cfg, Snapshot(), g);
      FitIs(cfg, threads[g].m);
      var err := ClearGPUs(g, k);
      if err.Some? {
        return Rejected(err.value);
      }
      out := Launch(g, o);
    }

    /** evictConflicts on the GPUs of g's model, as seen from a state k with the same registry. */
    method ClearGPUs(g: nat, ghost k: Core) returns (err: Option<Reason>)
      requires At(g, In(ScanClock)) && k.registry == instances && AllSame(k.insts, insts) && Points(k)
      modifies this, ports, powerMgr
      ensures Later(g) && At(g, if err.Some? then In(Leave(Rejected(err.value))) else In(Vram))
      ensures var target := Gpus(cfg, threads[g].m);
              && (err.None? <==> Clear(cfg, k, target, old(now)))
              && (PinnedAmong(k, target) ==> err == Some(PinnedConflict))
              && (err.Some? ==> err.value == if PinnedAmong(k, target) then PinnedConflict else MinUptime)
              && (err.None? ==> instances.Keys == Spared(k, target))
    {
      hide Run, Apply, CanGo, Sound, Reachable, Prefix, EvictedExactly, Lists, Conflict, PinnedAmong;
      ghost var target := Gpus(cfg, threads[g].m);
      var refusal, scan, at, sorted, ev, n := EvictConflicts(g, Gpus(cfg, threads[g].m));
      err := refusal;
      SameConflicts(cfg, k, scan, target, ev.t);
      if err.None? {
        SparedAreLeft(scan, Snapshot().core, target, ev.order);
      }
    }

    /** The model's own entry does not count against the cap. */
    method CapReached(m: string) returns (full: bool)
      ensures full <==> AtCapacity(cfg, Snapshot().core, m)
      ensures full <==>
              && cfg.config.scheduler.Some? && cfg.config.scheduler.value.maxInstances.Some?
              && |instances.Keys - {m}| >= cfg.config.scheduler.value.maxInstances.value
    {
      if cfg.config.scheduler.None? || cfg.config.scheduler.value.maxInstances.None? {
        return false;
      }
      var current := |instances|;
      CountOthers(instances, m);
      if m in instances {
        current := current - 1;
      }
      return current >= cfg.config.scheduler.value.maxInstances.value;
    }

    /** The checks before anything is evicted: the scheduler fields, the instance cap and the GPUs' existence. */
    method Admit(g: nat, inv: Option<map<int, int>>) returns (refusal: Option<Outcome>)
      requires At(g, In(Capacity))
      modifies this, ports, powerMgr
      ensures Later(g) && Undisturbed() && Fit(cfg, threads[g].m)
      ensures At(g, if refusal.Some? then In(Leave(refusal.value)) else In(ScanClock))
      ensures refusal == Some(Rejected(NoCapacity)) <==>
              && cfg.config.scheduler.Some? && cfg.config.scheduler.value.maxInstances.Some?
              && |old(instances).Keys - {threads[g].m}| >= cfg.config.scheduler.value.maxInstances.value
      ensures refusal == Some(Rejected(NoCapacity)) <==> !HasPlace(cfg, old(Snapshot().core), threads[g].m)
      ensures refusal.Some? ==> refusal.value == Rejected(NoCapacity) || refusal.value == Failure
      ensures refusal.None? <==> HasPlace(cfg, old(Snapshot().core), threads[g].m) && Listed(cfg, threads[g].m, inv)
    {
      hide Run, Apply, CanGo, Sound, Reachable, Prefix;
      AlwaysSchedulable(cfg, Snapshot(), g);
      refusal := CheckCapacity(g);
      if refusal.None? {
        refusal := CheckGPUs(g, inv);
      }
    }

    method CheckCapacity(g: nat) returns (refusal: Option<Outcome>)
      requires At(g, In(Capacity))
      modifies this, ports, powerMgr
      ensures Later(g) && Undisturbed()
      ensures At(g, if refusal.Some? then In(Leave(refusal.value)) else In(FindGPUs))
      ensures refusal.Some? ==> refusal.value == Rejected(NoCapacity)
      ensures refusal.None? <==> HasPlace(cfg, old(Snapshot().core), threads[g].m)
    {
      hide Run, Apply, CanGo, Sound, Reachable, Prefix;
      ghost var w := Snapshot();
      assert Allowed(cfg, w, g, Yes);
      LookApplies(cfg, w, g, Yes);
      var m := threads[g].m;
      var mc := cfg.config.models[m];
      AlwaysSchedulable(cfg, Snapshot(), g);
      if |mc.gpus| == 0 || mc.minFreeMB.None? {
        assert false;
      }
      var full := CapReached(m);
      if full {
        Step(g, Yes, In(Leave(Rejected(NoCapacity))), w);
        return Some(Rejected(NoCapacity));
      }
      Step(g, Yes, In(FindGPUs), w);
      return None;
    }

    method CheckGPUs(g: nat, inv: Option<map<int, int>>) returns (refusal: Option<Outcome>)
      requires At(g, In(FindGPUs))
      modifies this, ports, powerMgr
      ensures Later(g) && Undisturbed()
      ensures At(g, if refusal.Some? then In(Leave(refusal.value)) else In(ScanClock))
      ensures refusal.None? <==> inv.Some? && forall x :: x in Gpus(cfg, threads[g].m) ==> x in inv.value
      ensures refusal.Some? ==> refusal.value == Failure
    {
      hide Run, Apply, CanGo, Sound, Reachable, Prefix;
      ghost var w := Snapshot();
      var ok := EnsureGPUsExist(inv, Gpus(cfg, threads[g].m));
      ghost var a := Listing(inv);
      AllowedCanGo(cfg, Snapshot(), g, a);
      LookApplies(cfg, w, g, a);
      Step(g, a, if ok then In(ScanClock) else In(Leave(Failure)), w);
      return if ok then None else Some(Failure);
    }

    /** From free GPUs to a route: exactly if memory, a port, limits, start and check all come through. */
    method Launch(g: nat, o: Outside) returns (out: Outcome)
      requires At(g, In(Vram))
      modifies this, ports, powerMgr
      ensures Later(g) && At(g, In(Leave(out))) && Fit(cfg, threads[g].m)
      ensures out.Routed? <==> threads[g].m in instances
      ensures out.Routed? <==>
              && Roomy(cfg, threads[g].m, o.free) && |old(instances)| <= ports.end - ports.start
              && LimitsAccepted(cfg, threads[g].m, o.refused) && o.starts && o.verifies
      ensures out.Rejected? ==> out.reason == LowMemory || out.reason == NoPorts
      ensures !out.Routed? ==> instances == old(instances) && ports.used == old(ports.used)
    {
      hide Run, Apply, CanGo, Sound, Reachable, Prefix, LimitsAccepted, Roomy, HasRoom, RunsLow;
      GPUsFreed(cfg, Snapshot(), g);
      AlwaysSchedulable(cfg, Snapshot(), g);
      var refusal := CheckVRAM(g, o.free);
      if refusal.Some? {
        return refusal.value;
      }
      out := LaunchOnPort(g, o);
    }

    method LaunchOnPort(g: nat, o: Outside) returns (out: Outcome)
      requires At(g, In(TakePort)) && threads[g].m !in instances
      modifies this, ports, powerMgr
      ensures Later(g) && At(g, In(Leave(out)))
      ensures out.Routed? <==> threads[g].m in instances
      ensures out.Routed? <==>
              && |old(instances)| <= ports.end - ports.start && LimitsAccepted(cfg, threads[g].m, o.refused)
              && o.starts && o.verifies
      ensures !out.Routed? ==> instances == old(instances) && ports.used == old(ports.used)
      ensures out.Rejected? ==> out.reason == NoPorts
    {
      hide Run, Apply, CanGo, Sound, Reachable, Prefix, LimitsAccepted;
      var i := NewInstance(g);
      if i.None? {
        return Rejected(NoPorts);
      }
      out := LaunchAndRegister(g, i.value, o);
    }

    method LaunchAndRegister(g: nat, i: nat, o: Outside) returns (out: Outcome)
      requires At(g, In(ApplyPower(i))) && i < |insts|
      modifies this, ports, powerMgr
      ensures Later(g) && At(g, In(Leave(out))) && threads[g].m in cfg.config.models
      ensures out.Routed? <==> LimitsAccepted(cfg, threads[g].m, o.refused) && o.starts && o.verifies
      ensures out.Routed? ==> instances == old(instances)[threads[g].m := i] && ports.used == old(ports.used)
      ensures !out.Routed? ==>
                out == Failure && instances == old(instances) && ports.used == old(ports.used) - {old(insts[i].port)}
    {
      hide Run, Apply, CanGo, Sound, Reachable, Prefix, LimitsAccepted;
      var ok := LaunchInstance(g, i, o);
      if !ok {
        return Failure;
      }
      var r := RegisterInstance(g, i);
      return Routed(r);
    }

    method CheckVRAM(g: nat, inv: Option<map<int, int>>) returns (refusal: Option<Outcome>)
      requires At(g, In(Vram))
      modifies this, ports, powerMgr
      ensures Later(g) && Undisturbed() && Fit(cfg, threads[g].m)
      ensures At(g, if refusal.Some? then In(Leave(refusal.value)) else In(TakePort))
      ensures refusal.None? <==> inv.Some? && forall x :: x in Gpus(cfg, threads[g].m) ==>
                                   HasRoom(inv.value, x, cfg.config.models[threads[g].m].minFreeMB.value)
      ensures refusal.None? <==> Roomy(cfg, threads[g].m, inv)
      ensures refusal == Some(Rejected(LowMemory)) <==>
              inv.Some? && RunsLow(inv.value, Gpus(cfg, threads[g].m), cfg.config.models[threads[g].m].minFreeMB.value)
      ensures refusal.Some? ==> refusal.value == Rejected(LowMemory) || refusal.value == Failure
    {
      hide Run, Apply, CanGo, Sound, Reachable, Prefix, RunsLow, MemoryRefusal;
      ghost var w := Snapshot();
      AlwaysSchedulable(cfg, Snapshot(), g);
      var mc := cfg.config.models[threads[g].m];
      refusal := EnsureFreeVRAM(inv, mc.gpus, mc.minFreeMB.value);
      ghost var a := Listing(inv);
      AllowedCanGo(cfg, Snapshot(), g, a);
      LookApplies(cfg, w, g, a);
      Step(g, a, if refusal.None? then In(TakePort) else In(Leave(refusal.value)), w);
    }

    /** Gives the permit back. */
    method Release(g: nat, out: Outcome)
      requires At(g, In(Leave(out)))
      modifies this, ports, powerMgr
      ensures Later(g) && At(g, Finished(out))
    {
      hide Run, Apply, CanGo, Sound, Reachable, Prefix;
      ghost var w := Snapshot();
      assert Allowed(cfg, w, g, Yes);
      ReleaseApplies(cfg, w, g, out);
      sched := None;
      Step(g, Yes, Finished(out), w);
    }

    /** A goroutine begins: the event is its arrival, the thread what it starts as. */
    method Arrive(e: Event, t: Thread) returns (g: nat)
      requires Valid() && !e.Go? && !e.Beside? && Apply(cfg, Snapshot(), e) == Snapshot().(threads := threads + [t])
      modifies this, ports, powerMgr
      ensures g == old(|threads|) && g < |threads| && At(g, t.pc) && threads[g].m == t.m && epoch == old(epoch)
      ensures forall es :: Prefix(es, old(trace)) ==> Prefix(es, trace)
    {
      RunOneMore(cfg, epoch, trace, e);
      g := |threads|;
      threads := threads + [t];
      trace := trace + [e];
      Others(g);
    }

    /**
     Ends in a state of some run that continues the one before, with neither the permit nor a waiter's place
     left behind; a route leads to an instance of the model the request resolves to, and there is one if that
     model had a live instance when first looked for, in a state the run passes through.
     */
    method AcquireRoute(requested: string, o: Outside) returns (g: nat, out: Outcome, ghost at: seq<Event>)
      requires Valid()
      modifies this, ports, powerMgr
      ensures Valid() && epoch == old(epoch) && old(trace) <= at <= trace
      ensures g == old(|threads|) && g < |threads| && threads[g].pc == Finished(out)
      ensures sched != Some(g) && forall m :: !WaitsFor(Snapshot(), g, m)
      ensures ResolveModel(cfg.config.models, requested).Err? ==> out == Failure
      ensures ResolveModel(cfg.config.models, requested).Ok? ==>
              && threads[g].m == ResolveModel(cfg.config.models, requested).value.0
              && (HasLive(Run(cfg, epoch, at).core, threads[g].m) ==> out.Routed?)
      ensures LeaveFacts(cfg, Snapshot().core, threads[g].m, out)
    {
      hide Run, Apply, CanGo, Sound, Reachable, Prefix, LeaveFacts;
      PrefixMeans(trace);
      CallApplies(cfg, Snapshot(), requested);
      match ResolveModel(cfg.config.models, requested) {
        case Err(_) =>
          out := Failure;
          g := Arrive(Call(requested), Thread(requested, Finished(Failure)));
          at := trace;
          assert Prefix(old(trace), at);
        case Ok(r) =>
          g := Arrive(Call(requested), Thread(r.0, Entered));
          PrefixMeans(trace);
          assert Prefix(old(trace), trace);
          out, at := Acquire(g, o);
      }
      PrefixMeans(at);
      Returned(cfg, Snapshot(), g);
    }

    method Acquire(g: nat, o: Outside) returns (out: Outcome, ghost at: seq<Event>)
      requires At(g, Entered)
      modifies this, ports, powerMgr
      ensures Later(g) && At(g, Finished(out)) && Prefix(old(trace), at) && Prefix(at, trace)
      ensures HasLive(Run(cfg, epoch, at).core, threads[g].m) ==> out.Routed?
    {
      hide Run, Apply, CanGo, Sound, Reachable, Prefix, HasLive;
      var r, look := TryRouteReady(g, false);
      at := look;
      if r.Some? {
        return Routed(r.value), at;
      }
      out := AcquireSlowly(g, o);
    }

    /** No ready instance: scheduling is required. */
    method AcquireSlowly(g: nat, o: Outside) returns (out: Outcome)
      requires At(g, Wanting)
      modifies this, ports, powerMgr
      ensures Later(g) && At(g, Finished(out))
    {
      hide Run, Apply, CanGo, Sound, Reachable, Prefix;
      var err, _ := AcquirePermitOrReject(g);
      if err.Some? {
        return err.value;
      }
      out := Schedule(g, o);
      Release(g, out);
    }

    method ListInstances() returns (all: seq<nat>)
      requires Indexed()
      ensures Enumerates(Snapshot().core, all)
    {
      all := [];
      var todo := instances.Keys;
      while todo != {}
        invariant todo <= instances.Keys && InBounds(Snapshot().core, all) && NoRepeats(all)
        invariant forall i: nat :: i in all <==> Registered(Snapshot().core, i) && insts[i].model !in todo
      {
        var m :| m in todo;
        todo := todo - {m};
        all := all + [instances[m]];
      }
    }

    /** StopAll, if the permit is free when it asks, in a state that the run passes through; then the registry
        and the pool are empty in a later one.  Otherwise the code goes on without the permit, which is not part
        of this model. */
    method StopAll() returns (g: nat, acquired: bool, ghost at: seq<Event>, ghost done: seq<Event>)
      requires Valid()
      modifies this, ports, powerMgr
      ensures Valid() && g == old(|threads|) && g < |threads| && epoch == old(epoch)
      ensures old(trace) <= at <= done <= trace
      ensures acquired <==> Run(cfg, epoch, at).permit == None
      ensures acquired ==> Run(cfg, epoch, done).core.registry == map[] && Run(cfg, epoch, done).core.used == {}
      ensures acquired ==> threads[g].pc == Finished(AllStopped)
    {
      hide Run, Apply, CanGo, Sound, Reachable, Prefix;
      PrefixMeans(trace);
      CallApplies(cfg, Snapshot(), "");
      g := Arrive(CallStop, Thread("", StopWanting));
      assert Prefix(old(trace), trace);
      at, done := trace, trace;
      PrefixMeans(at);
      if sched != None {
        return g, false, at, done;
      }
      acquired := true;
      StopEach(g);
      done := trace;
      PrefixMeans(done);
      assert Prefix(at, done);
      Release(g, AllStopped);
      assert Prefix(done, trace);
      PrefixMeans(trace);
    }

    method StopEach(g: nat)
      requires At(g, StopWanting) && sched == None
      modifies this, ports, powerMgr
      ensures Later(g) && At(g, In(Leave(AllStopped))) && instances == map[] && ports.used == {}
    {
      hide Run, Apply, CanGo, Sound, Reachable, Prefix;
      TakePermit(g);
      var all := ScanInstances(g);
      StopListed(g, all);
    }

    /** StopAll's loop. */
    method StopListed(g: nat, all: seq<nat>)
      requires At(g, In(StopLoop(all, 0)))
      modifies this, ports, powerMgr
      ensures Later(g) && At(g, In(Leave(AllStopped))) && instances == map[] && ports.used == {}
    {
      hide Run, Apply, CanGo, Sound, Reachable, Prefix;
      for k := 0 to |all|
        invariant Later(g) && At(g, In(StopLoop(all, k)))
      {
        StopNext(g, all, k);
      }
      LeaveStopped(g, all);
    }

    method TakePermit(g: nat)
      requires At(g, StopWanting) && sched == None
      modifies this, ports, powerMgr
      ensures Later(g) && At(g, In(StopScan))
    {
      hide Run, Apply, CanGo, Sound, Reachable, Prefix;
      ghost var w := Snapshot();
      assert Allowed(cfg, w, g, Yes);
      OuterApplies(cfg, w, g, Yes);
      sched := Some(g);
      Step(g, Yes, In(StopScan), w);
    }

    method StopNext(g: nat, all: seq<nat>, k: nat)
      requires At(g, In(StopLoop(all, k))) && k < |all|
      modifies this, ports, powerMgr
      ensures Later(g) && At(g, In(StopLoop(all, k + 1)))
    {
      hide Run, Apply, CanGo, Sound, Reachable, Prefix;
      StillThere(cfg, Snapshot(), g);
      DrainAndStopInstance(g, all[k], AfterStop(all, k));
    }

    method ScanInstances(g: nat) returns (all: seq<nat>)
      requires At(g, In(StopScan))
      modifies this, ports, powerMgr
      ensures Later(g) && At(g, In(StopLoop(all, 0)))
    {
      hide Run, Apply, CanGo, Sound, Reachable, Prefix;
      ghost var w := Snapshot();
      all := ListInstances();
      ghost var a := Order(all);
      AllowedCanGo(cfg, Snapshot(), g, a);
      LookApplies(cfg, w, g, a);
      Step(g, a, In(StopLoop(all, 0)), w);
    }

    method LeaveStopped(g: nat, all: seq<nat>)
      requires At(g, In(StopLoop(all, |all|)))
      modifies this, ports, powerMgr
      ensures Later(g) && At(g, In(Leave(AllStopped))) && instances == map[] && ports.used == {}
    {
      hide Run, Apply, CanGo, Sound, Reachable, Prefix;
      ghost var w := Snapshot();
      assert Allowed(cfg, w, g, Yes);
      StopLoopApplies(cfg, w, g, all, |all|);
      AllGone(cfg, Snapshot(), g, all);
      Step(g, Yes, In(Leave(AllStopped)), w);
    }
  }
}
