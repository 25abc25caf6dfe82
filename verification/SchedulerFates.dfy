/** What happens next, from any reachable state: draining, eviction's exits, progress, and crashed models. */
module SchedulerFates {
  import opened Wrappers
  import opened SchedulerCore
  import opened SchedulerInvariant
  import opened SchedulerFrame
  import opened SchedulerOrder
  import opened SchedulerRuns
  import opened SchedulerRunsInvariant
  import opened SchedulerTheorems

  // ----- a draining instance only empties -----

  /** Draining is for good, and a draining instance's count never rises. */
  ghost predicate OnlyEmpties(k: Core, k': Core)
  {
    && |k.insts| <= |k'.insts|
    && (forall i :: 0 <= i < |k.insts| && k.insts[i].draining ==>
          k'.insts[i].draining && k'.insts[i].inflight.count <= k.insts[i].inflight.count)
  }

  lemma DrainOnlyEmpties(c: Settings, k: Core, i: nat, phase: Drain, ret: Ret, a: Answer)
    requires i < |k.insts|
    ensures OnlyEmpties(k, DrainStep(c, k, i, phase, ret, a).0)
  {
  }

  lemma LaunchOnlyEmpties(c: Settings, m: string, k: Core, s: Sec, a: Answer)
    requires Enabled(c, m, k, s, a) && Launches(s)
    ensures OnlyEmpties(k, LaunchStep(c, m, k, s, a).0)
  {
  }

  lemma SectionOnlyEmpties(c: Settings, g: nat, m: string, k: Core, s: Sec, a: Answer)
    requires Enabled(c, m, k, s, a) && !s.Leave? && RouteFacts(c, k, m, s)
    ensures OnlyEmpties(k, SecStep(c, g, m, k, s, a).0)
  {
    if Launches(s) {
      LaunchOnlyEmpties(c, m, k, s, a);
    } else if s.Draining? {
      DrainOnlyEmpties(c, k, s.i, s.phase, s.ret, a);
    }
  }

  lemma EnvOnlyEmpties(k: Core, e: Env)
    requires EnvEnabled(k, e) && CountInv(k)
    ensures OnlyEmpties(k, EnvStep(k, e))
  {
    if e.DoneInst? && !k.routes[e.r].instDone {
      DoneInstCounts(k, e.r);
    }
  }

  lemma OuterOnlyEmpties(c: Settings, w: World, g: nat, a: Answer)
    requires CanGo(c, w, g, a) && !w.threads[g].pc.In?
    ensures OnlyEmpties(w.core, OuterStep(c, w, g, a).core)
  {
  }

  /** Once an instance is marked draining no step of any goroutine, and nothing else, adds a request to it. */
  lemma DrainingOnlyFalls(c: Settings, w: World, e: Event)
    requires Reachable(c, w) && CanHappen(c, w, e)
    ensures OnlyEmpties(w.core, Apply(c, w, e).core)
  {
    ReachableInv(c, w);
    if e.Beside? {
      EnvOnlyEmpties(w.core, e.e);
    } else if e.Go? && !w.threads[e.g].pc.In? {
      OuterOnlyEmpties(c, w, e.g, e.a);
    } else if e.Go? && !w.threads[e.g].pc.s.Leave? {
      assert HoldOf(w) == Holds(w.threads[e.g].m, w.threads[e.g].pc.s);
      SectionOnlyEmpties(c, e.g, w.threads[e.g].m, w.core, w.threads[e.g].pc.s, e.a);
    }
  }

  // ----- what only the permit holder changes -----

  /** What never changes about an instance once its start has been recorded; stopping is for good. */
  predicate Same(a: Inst, b: Inst)
  {
    && b.model == a.model && b.port == a.port && b.gpus == a.gpus && b.pinned == a.pinned && b.startedAt == a.startedAt
    && (a.stopped ==> b.stopped)
  }

  predicate AllSame(a: seq<Inst>, b: seq<Inst>)
  {
    |a| <= |b| && forall i :: 0 <= i < |a| ==> Same(a[i], b[i])
  }

  /** Registry, ports and limits are as they were, and no instance has become another one. */
  predicate Untouched(k: Core, k': Core)
  {
    k'.registry == k.registry && k'.used == k.used && k'.power == k.power && AllSame(k.insts, k'.insts)
  }

  lemma OuterTouchesNothing(c: Settings, w: World, g: nat, a: Answer)
    requires CanGo(c, w, g, a) && !w.threads[g].pc.In?
    ensures Untouched(w.core, OuterStep(c, w, g, a).core)
  {
  }

  /** Registry, ports and limits belong to the permit holder: nobody else changes them. */
  lemma OthersTouchNothing(c: Settings, w: World, e: Event, g: nat)
    requires CanHappen(c, w, e) && PermitInv(w) && g < |w.threads| && HasPermit(w.threads[g].pc) && !(e.Go? && e.g == g)
    ensures Untouched(w.core, Apply(c, w, e).core)
  {
    if e.Go? {
      OuterTouchesNothing(c, w, e.g, e.a);
    }
  }

  lemma HolderUndisturbed(c: Settings, w: World, e: Event, g: nat)
    requires Reachable(c, w) && CanHappen(c, w, e) && g < |w.threads| && HasPermit(w.threads[g].pc)
             && !(e.Go? && e.g == g)
    ensures Untouched(w.core, Apply(c, w, e).core)
  {
    ReachableInv(c, w);
    OthersTouchNothing(c, w, e, g);
  }

  // ----- what the eviction order goes by -----

  /** The clock reading with which the event may route a request. */
  function Reading(w: World, e: Event): Option<int>
  {
    if e.Go? && e.g < |w.threads| && w.threads[e.g].pc.Probing? then Some(w.threads[e.g].pc.t)
    else if e.Go? && e.g < |w.threads| && w.threads[e.g].pc.In? && w.threads[e.g].pc.s.Reprobe?
      then Some(w.threads[e.g].pc.s.t)
    else None
  }

  /** From k to k' instance i's last use is the given reading if a request was routed to i with it, and stays
      what it was otherwise. */
  predicate UseRecorded(k: Core, k': Core, reading: Option<int>, i: nat)
  {
    && i < |k.insts| && i < |k'.insts|
    && k'.insts[i].lastUsedAt ==
       if |k'.routes| > |k.routes| && k'.routes[|k.routes|].inst == i && reading.Some? then reading.value
         else k.insts[i].lastUsedAt
  }

  lemma LaunchRecordsUse(c: Settings, m: string, k: Core, s: Sec, a: Answer, i: nat)
    requires Launches(s) && SecInBounds(k, s) && m in c.config.models && i < |k.insts| && (s.RevertFailed? || s.i != i)
    ensures UseRecorded(k, LaunchStep(c, m, k, s, a).0, None, i)
  {
  }

  lemma DrainRecordsUse(c: Settings, k: Core, s: Sec, a: Answer, i: nat)
    requires s.Draining? && s.i < |k.insts| && i < |k.insts|
    ensures UseRecorded(k, DrainStep(c, k, s.i, s.phase, s.ret, a).0, None, i)
  {
  }

  lemma SectionRecordsUse(c: Settings, g: nat, m: string, k: Core, s: Sec, a: Answer, i: nat)
    requires Enabled(c, m, k, s, a) && !s.Leave? && i < |k.insts| && (HandOf(Holds(m, s)) != Some(i))
    ensures UseRecorded(k, SecStep(c, g, m, k, s, a).0, if s.Reprobe? then Some(s.t) else None, i)
  {
    if Launches(s) {
      LaunchRecordsUse(c, m, k, s, a, i);
    } else if s.Draining? {
      DrainRecordsUse(c, k, s, a, i);
    }
  }

  lemma HolderIs(c: Settings, w: World, g: nat)
    requires Reachable(c, w) && g < |w.threads| && w.threads[g].pc.In?
    ensures HoldOf(w) == Holds(w.threads[g].m, w.threads[g].pc.s)
  {
    ReachableInv(c, w);
  }

  lemma HandNotRegistered(c: Settings, w: World, i: nat)
    requires Reachable(c, w) && Registered(w.core, i)
    ensures HandOf(HoldOf(w)) != Some(i)
  {
    ReachableInv(c, w);
  }

  lemma OuterRecordsUse(c: Settings, w: World, g: nat, a: Answer, i: nat)
    requires CanGo(c, w, g, a) && !w.threads[g].pc.In? && i < |w.core.insts|
    ensures UseRecorded(w.core, OuterStep(c, w, g, a).core, Reading(w, Go(g, a)), i)
  {
  }

  /** A registered instance's last use is set by routing a request to it, to the reading the request took
      first, and by nothing else. */
  lemma LastUseIsLastRoute(c: Settings, w: World, e: Event, i: nat)
    requires Reachable(c, w) && CanHappen(c, w, e) && Registered(w.core, i)
    ensures UseRecorded(w.core, Apply(c, w, e).core, Reading(w, e), i)
  {
    hide Reachable;
    if e.Go? && !w.threads[e.g].pc.In? {
      OuterRecordsUse(c, w, e.g, e.a, i);
    } else if e.Go? && !w.threads[e.g].pc.s.Leave? {
      HolderIs(c, w, e.g);
      HandNotRegistered(c, w, i);
      SectionRecordsUse(c, e.g, w.threads[e.g].m, w.core, w.threads[e.g].pc.s, e.a, i);
    }
  }

  // ----- the exits of evictConflicts -----

  /** The first n of the sorted conflicts are gone: stopped, unregistered, not pinned, old enough at time t. */
  ghost predicate PrefixEvicted(c: Settings, k: Core, ev: Eviction, n: nat)
  {
    && InBounds(k, ev.order) && n <= |ev.order| == |ev.keys|
    && (forall a, b :: 0 <= a < b < |ev.keys| ==> ev.keys[a] <= ev.keys[b])
    && (forall j :: 0 <= j < n ==>
          var inst := k.insts[ev.order[j]];
          inst.stopped && !Registered(k, ev.order[j]) && !inst.pinned && ev.t - inst.startedAt >= MinUptimeOf(c))
  }

  /** What the invariant says about the goroutine in the section. */
  lemma SectionFactsHold(c: Settings, w: World, g: nat)
    requires Reachable(c, w) && g < |w.threads| && w.threads[g].pc.In?
    ensures var m, s := w.threads[g].m, w.threads[g].pc.s;
            && HoldOf(w) == Holds(m, s) && InstsInv(c, w.core) && (Scheduling(s) ==> Canonical(c, m))
               && SecInBounds(w.core, s)
            && SecFacts(c, w.core, m, s)
  {
    ReachableInv(c, w);
    assert HoldOf(w) == Holds(w.threads[g].m, w.threads[g].pc.s);
  }

  /** Goroutine g is scheduling model m and stands at s. */
  ghost predicate Stands(w: World, g: nat, m: string, s: Sec)
  {
    g < |w.threads| && w.threads[g] == Thread(m, In(s))
  }

  /** The step of its own that brought a goroutine to where it stands. */
  lemma {:induction false} LastMove(c: Settings, now: int, es: seq<Event>, g: nat, m: string, s: Sec)
      returns (j: nat, a: Answer)
    requires Stands(Run(c, now, es), g, m, s)
    ensures j < |es| && es[j] == Go(g, a) && CanGo(c, Run(c, now, es[..j]), g, a)
    ensures Stands(Apply(c, Run(c, now, es[..j]), Go(g, a)), g, m, s)
  {
    var n := |es| - 1;
    var w := Run(c, now, es[..n]);
    if es[n].Go? && es[n].g == g && CanHappen(c, w, es[n]) {
      j, a := n, es[n].a;
    } else {
      assert Stands(w, g, m, s);
      j, a := LastMove(c, now, es[..n], g, m, s);
      assert es[..n][..j] == es[..j];
    }
  }

  /** The eviction loop a step belongs to. */
  function EvictionOf(s: Sec): Option<Eviction>
  {
    if s.Evict? || s.Still? then Some(s.ev)
    else if s.Draining? && s.ret.AfterEvict? then Some(s.ret.ev)
    else None
  }

  /** In w the goroutine is about to turn the list found into this eviction: least recent use first. */
  ghost predicate SortsNow(w: World, g: nat, m: string, found: seq<nat>, ev: Eviction)
  {
    && Stands(w, g, m, Sort(ev.t, found))
    && Sorts(w.core, found, ev.order) && ev.keys == Keys(w.core, ev.order)
  }

  /** In w it is about to list the conflicts, none of them pinned. */
  ghost predicate ListsNow(c: Settings, w: World, g: nat, m: string, t: int, found: seq<nat>)
  {
    Stands(w, g, m, Scan(t)) && Lists(w.core, Gpus(c, m), found) && !PinnedAmong(w.core, Gpus(c, m))
  }

  lemma IntoScan(c: Settings, w: World, g: nat, a: Answer, m: string, t: int)
    requires CanGo(c, w, g, a) && Stands(Apply(c, w, Go(g, a)), g, m, Scan(t))
    ensures Stands(w, g, m, ScanClock) && w.core.now == t
  {
  }

  lemma IntoSort(c: Settings, w: World, g: nat, a: Answer, m: string, t: int, found: seq<nat>)
    requires CanGo(c, w, g, a) && Stands(Apply(c, w, Go(g, a)), g, m, Sort(t, found))
    ensures ListsNow(c, w, g, m, t, found)
  {
  }

  lemma LookIntoEviction(c: Settings, m: string, k: Core, s: Sec, a: Answer)
    requires Enabled(c, m, k, s, a) && Looks(s)
    ensures var s' := LookStep(c, m, k, s, a); EvictionOf(s').Some? ==>
              && (s.Sort? || s.Still?)
              && (s.Sort? ==> Sorts(k, s.found, a.order) && s' == Evict(Eviction(s.t, a.order, Keys(k, a.order), 0)))
              && (s.Still? ==> s' == Evict(s.ev.(k := s.ev.k + 1)))
  {
  }

  lemma DrainIntoEviction(c: Settings, k: Core, s: Sec, a: Answer)
    requires s.Draining? && s.i < |k.insts|
    ensures var s' := DrainStep(c, k, s.i, s.phase, s.ret, a).1; EvictionOf(s') == EvictionOf(s)
  {
  }

  /** A step of the loop leaves all but its index as it is. */
  ghost predicate GoesOn(k: Core, s: Sec, s': Sec)
    requires EvictionOf(s').Some?
  {
    && (s.Sort? || EvictionOf(s).Some?)
    && (s.Sort? ==> var ev := EvictionOf(s').value;
          ev.t == s.t && Sorts(k, s.found, ev.order) && ev.keys == Keys(k, ev.order))
    && (EvictionOf(s).Some? ==> EvictionOf(s').value == EvictionOf(s).value.(k := EvictionOf(s').value.k))
  }

  lemma SectionIntoEviction(c: Settings, g: nat, m: string, k: Core, s: Sec, a: Answer)
    requires Enabled(c, m, k, s, a) && !s.Leave?
    ensures var s' := SecStep(c, g, m, k, s, a).1; EvictionOf(s').Some? ==> GoesOn(k, s, s')
  {
    hide LookStep, DrainStep, Sorts, Keys;
    if Looks(s) {
      LookIntoEviction(c, m, k, s, a);
    } else if s.Draining? {
      DrainIntoEviction(c, k, s, a);
    }
  }

  lemma IntoEviction(c: Settings, w: World, g: nat, a: Answer, m: string, s: Sec, s': Sec)
    requires CanGo(c, w, g, a) && Stands(w, g, m, s) && Stands(Apply(c, w, Go(g, a)), g, m, s')
    requires EvictionOf(s').Some?
    ensures GoesOn(w.core, s, s')
  {
    hide GoesOn, SecStep, Enabled;
    if !s.Leave? {
      assert CanGo(c, w, g, a) ==> Enabled(c, m, w.core, s, a);
      SectionIntoEviction(c, g, m, w.core, s, a);
    }
  }

  lemma {:induction false} SortCame(c: Settings, now: int, es: seq<Event>, g: nat, m: string, s: Sec)
      returns (j: nat, found: seq<nat>)
    requires Stands(Run(c, now, es), g, m, s) && EvictionOf(s).Some?
    ensures j < |es| && SortsNow(Run(c, now, es[..j]), g, m, found, EvictionOf(s).value)
    decreases |es|
  {
    var i, a := LastMove(c, now, es, g, m, s);
    var w := Run(c, now, es[..i]);
    var s' := w.threads[g].pc.s;
    IntoEviction(c, w, g, a, m, s', s);
    if s'.Sort? {
      j, found := i, s'.found;
    } else {
      j, found := SortCame(c, now, es[..i], g, m, s');
      assert es[..i][..j] == es[..j];
    }
  }

  /** The instants i < j < n at which goroutine g read the clock, listed the conflicts and sorted them by their
      last uses, with this eviction as the result. */
  ghost predicate Chosen(c: Settings, now: int, es: seq<Event>, g: nat, m: string, ev: Eviction, i: nat, j: nat, n: nat)
  {
    && i < j < n < |es|
    && var read, scan, sort := Run(c, now, es[..i]), Run(c, now, es[..j]), Run(c, now, es[..n]);
    && Stands(read, g, m, ScanClock) && read.core.now == ev.t
    && exists found :: ListsNow(c, scan, g, m, ev.t, found) && SortsNow(sort, g, m, found, ev)
  }

  /** An eviction's order is that of the last uses at one instant of the run, of all conflicts at an earlier
      one, and its ages are measured against a clock reading from before. */
  lemma EvictionIsChosen(c: Settings, now: int, es: seq<Event>, g: nat, m: string, s: Sec)
    requires Stands(Run(c, now, es), g, m, s) && EvictionOf(s).Some?
    ensures exists i, j, n :: Chosen(c, now, es, g, m, EvictionOf(s).value, i, j, n)
  {
    var ev := EvictionOf(s).value;
    var n, found := SortCame(c, now, es, g, m, s);
    var j, a := LastMove(c, now, es[..n], g, m, Sort(ev.t, found));
    assert es[..n][..j] == es[..j];
    IntoSort(c, Run(c, now, es[..j]), g, a, m, ev.t, found);
    var i, b := LastMove(c, now, es[..j], g, m, Scan(ev.t));
    assert es[..j][..i] == es[..i];
    IntoScan(c, Run(c, now, es[..i]), g, b, m, ev.t);
    assert Chosen(c, now, es, g, m, ev, i, j, n);
  }

  lemma LoopFacts(c: Settings, w: World, g: nat, m: string, s: Sec)
    requires Reachable(c, w) && Stands(w, g, m, s) && (s.Evict? || s.Still?)
    ensures var n := if s.Evict? then s.ev.k else s.ev.k + 1;
            && PrefixEvicted(c, w.core, s.ev, n)
            && (forall i: nat :: Conflict(w.core, Gpus(c, m), i) <==> i in s.ev.order[n..])
  {
    SectionFactsHold(c, w, g);
  }

  /** At the head of the eviction loop and after a drain, what has been evicted is a prefix of the conflicts in
      order of their last uses, and exactly the rest of them still stands. */
  lemma EvictionIsLruPrefix(c: Settings, now: int, es: seq<Event>, g: nat, m: string, s: Sec)
    requires Sound(c, now) && Stands(Run(c, now, es), g, m, s) && (s.Evict? || s.Still?)
    ensures var k, n := Run(c, now, es).core, if s.Evict? then s.ev.k else s.ev.k + 1;
            && (exists i, j, l :: Chosen(c, now, es, g, m, s.ev, i, j, l))
            && PrefixEvicted(c, k, s.ev, n)
            && (forall i: nat :: Conflict(k, Gpus(c, m), i) <==> i in s.ev.order[n..])
  {
    hide Run, Chosen;
    EvictionIsChosen(c, now, es, g, m, s);
    LoopFacts(c, Run(c, now, es), g, m, s);
  }

  ghost predicate EvictionLeft(c: Settings, m: string, k: Core, s: Sec, k': Core, s': Sec)
  {
    && (s'.Vram? ==> !SomeConflict(k', Gpus(c, m)))
    && (s'.Leave? ==>
          && s'.outcome == Rejected(MinUptime) && s.Evict? && s.ev.k < |s.ev.order|
             && s.ev.order[s.ev.k] < |k.insts| && k' == k
          && Registered(k, s.ev.order[s.ev.k]) && s.ev.t - k.insts[s.ev.order[s.ev.k]].startedAt < MinUptimeOf(c)
          && PrefixEvicted(c, k, s.ev, s.ev.k))
  }

  lemma EvictExit(c: Settings, m: string, k: Core, s: Sec)
    requires SecInBounds(k, s) && s.Evict? && EvictingFacts(c, k, Gpus(c, m), s)
    ensures var r := EvictStep(c, k, Gpus(c, m), s.ev); EvictionLeft(c, m, k, s, r.0, r.1)
  {
  }

  lemma LookExit(c: Settings, m: string, k: Core, s: Sec, a: Answer)
    requires Enabled(c, m, k, s, a) && (s.Still? || s.Final?) && PlaceFacts(c, k, m, s)
    ensures EvictionLeft(c, m, k, s, k, LookStep(c, m, k, s, a))
  {
  }

  lemma LoopExit(c: Settings, g: nat, m: string, k: Core, s: Sec, a: Answer)
    requires Enabled(c, m, k, s, a) && (s.Evict? || s.Still? || s.Final?)
    requires PlaceFacts(c, k, m, s) && EvictingFacts(c, k, Gpus(c, m), s)
    ensures var r := SecStep(c, g, m, k, s, a); EvictionLeft(c, m, k, s, r.0, r.1)
  {
    if s.Evict? {
      EvictExit(c, m, k, s);
    } else {
      LookExit(c, m, k, s, a);
    }
  }

  /** Leaving the loop: either no conflict is left, or the next victim is too young and stays registered. */
  lemma EvictionExits(c: Settings, w: World, g: nat, a: Answer)
    requires Reachable(c, w) && CanGo(c, w, g, a) && w.threads[g].pc.In?
    requires w.threads[g].pc.s.Evict? || w.threads[g].pc.s.Still? || w.threads[g].pc.s.Final?
    ensures var m, s := w.threads[g].m, w.threads[g].pc.s;
            var r := SecStep(c, g, m, w.core, s, a);
            EvictionLeft(c, m, w.core, s, r.0, r.1)
  {
    SectionFactsHold(c, w, g);
    LoopExit(c, g, w.threads[g].m, w.core, w.threads[g].pc.s, a);
  }

  // ----- progress -----

  /** The answer that keeps a section going whatever the outside world does. */
  function SomeAnswer(c: Settings, m: string, k: Core, s: Sec): Answer
    requires SecInBounds(k, s)
  {
    if s.Scan? then Order(Conflicts(k, Gpus(c, m), |k.insts|))
    else if s.Sort? then Order(SortUse(k, s.found))
    else if s.StopScan? then Order(AllRegistered(k, |k.insts|))
    else No
  }

  lemma SomeAnswerFits(c: Settings, m: string, k: Core, s: Sec)
    requires InstsInv(c, k) && SecInBounds(k, s) && (Scheduling(s) ==> Canonical(c, m))
             && (s.Sort? ==> NoRepeats(s.found))
    ensures Enabled(c, m, k, s, SomeAnswer(c, m, k, s))
  {
    if s.Sort? {
      SortUseSorts(k, s.found);
    }
  }

  /** Whoever holds the permit can always take its next step: no reachable state wedges the scheduler. */
  lemma HolderNeverStuck(c: Settings, w: World, g: nat)
    requires Reachable(c, w) && w.permit == Some(g)
    ensures exists a :: CanGo(c, w, g, a)
  {
    ReachableInv(c, w);
    var pc := w.threads[g].pc;
    if pc.In? {
      assert HoldOf(w) == Holds(w.threads[g].m, pc.s);
      SomeAnswerFits(c, w.threads[g].m, w.core, pc.s);
      assert CanGo(c, w, g, SomeAnswer(c, w.threads[g].m, w.core, pc.s));
    } else {
      assert pc.Granted?;
      assert CanGo(c, w, g, No);
    }
  }
}
