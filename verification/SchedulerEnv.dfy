/** Steps beside the permit holder keep the invariant: the clock, crashes, fast-path routing and Done calls. */
module SchedulerEnv {
  import opened Wrappers
  import opened SchedulerCore
  import opened SchedulerInvariant
  import opened SchedulerFrame

  /** Only in-flight counts, liveness, last-use times, routes and the clock may differ. */
  ghost predicate SameScheduling(k: Core, k': Core)
  {
    && |k'.insts| == |k.insts| && k'.registry == k.registry && k'.used == k.used
    && k'.power == k.power && k'.powerClean == k.powerClean && k'.nextChan == k.nextChan && k'.now >= k.now
    && (forall i :: 0 <= i < |k.insts| ==>
          k'.insts[i] == k.insts[i].(alive := k'.insts[i].alive, lastUsedAt := k'.insts[i].lastUsedAt,
            inflight := k'.insts[i].inflight))
  }

  ghost predicate RoutesGrow(k: Core, k': Core)
  {
    && |k.routes| <= |k'.routes|
    && (forall r :: 0 <= r < |k.routes| ==>
          && k'.routes[r].inst == k.routes[r].inst && k'.routes[r].owner == k.routes[r].owner
          && (k.routes[r].tracked ==> k'.routes[r].tracked))
  }

  lemma StandingUnaffected(k: Core, k': Core, target: seq<int>, order: seq<nat>, from: nat, current: Option<nat>)
    requires SameScheduling(k, k') && Standing(k, target, order, from, current)
    ensures Standing(k', target, order, from, current)
  {
    SameRegistered(k, k');
    forall i: nat | Conflict(k', target, i)
      ensures current == Some(i) || exists j :: from <= j < |order| && order[j] == i
    {
      assert Conflict(k, target, i);
    }
  }

  lemma EvictingUnaffected(c: Settings, k: Core, k': Core, target: seq<int>, s: Sec)
    requires SameScheduling(k, k') && SecInBounds(k, s) && SecInBounds(k', s) && EvictingFacts(c, k, target, s)
    ensures EvictingFacts(c, k', target, s)
  {
    SameRegistered(k, k');
    if s.Sort? {
      StandingUnaffected(k, k', target, s.found, 0, None);
    } else if s.Evict? {
      StandingUnaffected(k, k', target, s.ev.order, s.ev.k, None);
    } else if s.Still? {
      StandingUnaffected(k, k', target, s.ev.order, s.ev.k + 1, None);
    } else if s.Draining? && s.ret.AfterEvict? {
      StandingUnaffected(k, k', target, s.ret.ev.order, s.ret.ev.k + 1, Some(s.i));
    }
  }

  lemma StoppingUnaffected(k: Core, k': Core, s: Sec)
    requires SameScheduling(k, k') && StoppingFacts(k, s)
    ensures StoppingFacts(k', s)
  {
    SameRegistered(k, k');
  }

  lemma PlaceUnaffected(c: Settings, k: Core, k': Core, m: string, s: Sec)
    requires SameScheduling(k, k') && SecInBounds(k, s) && SecInBounds(k', s) && PlaceFacts(c, k, m, s)
    ensures PlaceFacts(c, k', m, s)
  {
    SameRegistered(k, k');
    if SomeConflict(k', Gpus(c, m)) {
      var i :| 0 <= i < |k'.insts| && Conflict(k', Gpus(c, m), i);
      assert Conflict(k, Gpus(c, m), i);
    }
  }

  lemma RoutesUnaffected(c: Settings, k: Core, k': Core, m: string, s: Sec)
    requires SameScheduling(k, k') && RoutesGrow(k, k') && SecInBounds(k, s) && SecInBounds(k', s)
             && RouteFacts(c, k, m, s)
    requires s.TrackTotal? ==> !k'.routes[s.r].tracked
    ensures RouteFacts(c, k', m, s)
  {
    SameRegistered(k, k');
  }

  lemma FactsUnaffected(c: Settings, k: Core, k': Core, m: string, s: Sec)
    requires SameScheduling(k, k') && RoutesGrow(k, k') && SecInBounds(k, s) && SecFacts(c, k, m, s)
    requires s.TrackTotal? ==> !k'.routes[s.r].tracked
    ensures SecInBounds(k', s) && SecFacts(c, k', m, s)
  {
    PlaceUnaffected(c, k, k', m, s);
    EvictingUnaffected(c, k, k', Gpus(c, m), s);
    StoppingUnaffected(k, k', s);
    RoutesUnaffected(c, k, k', m, s);
  }

  // ----- the steps -----

  lemma TouchDrains(k: Core, h: Hold, m: string, t: int, owner: nat)
    requires DrainInv(k, h) && EnvEnabled(k, Touch(m, t, owner)) && k.insts[ReadyInst(k, m).value].model == m
    ensures DrainInv(TouchAndTrack(k, ReadyInst(k, m).value, t, owner), h)
  {
    var k' := TouchAndTrack(k, ReadyInst(k, m).value, t, owner);
    assert SameScheduling(k, k');
    SameRegistered(k, k');
    forall i | 0 <= i < |k'.insts|
      ensures DrainOk(k', h, i)
    {
      assert DrainOk(k, h, i);
    }
  }

  lemma DoneDrains(k: Core, h: Hold, r: nat)
    requires DrainInv(k, h) && CountInv(k) && EnvEnabled(k, DoneInst(r))
    ensures DrainInv(EnvStep(k, DoneInst(r)), h)
  {
    var k' := EnvStep(k, DoneInst(r));
    assert SameScheduling(k, k');
    SameRegistered(k, k');
    if !k.routes[r].instDone {
      DoneInstCounts(k, r);
    }
    forall i | 0 <= i < |k'.insts|
      ensures DrainOk(k', h, i)
    {
      assert DrainOk(k, h, i);
    }
  }

  lemma OtherDrains(k: Core, h: Hold, e: Env)
    requires DrainInv(k, h) && EnvEnabled(k, e) && !e.Touch? && !e.DoneInst?
    ensures DrainInv(EnvStep(k, e), h)
  {
    var k' := EnvStep(k, e);
    forall i | 0 <= i < |k'.insts|
      ensures DrainOk(k', h, i)
    {
      assert DrainOk(k, h, i);
    }
  }

  lemma EnvCounts(k: Core, e: Env)
    requires CountInv(k) && EnvEnabled(k, e)
    ensures CountInv(EnvStep(k, e))
  {
    match e
    case Tick(_) =>
    case Crash(_) =>
    case Touch(m, t, owner) =>
      var i := ReadyInst(k, m).value;
      var k0 := SetInst(k, i, k.insts[i].(lastUsedAt := t));
      assert CountInv(k0);
      TrackCounts(k0, i, owner);
    case CountTotal(r) => AddTotalCounts(k, r);
    case DoneInst(r) =>
      if !k.routes[r].instDone {
        DoneInstCounts(k, r);
      }
    case DoneTotal(r) =>
      if !k.routes[r].totalDone {
        DoneTotalCounts(k, r);
      }
  }

  lemma TouchShape(k: Core, m: string, t: int, owner: nat)
    requires EnvEnabled(k, Touch(m, t, owner))
    ensures var k' := TouchAndTrack(k, ReadyInst(k, m).value, t, owner); SameScheduling(k, k') && RoutesGrow(k, k')
  {
  }

  lemma DoneInstShape(k: Core, r: nat)
    requires EnvEnabled(k, DoneInst(r))
    ensures var k' := EnvStep(k, DoneInst(r)); SameScheduling(k, k') && RoutesGrow(k, k')
  {
  }

  lemma RoutesShape(k: Core, k': Core, r: nat)
    requires r < |k.routes| && k' == k.(total := k'.total, routes := k'.routes)
    requires k'.routes == k.routes[r := k.routes[r].(tracked := true)]
             || k'.routes == k.routes[r := k.routes[r].(totalDone := true)]
    ensures SameScheduling(k, k') && RoutesGrow(k, k')
  {
  }

  lemma EnvShape(k: Core, e: Env)
    requires EnvEnabled(k, e)
    ensures SameScheduling(k, EnvStep(k, e)) && RoutesGrow(k, EnvStep(k, e))
  {
    if e.Touch? {
      TouchShape(k, e.m, e.t, e.owner);
    } else if e.DoneInst? {
      DoneInstShape(k, e.r);
    } else if e.CountTotal? {
      RoutesShape(k, AddTotal(k, e.r), e.r);
    } else if e.DoneTotal? && !k.routes[e.r].totalDone {
      RoutesShape(k, EnvStep(k, e), e.r);
    }
  }

  lemma EnvDrains(k: Core, h: Hold, e: Env)
    requires DrainInv(k, h) && CountInv(k) && EnvEnabled(k, e) && InstNames(k)
    ensures DrainInv(EnvStep(k, e), h)
  {
    if e.Touch? {
      TouchDrains(k, h, e.m, e.t, e.owner);
    } else if e.DoneInst? {
      DoneDrains(k, h, e.r);
    } else {
      OtherDrains(k, h, e);
    }
  }

  ghost predicate InstNames(k: Core)
  {
    forall m :: m in k.registry ==> k.registry[m] < |k.insts| && k.insts[k.registry[m]].model == m
  }

  lemma HolderUnaffected(c: Settings, k: Core, h: Hold, e: Env)
    requires SecInv(c, k, h) && EnvEnabled(k, e)
    requires h.Holds? && h.s.TrackTotal? ==> e != CountTotal(h.s.r)
    ensures SecInv(c, EnvStep(k, e), h)
  {
    EnvShape(k, e);
    if h.Holds? {
      FactsUnaffected(c, k, EnvStep(k, e), h.m, h.s);
    }
  }

  lemma EnvBase(c: Settings, k: Core, h: Hold, e: Env)
    requires BaseInv(c, k, h) && EnvEnabled(k, e)
    ensures BaseInv(c, EnvStep(k, e), h)
  {
    EnvShape(k, e);
    EnvCounts(k, e);
    EnvDrains(k, h, e);
    InstsCarry(c, k, EnvStep(k, e));
    PortsCarry(c, k, h, EnvStep(k, e), h);
    PowerCarry(c, k, h, EnvStep(k, e), h);
  }

  /** Nothing that happens beside the permit holder breaks the invariant, as long as it leaves alone the
      route the holder is about to count. */
  lemma EnvKeepsInv(c: Settings, k: Core, h: Hold, e: Env)
    requires CoreInv(c, k, h) && EnvEnabled(k, e)
    requires h.Holds? && h.s.TrackTotal? ==> e != CountTotal(h.s.r)
    ensures CoreInv(c, EnvStep(k, e), h)
  {
    EnvBase(c, k, h, e);
    HolderUnaffected(c, k, h, e);
  }
}
