/** What each part of the scheduler's invariant depends on, and how routes are counted. */
module SchedulerFrame {
  import opened SchedulerCore
  import opened SchedulerInvariant

  /** The same instances under the same names, with the same ports in use. */
  ghost predicate SameIds(k: Core, k': Core)
  {
    && |k'.insts| == |k.insts| && k'.registry == k.registry && k'.used == k.used
    && (forall i :: 0 <= i < |k.insts| ==>
          && k'.insts[i].model == k.insts[i].model && k'.insts[i].port == k.insts[i].port
          && k'.insts[i].gpus == k.insts[i].gpus && k'.insts[i].pinned == k.insts[i].pinned)
  }

  lemma SameRegistered(k: Core, k': Core)
    requires SameIds(k, k')
    ensures forall i: nat :: Registered(k', i) <==> Registered(k, i)
  {
  }

  lemma InstsCarry(c: Settings, k: Core, k': Core)
    requires SameIds(k, k') && InstsInv(c, k)
    ensures InstsInv(c, k')
  {
  }

  lemma PortsCarry(c: Settings, k: Core, h: Hold, k': Core, h': Hold)
    requires SameIds(k, k') && HandOf(h') == HandOf(h) && PortInv(c, k, h)
    ensures PortInv(c, k', h')
  {
    SameRegistered(k, k');
    forall i: nat, j: nat | Owner(k', h', i) && Owner(k', h', j) && i != j
      ensures Apart(k', i, j)
    {
      assert Owner(k, h, i) && Owner(k, h, j) && Apart(k, i, j);
    }
    forall i: nat | Owner(k', h', i)
      ensures HasPort(c, k', i)
    {
      assert Owner(k, h, i) && HasPort(c, k, i);
    }
    forall p | p in k'.used
      ensures PortOwned(k', h', p)
    {
      assert PortOwned(k, h, p);
      var i: nat :| i < |k.insts| && Owner(k, h, i) && k.insts[i].port == p;
      assert Owner(k', h', i) && k'.insts[i].port == p;
    }
  }

  lemma PowerCarry(c: Settings, k: Core, h: Hold, k': Core, h': Hold)
    requires k'.registry == k.registry && k'.power == k.power && k'.powerClean == k.powerClean
    requires ForcedBy(h') == ForcedBy(h) && (forall i: nat :: Deleting(h', i) <==> Deleting(h, i)) && PowerInv(c, k, h)
    ensures PowerInv(c, k', h')
  {
    assert forall m :: InForce(k', h', m) <==> InForce(k, h, m);
    if c.power.Some? && k.powerClean {
      forall g | g in c.power.value.defaults
        ensures PowerOk(c, k', h', g)
      {
        assert PowerOk(c, k, h, g);
      }
    }
  }

  lemma CountsCarry(k: Core, k': Core)
    requires |k'.insts| == |k.insts| && (forall i :: 0 <= i < |k.insts| ==> k'.insts[i].inflight == k.insts[i].inflight)
    requires k'.routes == k.routes && k'.total == k.total && k'.nextChan >= k.nextChan && CountInv(k)
    ensures CountInv(k')
  {
  }

  // ----- counting routes -----

  lemma {:induction false} OutstandingSet(routes: seq<Route>, r: nat, route: Route, i: nat)
    requires r < |routes|
    ensures Outstanding(routes[r := route], i) == Outstanding(routes, i) - Weight(routes[r], i) + Weight(route, i)
  {
    var n := |routes| - 1;
    if r < n {
      OutstandingSet(routes[..n], r, route, i);
      assert routes[r := route][..n] == routes[..n][r := route];
    } else {
      assert routes[r := route][..n] == routes[..n];
    }
  }

  lemma {:induction false} InTotalSet(routes: seq<Route>, r: nat, route: Route)
    requires r < |routes|
    ensures InTotal(routes[r := route]) == InTotal(routes) - TotalWeight(routes[r]) + TotalWeight(route)
  {
    var n := |routes| - 1;
    if r < n {
      InTotalSet(routes[..n], r, route);
      assert routes[r := route][..n] == routes[..n][r := route];
    } else {
      assert routes[r := route][..n] == routes[..n];
    }
  }

  lemma {:induction false} NoOutstanding(routes: seq<Route>, i: nat)
    requires forall r :: 0 <= r < |routes| ==> routes[r].inst < i
    ensures Outstanding(routes, i) == 0
  {
    if routes != [] {
      NoOutstanding(routes[..|routes| - 1], i);
    }
  }

  lemma TrackCounts(k: Core, i: nat, owner: nat)
    requires CountInv(k) && i < |k.insts|
    ensures CountInv(TrackInst(k, i, owner))
  {
    var k' := TrackInst(k, i, owner);
    assert k'.routes[..|k.routes|] == k.routes;
  }

  lemma AddTotalCounts(k: Core, r: nat)
    requires CountInv(k) && r < |k.routes| && !k.routes[r].tracked
    ensures CountInv(AddTotal(k, r))
  {
    var route := k.routes[r].(tracked := true);
    InTotalSet(k.routes, r, route);
    forall i | 0 <= i < |k.insts|
      ensures Outstanding(k.routes[r := route], i) == Outstanding(k.routes, i)
    {
      OutstandingSet(k.routes, r, route, i);
    }
  }

  lemma DoneInstCounts(k: Core, r: nat)
    requires CountInv(k) && EnvEnabled(k, DoneInst(r)) && !k.routes[r].instDone
    ensures CountInv(EnvStep(k, DoneInst(r)))
    ensures k.insts[k.routes[r].inst].inflight.count > 0
  {
    var k', route := EnvStep(k, DoneInst(r)), k.routes[r].(instDone := true);
    InTotalSet(k.routes, r, route);
    forall i | 0 <= i < |k.insts|
      ensures Outstanding(k.routes[r := route], i) == Outstanding(k.routes, i) - Weight(k.routes[r], i)
    {
      OutstandingSet(k.routes, r, route, i);
    }
  }

  lemma DoneTotalCounts(k: Core, r: nat)
    requires CountInv(k) && EnvEnabled(k, DoneTotal(r)) && !k.routes[r].totalDone
    ensures CountInv(EnvStep(k, DoneTotal(r)))
    ensures k.total.count > 0
  {
    var route := k.routes[r].(totalDone := true);
    InTotalSet(k.routes, r, route);
    forall i | 0 <= i < |k.insts|
      ensures Outstanding(k.routes[r := route], i) == Outstanding(k.routes, i)
    {
      OutstandingSet(k.routes, r, route, i);
    }
  }

}
