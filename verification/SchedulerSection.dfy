/** Steps of the permit holder keep the invariant, one lemma per kind of step. */
module SchedulerSection {
  import opened Wrappers
  import opened SchedulerCore
  import opened SchedulerInvariant
  import opened SchedulerFrame

  /** Steps with no port in hand, no limits in force outside the registry and no drain under way. */
  predicate Plain(h: Hold)
  {
    HandOf(h).None? && ForcedBy(h).None? && (h.Holds? ==> !h.s.Draining?)
  }

  lemma PlainStep(c: Settings, k: Core, h: Hold, h': Hold)
    requires BaseInv(c, k, h) && Plain(h) && Plain(h')
    ensures BaseInv(c, k, h')
  {
    PortsCarry(c, k, h, k, h');
    PowerCarry(c, k, h, k, h');
    forall i | 0 <= i < |k.insts|
      ensures DrainOk(k, h', i)
    {
      assert DrainOk(k, h, i);
    }
  }

  // ----- deciding what to evict -----

  lemma ScanFacts(c: Settings, k: Core, m: string, t: int, a: Answer)
    requires Enabled(c, m, k, Scan(t), a) && !PinnedAmong(k, Gpus(c, m))
    ensures SortFacts(k, Gpus(c, m), a.order)
  {
    var order, target := a.order, Gpus(c, m);
    forall j | 0 <= j < |order|
      ensures Conflict(k, target, order[j]) && !k.insts[order[j]].pinned
    {
      assert order[j] in order;
    }
    forall i: nat | Conflict(k, target, i)
      ensures exists j :: 0 <= j < |order| && order[j] == i
    {
      assert i in order;
    }
  }

  /** Sorting moves the conflicts about and keeps what is known of them. */
  lemma SortedFacts(c: Settings, k: Core, target: seq<int>, t: int, found: seq<nat>, order: seq<nat>)
    requires SortFacts(k, target, found) && Sorts(k, found, order)
    ensures var ev := Eviction(t, order, Keys(k, order), 0);
            EvictFacts(c, k, target, ev, 0) && Evicted(k, order, 0) && Standing(k, target, order, 0, None)
  {
    forall j | 0 <= j < |order|
      ensures !k.insts[order[j]].pinned && Overlaps(k.insts[order[j]].gpus, target) && Registered(k, order[j])
    {
      assert order[j] in found;
      var l :| 0 <= l < |found| && found[l] == order[j];
    }
    forall i: nat | Conflict(k, target, i)
      ensures exists j :: 0 <= j < |order| && order[j] == i
    {
      var l :| 0 <= l < |found| && found[l] == i;
      assert i in order;
    }
  }

  lemma NothingStanding(k: Core, target: seq<int>, order: seq<nat>)
    requires Standing(k, target, order, |order|, None)
    ensures !SomeConflict(k, target)
  {
  }

  lemma ScanLooks(c: Settings, m: string, k: Core, s: Sec, a: Answer)
    requires SecInv(c, k, Holds(m, s)) && Enabled(c, m, k, s, a) && s.Scan?
    ensures SecInv(c, k, Holds(m, LookStep(c, m, k, s, a)))
  {
    hide SortFacts, EvictFacts, Standing, Evicted, Room;
    if !PinnedAmong(k, Gpus(c, m)) {
      ScanFacts(c, k, m, s.t, a);
    }
  }

  lemma SortLooks(c: Settings, m: string, k: Core, s: Sec, a: Answer)
    requires SecInv(c, k, Holds(m, s)) && Enabled(c, m, k, s, a) && s.Sort?
    ensures SecInv(c, k, Holds(m, LookStep(c, m, k, s, a)))
  {
    hide SortFacts, EvictFacts, Standing, Evicted, Room;
    SortedFacts(c, k, Gpus(c, m), s.t, s.found, a.order);
  }

  lemma StopScanLooks(c: Settings, m: string, k: Core, s: Sec, a: Answer)
    requires SecInv(c, k, Holds(m, s)) && Enabled(c, m, k, s, a) && s.StopScan?
    ensures SecInv(c, k, Holds(m, LookStep(c, m, k, s, a)))
  {
    StopScanFacts(k, a.order);
  }

  lemma RecheckLooks(c: Settings, m: string, k: Core, s: Sec, a: Answer)
    requires SecInv(c, k, Holds(m, s)) && Enabled(c, m, k, s, a) && s.Recheck?
    ensures SecInv(c, k, Holds(m, LookStep(c, m, k, s, a)))
  {
    hide EvictFacts, Standing, Evicted, Remaining, HandFacts, SortFacts, DrainFacts;
  }

  lemma CapacityLooks(c: Settings, m: string, k: Core, s: Sec, a: Answer)
    requires SecInv(c, k, Holds(m, s)) && Enabled(c, m, k, s, a) && s.Capacity?
    ensures SecInv(c, k, Holds(m, LookStep(c, m, k, s, a)))
  {
    hide EvictFacts, Standing, Evicted, Remaining, HandFacts, SortFacts, DrainFacts;
  }

  lemma MiddleLooks(c: Settings, m: string, k: Core, s: Sec, a: Answer)
    requires SecInv(c, k, Holds(m, s)) && Enabled(c, m, k, s, a) && (s.FindGPUs? || s.ScanClock?)
    ensures SecInv(c, k, Holds(m, LookStep(c, m, k, s, a)))
  {
    hide EvictFacts, Standing, Evicted, Remaining, HandFacts, SortFacts, DrainFacts;
  }

  lemma LateLooks(c: Settings, m: string, k: Core, s: Sec, a: Answer)
    requires SecInv(c, k, Holds(m, s)) && Enabled(c, m, k, s, a) && (s.Still? || s.Final? || s.Vram?)
    ensures SecInv(c, k, Holds(m, LookStep(c, m, k, s, a)))
  {
  }

  lemma LookFacts(c: Settings, m: string, k: Core, s: Sec, a: Answer)
    requires SecInv(c, k, Holds(m, s)) && Enabled(c, m, k, s, a) && Looks(s)
    ensures SecInv(c, k, Holds(m, LookStep(c, m, k, s, a)))
  {
    if s.Scan? {
      ScanLooks(c, m, k, s, a);
    } else if s.Sort? {
      SortLooks(c, m, k, s, a);
    } else if s.StopScan? {
      StopScanLooks(c, m, k, s, a);
    } else if s.Still? || s.Final? || s.Vram? {
      LateLooks(c, m, k, s, a);
    } else if s.Recheck? {
      RecheckLooks(c, m, k, s, a);
    } else if s.Capacity? {
      CapacityLooks(c, m, k, s, a);
    } else {
      MiddleLooks(c, m, k, s, a);
    }
  }

  lemma LookStaysPlain(c: Settings, m: string, k: Core, s: Sec, a: Answer)
    requires Enabled(c, m, k, s, a) && Looks(s)
    ensures Plain(Holds(m, s)) && Plain(Holds(m, LookStep(c, m, k, s, a)))
  {
  }

  lemma LookBase(c: Settings, m: string, k: Core, s: Sec, a: Answer)
    requires BaseInv(c, k, Holds(m, s)) && Enabled(c, m, k, s, a) && Looks(s)
    ensures BaseInv(c, k, Holds(m, LookStep(c, m, k, s, a)))
  {
    LookStaysPlain(c, m, k, s, a);
    PlainStep(c, k, Holds(m, s), Holds(m, LookStep(c, m, k, s, a)));
  }

  lemma StopScanFacts(k: Core, all: seq<nat>)
    requires Enumerates(k, all)
    ensures Remaining(k, all, 0, None)
  {
    forall i: nat | Registered(k, i)
      ensures exists l :: 0 <= l < |all| && all[l] == i
    {
      assert i in all;
    }
    forall l | 0 <= l < |all|
      ensures Registered(k, all[l])
    {
      assert all[l] in all;
    }
  }

  // ----- draining -----

  lemma MarkDrains(k: Core, h: Hold, i: nat, h': Hold)
    requires DrainInv(k, h) && Plain(h) && Registered(k, i)
    requires h'.Holds? && h'.s.Draining? && h'.s.i == i && h'.s.phase.Check?
    ensures DrainInv(Mark(k, i), h')
  {
    forall x | 0 <= x < |k.insts|
      ensures DrainOk(Mark(k, i), h', x)
    {
      assert DrainOk(k, h, x);
    }
  }

  lemma MarkBase(c: Settings, k: Core, h: Hold, i: nat, h': Hold)
    requires BaseInv(c, k, h) && Plain(h) && Registered(k, i)
    requires h'.Holds? && h'.s.Draining? && h'.s.i == i && h'.s.phase.Check?
    ensures BaseInv(c, Mark(k, i), h')
  {
    hide InstsInv, PortInv, CountInv, DrainInv, PowerInv;
    InstsCarry(c, k, Mark(k, i));
    PortsCarry(c, k, h, Mark(k, i), h');
    PowerCarry(c, k, h, Mark(k, i), h');
    CountsCarry(k, Mark(k, i));
    MarkDrains(k, h, i, h');
  }

  lemma OldEnough(c: Settings, k: Core, target: seq<int>, ev: Eviction)
    requires EvictFacts(c, k, target, ev, ev.k) && EvictStep(c, k, target, ev).1.Draining?
    requires ev.k < |ev.order| && k.insts[ev.order[ev.k]].startedAt > 0
    ensures EvictFacts(c, Mark(k, ev.order[ev.k]), target, ev, ev.k + 1)
  {
  }

  lemma VictimStands(k: Core, target: seq<int>, order: seq<nat>, n: nat)
    requires InBounds(k, order) && n < |order| && Evicted(k, order, n) && Standing(k, target, order, n, None)
    ensures var k' := Mark(k, order[n]);
            Evicted(k', order, n) && Standing(k', target, order, n + 1, Some(order[n]))
  {
    var k' := Mark(k, order[n]);
    SameRegistered(k, k');
    forall x: nat | Conflict(k', target, x)
      ensures Some(order[n]) == Some(x) || exists j :: n + 1 <= j < |order| && order[j] == x
    {
      assert Conflict(k, target, x);
      var j :| n <= j < |order| && order[j] == x;
    }
  }

  lemma EvictFactsStep(c: Settings, k: Core, m: string, ev: Eviction)
    requires DrainInv(k, Holds(m, Evict(ev))) && SecInv(c, k, Holds(m, Evict(ev)))
    ensures var r := EvictStep(c, k, Gpus(c, m), ev); SecInv(c, r.0, Holds(m, r.1))
  {
    if EvictStep(c, k, Gpus(c, m), ev).1.Draining? {
      VictimFacts(c, k, m, ev);
    } else {
      LoopFacts(c, k, m, ev);
    }
  }

  lemma LoopFacts(c: Settings, k: Core, m: string, ev: Eviction)
    requires SecInv(c, k, Holds(m, Evict(ev))) && !EvictStep(c, k, Gpus(c, m), ev).1.Draining?
    ensures var r := EvictStep(c, k, Gpus(c, m), ev); SecInv(c, r.0, Holds(m, r.1))
  {
    hide Remaining, HandFacts, SortFacts, DrainFacts;
    if ev.k >= |ev.order| {
      NothingStanding(k, Gpus(c, m), ev.order);
    }
  }

  lemma VictimFacts(c: Settings, k: Core, m: string, ev: Eviction)
    requires DrainInv(k, Holds(m, Evict(ev))) && SecInv(c, k, Holds(m, Evict(ev)))
    requires EvictStep(c, k, Gpus(c, m), ev).1.Draining?
    ensures var r := EvictStep(c, k, Gpus(c, m), ev); SecInv(c, r.0, Holds(m, r.1))
  {
    hide Remaining, HandFacts, SortFacts;
    assert DrainOk(k, Holds(m, Evict(ev)), ev.order[ev.k]);
    OldEnough(c, k, Gpus(c, m), ev);
    VictimStands(k, Gpus(c, m), ev.order, ev.k);
  }

  lemma EvictBase(c: Settings, k: Core, m: string, ev: Eviction)
    requires CoreInv(c, k, Holds(m, Evict(ev)))
    ensures var r := EvictStep(c, k, Gpus(c, m), ev); BaseInv(c, r.0, Holds(m, r.1))
  {
    hide InstsInv, PortInv, CountInv, DrainInv, PowerInv;
    var r := EvictStep(c, k, Gpus(c, m), ev);
    if r.1.Draining? {
      MarkBase(c, k, Holds(m, Evict(ev)), ev.order[ev.k], Holds(m, r.1));
    } else {
      PlainStep(c, k, Holds(m, Evict(ev)), Holds(m, r.1));
    }
  }

  lemma StopLoopBase(c: Settings, k: Core, m: string, all: seq<nat>, j: nat)
    requires CoreInv(c, k, Holds(m, StopLoop(all, j)))
    ensures var r := StopLoopStep(k, all, j); BaseInv(c, r.0, Holds(m, r.1))
  {
    var r := StopLoopStep(k, all, j);
    if j >= |all| {
      PlainStep(c, k, Holds(m, StopLoop(all, j)), Holds(m, r.1));
    } else {
      MarkBase(c, k, Holds(m, StopLoop(all, j)), all[j], Holds(m, r.1));
    }
  }

  lemma RemainingNext(k: Core, all: seq<nat>, j: nat)
    requires InBounds(k, all) && j < |all| && Remaining(k, all, j, None)
    ensures Remaining(Mark(k, all[j]), all, j + 1, Some(all[j])) && Registered(Mark(k, all[j]), all[j])
  {
    SameRegistered(k, Mark(k, all[j]));
  }

  lemma StopLoopFacts(c: Settings, k: Core, m: string, all: seq<nat>, j: nat)
    requires SecInv(c, k, Holds(m, StopLoop(all, j)))
    ensures var r := StopLoopStep(k, all, j); SecInv(c, r.0, Holds(m, r.1))
  {
    hide Remaining, Standing, EvictFacts, Evicted, Room;
    if j < |all| {
      RemainingNext(k, all, j);
    }
  }
}
