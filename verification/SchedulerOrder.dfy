/** Sorting conflicts by last use: the orders evictConflicts may work through, and that there always is one. */
module SchedulerOrder {
  import opened SchedulerCore

  /** Puts i behind every instance used no later. */
  function Insert(k: Core, order: seq<nat>, i: nat): (r: seq<nat>)
    requires InBounds(k, order) && i < |k.insts|
    ensures |r| == |order| + 1 && InBounds(k, r)
    ensures forall x :: x in r <==> x in order || x == i
  {
    if order == [] then [i]
    else if k.insts[order[|order| - 1]].lastUsedAt <= k.insts[i].lastUsedAt then order + [i]
    else Insert(k, order[..|order| - 1], i) + [order[|order| - 1]]
  }

  lemma AppendSorts(k: Core, order: seq<nat>, i: nat)
    requires InBounds(k, order) && i < |k.insts| && SortedByUse(k, order) && NoRepeats(order)
    requires forall x :: x in order ==> k.insts[x].lastUsedAt <= k.insts[i].lastUsedAt && x != i
    ensures SortedByUse(k, order + [i]) && NoRepeats(order + [i])
  {
    forall a | 0 <= a < |order|
      ensures k.insts[order[a]].lastUsedAt <= k.insts[i].lastUsedAt && order[a] != i
    {
      assert order[a] in order;
    }
  }

  lemma LastIsLatest(k: Core, order: seq<nat>, x: nat)
    requires InBounds(k, order) && SortedByUse(k, order) && x in order
    ensures x < |k.insts| && k.insts[x].lastUsedAt <= k.insts[order[|order| - 1]].lastUsedAt
  {
    var a :| 0 <= a < |order| && order[a] == x;
  }

  lemma {:induction false} InsertSorts(k: Core, order: seq<nat>, i: nat)
    requires InBounds(k, order) && i < |k.insts| && SortedByUse(k, order) && NoRepeats(order) && i !in order
    ensures SortedByUse(k, Insert(k, order, i)) && NoRepeats(Insert(k, order, i))
  {
    var n := |order| - 1;
    if order != [] {
      forall x | x in order
        ensures k.insts[x].lastUsedAt <= k.insts[order[n]].lastUsedAt
      {
        LastIsLatest(k, order, x);
      }
    }
    if order == [] || k.insts[order[n]].lastUsedAt <= k.insts[i].lastUsedAt {
      AppendSorts(k, order, i);
    } else {
      InsertSorts(k, order[..n], i);
      assert order[n] !in order[..n];
      AppendSorts(k, Insert(k, order[..n], i), order[n]);
    }
  }

  /** Insertion sort by last use. */
  function SortUse(k: Core, found: seq<nat>): (order: seq<nat>)
    requires InBounds(k, found)
    ensures InBounds(k, order)
    ensures forall x :: x in order <==> x in found
  {
    if found == [] then []
    else Insert(k, SortUse(k, found[..|found| - 1]), found[|found| - 1])
  }

  lemma {:induction false} SortUseSorts(k: Core, found: seq<nat>)
    requires InBounds(k, found) && NoRepeats(found)
    ensures Sorts(k, found, SortUse(k, found))
  {
    if found != [] {
      var n := |found| - 1;
      SortUseSorts(k, found[..n]);
      assert found[n] !in found[..n];
      InsertSorts(k, SortUse(k, found[..n]), found[n]);
    }
  }

  /** The conflicts among the first n instances. */
  function Conflicts(k: Core, target: seq<int>, n: nat): (found: seq<nat>)
    requires n <= |k.insts|
    ensures InBounds(k, found) && NoRepeats(found)
    ensures forall i: nat :: i in found <==> i < n && Conflict(k, target, i)
  {
    if n == 0 then []
    else if Conflict(k, target, n - 1) then Conflicts(k, target, n - 1) + [n - 1]
    else Conflicts(k, target, n - 1)
  }

  function AllRegistered(k: Core, n: nat): (all: seq<nat>)
    requires n <= |k.insts|
    ensures InBounds(k, all) && NoRepeats(all)
    ensures forall i: nat :: i in all <==> i < n && Registered(k, i)
  {
    if n == 0 then []
    else if Registered(k, n - 1) then AllRegistered(k, n - 1) + [n - 1]
    else AllRegistered(k, n - 1)
  }
}
