/** The port pool of internal/ports/pool.go: a range [start, end] and the set of ports in use. */
module Ports {
  import opened Wrappers
  import opened Sets

  /** The lowest port of [lo, hi] outside `used`, if there is one. */
  function FirstFree(lo: int, hi: int, used: set<int>): (r: Option<int>)
    ensures r.None? <==> forall p :: lo <= p <= hi ==> p in used
    ensures r.Some? ==> lo <= r.value <= hi && r.value !in used && forall p :: lo <= p < r.value ==> p in used
    decreases hi - lo + 1
  {
    if lo > hi then None
    else if lo !in used then Some(lo)
    else FirstFree(lo + 1, hi, used)
  }

  function Range(lo: int, hi: int): (r: set<int>)
    requires lo <= hi + 1
    ensures forall p :: p in r <==> lo <= p <= hi
    ensures |r| == hi - lo + 1
    decreases hi - lo + 1
  {
    if lo > hi then {} else {lo} + Range(lo + 1, hi)
  }

  /** Pigeonhole: fewer ports in use than the range holds means the scan finds one. */
  lemma FreePortExists(lo: int, hi: int, used: set<int>)
    requires lo <= hi + 1 && |used| < hi - lo + 1
    ensures FirstFree(lo, hi, used).Some?
  {
    if FirstFree(lo, hi, used).None? {
      SubsetSize(Range(lo, hi), used);
      assert false;
    }
  }

  class Pool {
    const start: int
    const end: int
    var used: set<int>

    constructor (start: int, end: int)
      ensures this.start == start && this.end == end && used == {}
    {
      this.start, this.end := start, end;
      used := {};
    }

    method Acquire() returns (port: int, ok: bool)
      modifies this
      ensures ok <==> exists p :: start <= p <= end && p !in old(used)
      ensures ok ==> start <= port <= end && port !in old(used) && used == old(used) + {port}
      ensures ok ==> forall p :: start <= p < port ==> p in old(used)
      ensures !ok ==> port == 0 && used == old(used)
      ensures FirstFree(start, end, old(used)) == if ok then Some(port) else None
    {
      port := start;
      while port <= end
        invariant used == old(used)
        invariant start <= port
        invariant forall p :: start <= p < port ==> p in used
      {
        if port !in used {
          used := used + {port};
          return port, true;
        }
        port := port + 1;
      }
      return 0, false;
    }

    /** Releasing a port nobody holds is a no-op, as deleting a missing key is in Go. */
    method Release(port: int)
      modifies this
      ensures used == old(used) - {port}
    {
      used := used - {port};
    }

    /** The free ports of the range, less the ports in use outside of it: exact as long as there are none. */
    method Available() returns (n: int)
      ensures start <= end + 1 ==> n == |Range(start, end) - used| - |used - Range(start, end)|
      ensures start <= end + 1 && used <= Range(start, end) ==> n == |Range(start, end) - used|
      ensures start > end + 1 && used == {} ==> n < 0
    {
      n := end - start + 1 - |used|;
      if start <= end + 1 {
        var range := Range(start, end);
        assert range == (range * used) + (range - used);
        assert used == (range * used) + (used - range);
        if used <= range {
          assert used - range == {};
        }
      }
    }
  }
}
