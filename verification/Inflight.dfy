/**
 The in-flight tracker of internal/inflight/tracker.go.  `TrackerState` is what the tracker's
 mutex protects, with a log of the drain channels closed so far; the three functions are the three
 critical sections.  Channels are identified by number.
 */
module Inflight {

  datatype TrackerState = TrackerState(count: int, waiters: seq<nat>, closed: seq<nat>)

  const FRESH := TrackerState(0, [], [])

  function Tracked(t: TrackerState): TrackerState
  {
    t.(count := t.count + 1)
  }

  /** The body of a done function's once: the first branch is the underflow guard. */
  function Finished(t: TrackerState): TrackerState
  {
    if t.count <= 0 then t.(count := 0)
    else if t.count == 1 then TrackerState(0, [], t.closed + t.waiters)
    else t.(count := t.count - 1)
  }

  /** The locked part of WaitForDrain: a waiter joins only while something is in flight. */
  function Enlisted(t: TrackerState, ch: nat): TrackerState
  {
    if t.count == 0 then t else t.(waiters := t.waiters + [ch])
  }

  class Tracker {
    var count: int
    var waiters: seq<nat>
    var closed: seq<nat>

    function State(): TrackerState
      reads this
    {
      TrackerState(count, waiters, closed)
    }

    constructor ()
      ensures State() == FRESH
    {
      count, waiters, closed := 0, [], [];
    }

    method Track() returns (done: Done)
      modifies this
      ensures State() == Tracked(old(State()))
      ensures fresh(done) && done.tracker == this && !done.fired
    {
      count := count + 1;
      done := new Done(this);
    }

    /** Returns whether the caller has to block on `ch`. */
    method WaitForDrain(ch: nat) returns (blocked: bool)
      modifies this
      ensures State() == Enlisted(old(State()), ch)
      ensures blocked <==> old(count) != 0
    {
      if count == 0 {
        return false;
      }
      waiters := waiters + [ch];
      return true;
    }
  }

  /** The function Track returns: its once makes every call after the first a no-op. */
  class Done {
    const tracker: Tracker
    var fired: bool

    constructor (tracker: Tracker)
      ensures this.tracker == tracker && !fired
    {
      this.tracker := tracker;
      fired := false;
    }

    method Call()
      modifies this, tracker
      ensures fired
      ensures tracker.State() == if old(fired) then old(tracker.State()) else Finished(old(tracker.State()))
    {
      if fired {
        return;
      }
      fired := true;
      if tracker.count <= 0 {
        tracker.count := 0;
        return;
      }
      tracker.count := tracker.count - 1;
      if tracker.count == 0 {
        for i := 0 to |tracker.waiters|
          invariant tracker.count == 0 && tracker.waiters == old(tracker.waiters) && fired
          invariant tracker.closed == old(tracker.closed) + tracker.waiters[..i]
        {
          tracker.closed := tracker.closed + [tracker.waiters[i]];
        }
        tracker.waiters := [];
      }
    }
  }
}
