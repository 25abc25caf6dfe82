/** Whole histories of one tracker: any interleaving of track, done and wait calls. */
module InflightHistory {
  import opened Inflight

  datatype Wait = Blocked(ch: nat) | Woken | Expired

  /** `fired[k]` is the once of the k-th done function, `waits[w]` the w-th WaitForDrain call. */
  datatype History = History(t: TrackerState, fired: seq<bool>, waits: seq<Wait>, nextChan: nat)

  datatype Event = DoTrack | DoDone(token: nat) | DoWait | Wake(wait: nat) | Expire(wait: nat)

  /** Events that name a token or a wait that does not exist change nothing. */
  function Step(h: History, e: Event): History
  {
    match e
    case DoTrack => h.(t := Tracked(h.t), fired := h.fired + [false])
    case DoDone(k) =>
      if k >= |h.fired| || h.fired[k] then h
      else h.(t := Finished(h.t), fired := h.fired[k := true])
    case DoWait =>
      h.(t := Enlisted(h.t, h.nextChan), nextChan := h.nextChan + 1,
         waits := h.waits + [if h.t.count == 0 then Woken else Blocked(h.nextChan)])
    case Wake(w) =>
      if w < |h.waits| && h.waits[w].Blocked? && h.waits[w].ch in h.t.closed
      then h.(waits := h.waits[w := Woken]) else h
    case Expire(w) =>
      if w < |h.waits| && h.waits[w].Blocked? then h.(waits := h.waits[w := Expired]) else h
  }

  function Run(es: seq<Event>): History
  {
    if es == [] then History(FRESH, [], [], 0)
    else Step(Run(es[..|es| - 1]), es[|es| - 1])
  }

  /** How many done functions have not been called yet. */
  function Outstanding(fired: seq<bool>): nat
  {
    if fired == [] then 0
    else Outstanding(fired[..|fired| - 1]) + if fired[|fired| - 1] then 0 else 1
  }

  lemma {:induction false} OutstandingFire(fired: seq<bool>, k: nat)
    requires k < |fired| && !fired[k]
    ensures Outstanding(fired[k := true]) == Outstanding(fired) - 1
  {
    var n := |fired| - 1;
    if k < n {
      OutstandingFire(fired[..n], k);
      assert fired[k := true][..n] == fired[..n][k := true];
    } else {
      assert fired[k := true][..n] == fired[..n];
    }
  }

  ghost predicate Distinct(s: seq<nat>)
  {
    forall i, j :: 0 <= i < j < |s| ==> s[i] != s[j]
  }

  lemma DistinctSnoc(s: seq<nat>, ch: nat)
    requires Distinct(s) && ch !in s
    ensures Distinct(s + [ch])
  {
    assert forall i :: 0 <= i < |s| ==> s[i] != ch;
  }

  ghost predicate Inv(h: History)
  {
    && h.t.count == Outstanding(h.fired)
    && (h.t.waiters != [] ==> h.t.count > 0)
    && Distinct(h.t.closed + h.t.waiters)
    && (forall ch :: ch in h.t.closed + h.t.waiters ==> ch < h.nextChan)
    && (forall w :: 0 <= w < |h.waits| && h.waits[w].Blocked? ==> h.waits[w].ch in h.t.closed + h.t.waiters)
  }

  lemma StepInv(h: History, e: Event)
    requires Inv(h)
    ensures Inv(Step(h, e))
  {
    var h' := Step(h, e);
    match e
    case DoTrack =>
      assert h'.fired[..|h.fired|] == h.fired;
    case DoDone(k) =>
      if k < |h.fired| && !h.fired[k] {
        OutstandingFire(h.fired, k);
        assert h.t.count == 1 ==> h'.t.closed + h'.t.waiters == h.t.closed + h.t.waiters;
      }
    case DoWait =>
      if h.t.count != 0 {
        DistinctSnoc(h.t.closed + h.t.waiters, h.nextChan);
        assert h'.t.closed + h'.t.waiters == (h.t.closed + h.t.waiters) + [h.nextChan];
      }
    case Wake(w) =>
    case Expire(w) =>
  }

  /** After any history the count is the number of uncalled done functions, nobody is left waiting on
      an idle tracker, and no channel is closed twice or both closed and still listed. */
  lemma {:induction false} CountIsOutstanding(es: seq<Event>)
    ensures Inv(Run(es))
  {
    if es != [] {
      CountIsOutstanding(es[..|es| - 1]);
      StepInv(Run(es[..|es| - 1]), es[|es| - 1]);
    }
  }

  /** The underflow guard never fires: a done function that runs its body finds a positive count. */
  lemma UnderflowUnreachable(es: seq<Event>, k: nat)
    requires k < |Run(es).fired| && !Run(es).fired[k]
    ensures Run(es).t.count > 0
    ensures Run(es + [DoDone(k)]).t.count == Run(es).t.count - 1
  {
    CountIsOutstanding(es);
    CountIsOutstanding(es + [DoDone(k)]);
    assert (es + [DoDone(k)])[..|es|] == es;
    OutstandingFire(Run(es).fired, k);
  }

  /** Channels are closed exactly when the count falls from one to zero, and then all of them. */
  lemma ClosedExactlyAtZero(es: seq<Event>, e: Event)
    ensures var h, h' := Run(es), Run(es + [e]);
            if h.t.count == 1 && h'.t.count == 0
            then h'.t.closed == h.t.closed + h.t.waiters && h'.t.waiters == []
            else h'.t.closed == h.t.closed && h.t.waiters <= h'.t.waiters
  {
    CountIsOutstanding(es);
    assert (es + [e])[..|es|] == es;
    var h := Run(es);
    if e.DoDone? && e.token < |h.fired| && !h.fired[e.token] {
      UnderflowUnreachable(es, e.token);
    }
  }

  ghost predicate Drained(h: History, w: nat)
  {
    w < |h.waits| && (h.waits[w].Woken? || (h.waits[w].Blocked? && h.waits[w].ch in h.t.closed))
  }

  /** Instant k of the history lies within call w: the call has begun, and it had not returned before. */
  ghost predicate During(es: seq<Event>, w: nat, k: nat)
    requires k <= |es|
  {
    && w < |Run(es[..k]).waits|
    && (k > 0 && w < |Run(es[..k - 1]).waits| ==> Run(es[..k - 1]).waits[w].Blocked?)
  }

  /** A WaitForDrain that returns nil overlaps an instant at which nothing was in flight. */
  lemma {:induction false} NilWaitSawZero(es: seq<Event>, w: nat) returns (k: nat)
    requires Drained(Run(es), w)
    ensures k <= |es| && During(es, w, k) && Run(es[..k]).t.count == 0
  {
    assert es != [];
    var past := es[..|es| - 1];
    CountIsOutstanding(past);
    if Drained(Run(past), w) {
      k := NilWaitSawZero(past, w);
      assert es[..k] == past[..k];
      if k > 0 {
        assert es[..k - 1] == past[..k - 1];
      }
    } else {
      k := |es|;
      assert es[..k] == es;
      LastEventDrains(Run(past), es[|es| - 1], w);
    }
  }

  lemma LastEventDrains(h: History, e: Event, w: nat)
    requires Inv(h) && !Drained(h, w) && Drained(Step(h, e), w)
    ensures Step(h, e).t.count == 0 && (w < |h.waits| ==> h.waits[w].Blocked?)
  {
    assert h.nextChan !in h.t.closed + h.t.waiters;
  }
}
