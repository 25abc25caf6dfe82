/**
 The Coordinator of internal/jukebox/coordinator.go as code: EnsureModel for the callers, handleEnsure for
 the accepting loop, performSwap for the background swap.  Between two atomic blocks of one of them anything
 the others can do may happen (Others).  Every block is shown to be a step of CoordinatorRuns, so the object's
 state is always that of some run.
 */
module SwapCoordinator {
  import opened Wrappers
  import opened Config
  import opened CoordinatorRuns
  import opened CoordinatorAnswers
  import C = Coordinator

  /** Who is running a method. */
  datatype Actor = TheLoop | SwapOf(k: nat) | CallerOf(id: nat)

  predicate ByActor(e: Event, who: Actor)
  {
    match who
    case TheLoop => e.Accept? || e.Act?
    case SwapOf(k) => e.SwapStep? && e.swap == k
    case CallerOf(id) => (e.TakeReply? || e.Receive? || e.GiveUp?) && e.call == id
  }

  /** What nobody but the actor changes, and what nobody takes back. */
  predicate Kept(y: Sys, y': Sys, who: Actor)
  {
    && |y.calls| <= |y'.calls| && |y.swaps| <= |y'.swaps| && y.log <= y'.log && y.now <= y'.now
    && (forall id :: 0 <= id < |y.calls| ==> y'.calls[id].name == y.calls[id].name)
    && (who.TheLoop? ==> y'.loop == y.loop)
    && (who.SwapOf? && who.k < |y.swaps| ==> y'.swaps[who.k] == y.swaps[who.k])
    && (who.CallerOf? && who.id < |y.calls| ==> ProgressKept(y.calls[who.id].progress, y'.calls[who.id].progress))
  }

  /** The loop answers; it neither makes a caller wait nor returns for it. */
  predicate ProgressKept(p: Progress, p': Progress)
  {
    (p.Waiting? || p.Returned? ==> p' == p) && (p'.Waiting? || p'.Returned? ==> p' == p)
  }

  lemma OthersKeep(s: Settings, y: Sys, e: Event, who: Actor)
    requires !ByActor(e, who)
    ensures Kept(y, Step(s, y, e), who)
  {
    if e.Act? {
      LoopKeeps(s, y, who);
    } else if e.SwapStep? {
      SwapKeeps(s, y, e, who);
    }
  }

  lemma LoopKeeps(s: Settings, y: Sys, who: Actor)
    requires !who.TheLoop?
    ensures Kept(y, Step(s, y, Act), who)
  {
  }

  lemma SwapKeeps(s: Settings, y: Sys, e: Event, who: Actor)
    requires e.SwapStep? && who != SwapOf(e.swap)
    ensures Kept(y, Step(s, y, e), who)
  {
  }

  lemma RunOneMore(s: Settings, es: seq<Event>, e: Event)
    ensures Run(s, es + [e]) == Step(s, Run(s, es), e)
  {
    assert (es + [e])[..|es|] == es;
  }

  ghost predicate Prefix(es: seq<Event>, es': seq<Event>)
  {
    es <= es'
  }

  lemma PrefixMeans(es: seq<Event>)
    ensures Prefix(es, es)
    ensures forall es' :: Prefix(es, es') ==> es <= es'
  {
  }

  /** A log entry about this swap. */
  predicate Records(e: Entry, swap: Swap, ok: bool)
  {
    e.ok == ok && e.from == swap.from && e.to == swap.model && e.crash == swap.crash
  }

  datatype Reply = NoSuchModel | Now | Refused(reason: C.Reason, retryAfter: int) | Later(from: string, model: string)

  predicate Replies(reply: Reply, seen: C.Coord, model: string, d: C.Decision)
  {
    match d
    case Serve => reply == Now
    case Reject(reason, after) => reply == Refused(reason, after) && after > 0
    case Swap => reply == Later(seen.currentModel, model)
  }

  /** What a request is told in state y, in terms of the swaps completed so far. */
  ghost predicate Told(s: Settings, y: Sys, seen: C.Coord, model: string, reply: Reply)
  {
    if seen.swapInProgress then reply == Refused(C.InProgress, 5)
    else
      && (reply == Now <==> Serving(y, model))
      && (reply.Later? <==> !Serving(y, model) && MayBegin(s, y, model))
      && (reply.Refused? <==> !Serving(y, model) && !MayBegin(s, y, model))
      && (reply.Refused? ==> reply.reason == if PauseOver(y) then C.Cooldown else C.Backoff)
  }

  lemma FitsTold(s: Settings, y: Sys, seen: C.Coord, model: string, reply: Reply)
    requires var d := C.Decide(seen, s.cooldown, model, y.pidUp, y.now);
             Replies(reply, seen, model, d) && DecidedBy(s, y, seen, model, d)
    ensures Told(s, y, seen, model, reply)
  {
    hide C.Decide, Serving, PauseOver, Restarts, CooledDown;
  }

  class Coordinator {
    const settings: Settings
    var state: C.State
    var currentModel: string
    var lastSwapTime: int
    var failureCount: int
    var lastFailure: int
    var swapInProgress: bool
    var lastSwap: Option<C.LastSwap>
    var now: int
    var pidUp: bool
    var loop: Loop
    var calls: seq<Call>
    var swaps: seq<Swap>
    var log: seq<Entry>
    ghost var trace: seq<Event>

    function Value(): C.Coord
      reads this
    {
      C.Coord(state, currentModel, lastSwapTime, failureCount, lastFailure, swapInProgress, lastSwap)
    }

    function Snapshot(): Sys
      reads this
    {
      Sys(now, Value(), pidUp, loop, calls, swaps, log)
    }

    ghost predicate Valid()
      reads this
    {
      Snapshot() == Run(settings, trace)
    }

    constructor (settings: Settings)
      ensures Valid() && this.settings == settings && trace == [] && Snapshot() == INITIAL
    {
      this.settings := settings;
      state, currentModel, lastSwapTime, failureCount := C.Idle, "", 0, 0;
      lastFailure, swapInProgress, lastSwap := 0, false, None;
      now, pidUp, loop, calls, swaps, log, trace := 1, false, Free, [], [], [], [];
    }

    /** The run went on. */
    twostate predicate Onward()
      reads this
    {
      forall es :: Prefix(es, old(trace)) ==> Prefix(es, trace)
    }

    /** The run has passed through the state after the events `at`. */
    twostate predicate Passed(at: seq<Event>)
      reads this
    {
      (forall es :: Prefix(es, old(trace)) ==> Prefix(es, at)) && Prefix(at, trace)
    }

    method BecomeValue(c: C.Coord)
      modifies this`state, this`currentModel, this`lastSwapTime, this`failureCount, this`lastFailure,
               this`swapInProgress, this`lastSwap
      ensures Value() == c
    {
      state, currentModel, lastSwapTime, failureCount := c.state, c.currentModel, c.lastSwapTime, c.failureCount;
      lastFailure, swapInProgress, lastSwap := c.lastFailure, c.swapInProgress, c.lastSwap;
    }

    method Become(y: Sys)
      modifies this
      ensures Snapshot() == y && trace == old(trace)
    {
      BecomeValue(y.c);
      now, pidUp, loop, calls, swaps, log := y.now, y.pidUp, y.loop, y.calls, y.swaps, y.log;
    }

    method Other(e: Event, who: Actor)
      requires Valid() && !ByActor(e, who)
      modifies this
      ensures Valid() && Onward() && Kept(old(Snapshot()), Snapshot(), who)
    {
      RunOneMore(settings, trace, e);
      OthersKeep(settings, Snapshot(), e, who);
      Become(Step(settings, Snapshot(), e));
      trace := trace + [e];
    }

    /** Everybody else, the clock and the process, for as long as they like. */
    method Others(who: Actor)
      requires Valid()
      modifies this
      ensures Valid() && Onward() && Kept(old(Snapshot()), Snapshot(), who)
    {
      var es: seq<Event> := *;
      for i := 0 to |es|
        invariant Valid() && Onward() && Kept(old(Snapshot()), Snapshot(), who)
      {
        if !ByActor(es[i], who) {
          Other(es[i], who);
        }
      }
    }

    /** The end of an atomic block that began in state y: the actor has taken the step e of a run. */
    method Take(who: Actor, ghost e: Event, ghost y: Sys)
      requires y == Run(settings, trace) && Snapshot() == Step(settings, y, e)
      modifies this
      ensures Valid() && Onward() && Kept(old(Snapshot()), Snapshot(), who)
    {
      RunOneMore(settings, trace, e);
      trace := trace + [e];
      Others(who);
    }

    // ----- the accepting loop -----

    /** handleEnsure: resolves, reads the fields under the lock, and then decides on what it has read, by the
        clock and the process of a state that the run passes through during the call. */
    method HandleEnsure(id: nat) returns (reply: Reply, ghost seen: C.Coord, ghost at: seq<Event>)
      requires Valid() && loop == Free && id < |calls| && calls[id].progress == Queued
      modifies this
      ensures Valid() && Onward() && loop == Free && id < |calls|
      ensures seen == old(Value()) && Prefix(old(trace), at) && Prefix(at, trace)
      ensures old(now) <= Run(settings, at).now <= now
      ensures ResolveModel(settings.models, old(calls[id].name)).Err? ==> reply == NoSuchModel
      ensures ResolveModel(settings.models, old(calls[id].name)).Ok? ==>
                var model := ResolveModel(settings.models, old(calls[id].name)).value.0;
                Fits(reply, seen, model, Run(settings, at)) && Told(settings, Run(settings, at), seen, model, reply)
    {
      hide Run, Prefix, Fits, Told;
      ghost var y := Snapshot();
      seen, at := Value(), trace;
      PrefixMeans(at);
      var resolved := ResolveModel(settings.models, calls[id].name);
      if resolved.Err? {
        calls := calls[id := calls[id].(progress := Answered(NotFound))];
        Take(TheLoop, Accept(id), y);
        return NoSuchModel, seen, at;
      }
      var model, read := resolved.value.0, Value();
      calls := calls[id := calls[id].(progress := Received)];
      loop := Deciding(id, model, read);
      Take(TheLoop, Accept(id), y);
      at := trace;
      PrefixMeans(at);
      reply := Decide(id, model, read);
    }

    /** The reply is the one decided on for these fields with the clock and the process of y. */
    ghost predicate Fits(reply: Reply, seen: C.Coord, model: string, y: Sys)
    {
      Replies(reply, seen, model, C.Decide(seen, settings.cooldown, model, y.pidUp, y.now))
    }

    /** The rest of handleEnsure, from the fields as they were read. */
    method Decide(id: nat, model: string, seen: C.Coord) returns (reply: Reply)
      requires Valid() && loop == Deciding(id, model, seen) && id < |calls|
      modifies this
      ensures Valid() && Onward() && loop == Free && id < |calls| && old(now) <= now
      ensures Fits(reply, seen, model, old(Snapshot())) && Told(settings, old(Snapshot()), seen, model, reply)
    {
      hide Run, C.Decide, Told;
      DecisionFollows(settings, trace);
      ghost var y := Snapshot();
      reply := Judge(model, seen);
      if reply.Later? {
        reply := BeginSwap(id, model, seen);
      } else {
        AnswerNow(id, model, seen, if reply.Now? then Nil else Rejected(reply.reason));
      }
      FitsTold(settings, y, seen, model, reply);
    }

    method AnswerNow(id: nat, model: string, seen: C.Coord, result: CoordinatorRuns.Result)
      requires Valid() && loop == Deciding(id, model, seen) && id < |calls|
      requires match C.Decide(seen, settings.cooldown, model, pidUp, now)
               case Serve => result == Nil
               case Reject(reason, _) => result == Rejected(reason)
               case Swap => false
      modifies this
      ensures Valid() && Onward() && loop == Free && id < |calls| && old(now) <= now
    {
      hide Run, Step;
      ghost var y := Snapshot();
      ActIs(settings, y);
      calls := Answer(calls, id, Answered(result));
      loop := Free;
      Take(TheLoop, Act, y);
    }

    /** The model to swap from is read again, and is still the one the decision was taken on. */
    method BeginSwap(id: nat, model: string, seen: C.Coord) returns (reply: Reply)
      requires Valid() && loop == Deciding(id, model, seen) && id < |calls|
      requires C.Decide(seen, settings.cooldown, model, pidUp, now) == C.Swap
      modifies this
      ensures Valid() && Onward() && loop == Free && id < |calls| && old(now) <= now
      ensures reply == Later(seen.currentModel, model)
    {
      hide Run, Step, C.Decide, Prefix;
      ghost var y := Snapshot();
      ActIs(settings, y);
      SameSinceRead(settings, trace);
      var fromModel := currentModel;
      swapInProgress := true;
      state := if seen.state == C.Ready then C.Stopping else C.Starting;
      calls := Answer(calls, id, AnsweredWait(|swaps|));
      swaps := swaps + [Swap(fromModel, model, C.Crashed(seen, model, pidUp), now, Running(StopOld))];
      loop := Free;
      Take(TheLoop, Act, y);
      return Later(fromModel, model);
    }

    method Judge(model: string, seen: C.Coord) returns (reply: Reply)
      ensures Fits(reply, seen, model, Snapshot())
      ensures reply == Now <==> seen.state == C.Ready && seen.currentModel == model && pidUp
      ensures reply.Later? <==>
              && !(seen.state == C.Ready && seen.currentModel == model && pidUp)
              && !seen.swapInProgress && seen.state != C.Starting && seen.state != C.Stopping
              && (seen.state == C.Failed && seen.failureCount > 0 ==>
                    now >= seen.lastFailure + Pause(seen.failureCount) || Pause(seen.failureCount) == 0)
              && ((seen.state == C.Ready && seen.currentModel == model && !pidUp)
                  || settings.cooldown <= 0 || seen.lastSwapTime == 0 || now >= seen.lastSwapTime + settings.cooldown)
    {
      if seen.state == C.Ready && seen.currentModel == model {
        if pidUp {
          return Now;
        }
      }
      var isCrashed := seen.state == C.Ready && seen.currentModel == model && !pidUp;
      if seen.swapInProgress || seen.state == C.Starting || seen.state == C.Stopping {
        return Refused(C.InProgress, 5);
      }
      if seen.state == C.Failed && seen.failureCount > 0 {
        var delay := C.BackoffDelay(seen.failureCount);
        if delay > 0 {
          var remaining := seen.lastFailure + delay - now;
          if remaining > 0 {
            return Refused(C.Backoff, remaining);
          }
        }
      }
      if !isCrashed {
        if settings.cooldown > 0 && seen.lastSwapTime != 0 {
          var nextAllowed := seen.lastSwapTime + settings.cooldown;
          if now < nextAllowed {
            return Refused(C.Cooldown, nextAllowed - now);
          }
        }
      }
      return Later(seen.currentModel, model);
    }

    // ----- the background swap -----

    /** performSwap: the swap, its record under the lock, and the result on the reply channel.  It succeeds
        exactly if the old process, where it has to go, is stopped, and the new one gets its limits, is not in
        the way of one that still runs in a state the run passes through, starts, and is verified. */
    method PerformSwap(k: nat, stops: bool, limits: bool, starts: bool, verifies: bool)
        returns (ok: bool, ghost at: seq<Event>)
      requires Valid() && k < |swaps| && swaps[k].phase == Running(StopOld)
      modifies this
      ensures Valid() && Onward() && k < |swaps| && swaps[k] == old(swaps[k]).(phase := Delivered(ok))
      ensures Prefix(old(trace), at) && Prefix(at, trace)
      ensures ok <==> (old(state) in {C.Stopping, C.Ready} ==> stops) && limits && starts && verifies
                      && !Run(settings, at).pidUp
      ensures exists i :: |old(log)| <= i < |log| && Records(log[i], old(swaps[k]), ok)
    {
      hide Run, Prefix;
      PrefixMeans(trace);
      ok, at := DoSwap(k, stops, limits, starts, verifies);
      ghost var i := |log|;
      FinishSwap(k, ok);
      ghost var y := Snapshot();
      swaps := SetPhase(swaps, k, Delivered(ok));
      Take(SwapOf(k), SwapStep(k, ok), y);
      assert Records(log[i], old(swaps[k]), ok);
    }

    method FinishSwap(k: nat, ok: bool)
      requires Valid() && k < |swaps| && swaps[k].phase == Running(Report(ok))
      modifies this
      ensures Valid() && Onward() && k < |swaps| && swaps[k] == old(swaps[k]).(phase := Delivering(ok))
      ensures old(log) + [Entry(old(now), ok, old(swaps[k].crash), old(swaps[k].from), old(swaps[k].model))] <= log
    {
      hide Run;
      ghost var y := Snapshot();
      HandleSwapDone(swaps[k].from, swaps[k].model, ok);
      log := log + [Entry(now, ok, swaps[k].crash, swaps[k].from, swaps[k].model)];
      swaps := SetPhase(swaps, k, Delivering(ok));
      Take(SwapOf(k), SwapStep(k, ok), y);
    }

    /** handleSwapDone, all of it under the lock. */
    method HandleSwapDone(from: string, model: string, ok: bool)
      modifies this`swapInProgress, this`state, this`currentModel, this`lastSwapTime, this`failureCount,
               this`lastFailure, this`lastSwap
      ensures Value() == C.Finished(old(Value()), from, model, ok, now)
      ensures !swapInProgress
      ensures ok ==> state == C.Ready && currentModel == model && lastSwapTime == now && failureCount == 0
                     && lastFailure == 0 && lastSwap == Some(C.LastSwap(from, model, now))
      ensures !ok ==> state == C.Failed && currentModel == old(currentModel) && lastSwapTime == old(lastSwapTime)
                      && failureCount == old(failureCount) + 1 && lastFailure == now && lastSwap == old(lastSwap)
    {
      swapInProgress := false;
      if ok {
        state := C.Ready;
        currentModel := model;
        lastSwapTime := now;
        failureCount := 0;
        lastFailure := 0;
        lastSwap := Some(C.LastSwap(from, model, lastSwapTime));
        return;
      }
      state := C.Failed;
      failureCount := failureCount + 1;
      lastFailure := now;
    }

    /** The old process is stopped only when there was a ready one; its drain can only time out. */
    method DoSwap(k: nat, stops: bool, limits: bool, starts: bool, verifies: bool)
        returns (ok: bool, ghost at: seq<Event>)
      requires Valid() && k < |swaps| && swaps[k].phase == Running(StopOld)
      modifies this
      ensures Valid() && Onward() && old(log) <= log && Passed(at)
      ensures k < |swaps| && swaps[k] == old(swaps[k]).(phase := Running(Report(ok)))
      ensures ok <==> (old(state) in {C.Stopping, C.Ready} ==> stops) && limits && starts && verifies
                      && !Run(settings, at).pidUp
    {
      hide Run, Prefix;
      at := trace;
      PrefixMeans(at);
      ok := StopOldProcess(k, stops);
      if ok {
        ok, at := StartNew(k, limits, starts, verifies);
      }
    }

    method StopOldProcess(k: nat, stops: bool) returns (ok: bool)
      requires Valid() && k < |swaps| && swaps[k].phase == Running(StopOld)
      modifies this
      ensures Valid() && Onward() && old(log) <= log && (ok <==> (old(state) in {C.Stopping, C.Ready} ==> stops))
      ensures k < |swaps| && swaps[k] == old(swaps[k]).(phase := Running(if ok then Launch else Report(false)))
    {
      hide Run, Prefix;
      ghost var y := Snapshot();
      ok := true;
      if state == C.Stopping || state == C.Ready {
        pidUp := pidUp && !stops;
        ok := stops;
      }
      swaps := SetPhase(swaps, k, Running(if ok then Launch else Report(false)));
      Take(SwapOf(k), SwapStep(k, stops), y);
    }

    method StartNew(k: nat, limits: bool, starts: bool, verifies: bool) returns (ok: bool, ghost at: seq<Event>)
      requires Valid() && k < |swaps| && swaps[k].phase == Running(Launch)
      modifies this
      ensures Valid() && Onward() && old(log) <= log && Passed(at)
      ensures k < |swaps| && swaps[k] == old(swaps[k]).(phase := Running(Report(ok)))
      ensures ok <==> limits && starts && verifies && !Run(settings, at).pidUp
    {
      hide Run, Prefix;
      ghost var y := Snapshot();
      state := C.Starting;
      swaps := SetPhase(swaps, k, Running(Limits));
      Take(SwapOf(k), SwapStep(k, true), y);
      ok := ApplyLimits(k, limits);
      at := trace;
      PrefixMeans(at);
      if ok {
        ok := StartProcess(k, starts, verifies);
      }
    }

    method ApplyLimits(k: nat, limits: bool) returns (ok: bool)
      requires Valid() && k < |swaps| && swaps[k].phase == Running(Limits)
      modifies this
      ensures Valid() && Onward() && old(log) <= log && ok == limits
      ensures k < |swaps| && swaps[k] == old(swaps[k]).(phase := Running(if ok then Start else Report(false)))
    {
      hide Run;
      ghost var y := Snapshot();
      swaps := SetPhase(swaps, k, Running(if limits then Start else Report(false)));
      Take(SwapOf(k), SwapStep(k, limits), y);
      return limits;
    }

    /** The manager refuses to start a process beside one that still runs. */
    method StartProcess(k: nat, starts: bool, verifies: bool) returns (ok: bool)
      requires Valid() && k < |swaps| && swaps[k].phase == Running(Start)
      modifies this
      ensures Valid() && Onward() && old(log) <= log
      ensures k < |swaps| && swaps[k] == old(swaps[k]).(phase := Running(Report(ok)))
      ensures ok <==> starts && verifies && !old(pidUp)
    {
      hide Run;
      ghost var y := Snapshot();
      if pidUp || !starts {
        swaps := SetPhase(swaps, k, Running(Report(false)));
        Take(SwapOf(k), SwapStep(k, false), y);
        return false;
      }
      pidUp := true;
      swaps := SetPhase(swaps, k, Running(Verify));
      Take(SwapOf(k), SwapStep(k, true), y);
      VerifyProcess(k, verifies);
      return verifies;
    }

    method VerifyProcess(k: nat, verifies: bool)
      requires Valid() && k < |swaps| && swaps[k].phase == Running(Verify)
      modifies this
      ensures Valid() && Onward() && old(log) <= log
      ensures k < |swaps| && swaps[k] == old(swaps[k]).(phase := Running(Report(verifies)))
    {
      hide Run;
      ghost var y := Snapshot();
      swaps := SetPhase(swaps, k, Running(if verifies then Report(true) else Abandon));
      Take(SwapOf(k), SwapStep(k, verifies), y);
      if !verifies {
        AbandonProcess(k);
      }
    }

    /** An error of Stop is ignored: the process may survive. */
    method AbandonProcess(k: nat)
      requires Valid() && k < |swaps| && swaps[k].phase == Running(Abandon)
      modifies this
      ensures Valid() && Onward() && old(log) <= log
      ensures k < |swaps| && swaps[k] == old(swaps[k]).(phase := Running(Report(false)))
    {
      hide Run;
      ghost var y := Snapshot();
      var died: bool := *;
      pidUp := pidUp && !died;
      swaps := SetPhase(swaps, k, Running(Report(false)));
      Take(SwapOf(k), SwapStep(k, died), y);
    }

    // ----- the callers -----

    /** A nil result means that at some instant of the call the coordinator was ready with exactly the model
        the request resolves to. */
    method EnsureModel(name: string) returns (id: nat, result: CoordinatorRuns.Result)
      requires Valid()
      modifies this
      ensures Valid() && old(trace) <= trace && id == old(|calls|) && id < |calls|
              && calls[id] == Call(name, Returned(result))
      ensures result == Nil ==> exists k: nat :: k <= |trace| && ServesCall(settings, Run(settings, trace[..k]), id)
      ensures ResolveModel(settings.models, name).Err? ==> result == NotFound || result == Cancelled
      ensures result == NotFound ==> ResolveModel(settings.models, name).Err?
      ensures result == SwapFailed ==> FailedFor(settings, Snapshot(), name)
    {
      hide Run, Prefix, ServesCall, FailedFor;
      PrefixMeans(trace);
      ghost var y := Snapshot();
      id := |calls|;
      calls := calls + [Call(name, Queued)];
      Take(CallerOf(id), Ask(name), y);
      result := AwaitReply(id);
      assert Prefix(old(trace), trace);
      NilSeen(settings, trace, id);
      ErrorsAreTrue(settings, trace, id, result);
    }

    /** The selects on the request channel, the reply and the context. */
    method AwaitReply(id: nat) returns (result: CoordinatorRuns.Result)
      requires Valid() && id < |calls| && !calls[id].progress.Returned? && !calls[id].progress.Waiting?
      modifies this
      ensures Valid() && Onward() && id < |calls| && calls[id] == old(calls[id]).(progress := Returned(result))
    {
      hide Run;
      ghost var y := Snapshot();
      var cancelled: bool := *;
      if calls[id].progress.Answered? && !cancelled {
        result := calls[id].progress.result;
        calls := calls[id := calls[id].(progress := Returned(result))];
        Take(CallerOf(id), TakeReply(id), y);
      } else if calls[id].progress.AnsweredWait? && !cancelled {
        calls := calls[id := calls[id].(progress := Waiting(calls[id].progress.swap))];
        Take(CallerOf(id), TakeReply(id), y);
        result := AwaitSwap(id);
      } else {
        result := Cancelled;
        calls := calls[id := calls[id].(progress := Returned(Cancelled))];
        Take(CallerOf(id), GiveUp(id, Cancelled), y);
      }
    }

    /** The select on the swap's result, the wait timer and the context. */
    method AwaitSwap(id: nat) returns (result: CoordinatorRuns.Result)
      requires Valid() && id < |calls| && calls[id].progress.Waiting?
      modifies this
      ensures result == Nil || result == SwapFailed ==>
                var k := old(calls[id].progress.swap);
                k < |old(swaps)| && old(swaps)[k].phase == Delivered(result == Nil)
      ensures result in {Nil, SwapFailed, Cancelled, Rejected(C.WaitTimeout)}
      ensures Valid() && Onward() && id < |calls| && calls[id] == old(calls[id]).(progress := Returned(result))
    {
      hide Run;
      ghost var y := Snapshot();
      var k, gaveUp, cancelled: bool := calls[id].progress.swap, *, *;
      if k < |swaps| && swaps[k].phase.Delivered? && !gaveUp {
        result := if swaps[k].phase.ok then Nil else SwapFailed;
        calls := calls[id := calls[id].(progress := Returned(result))];
        Take(CallerOf(id), Receive(id), y);
      } else {
        result := if cancelled then Cancelled else Rejected(C.WaitTimeout);
        calls := calls[id := calls[id].(progress := Returned(result))];
        Take(CallerOf(id), GiveUp(id, result), y);
      }
    }
  }

  /** What the loop read still holds when it decides on a swap. */
  lemma SameSinceRead(s: Settings, es: seq<Event>)
    ensures var y := Run(s, es);
            y.loop.Deciding? && C.Decide(y.loop.seen, s.cooldown, y.loop.model, y.pidUp, y.now) == C.Swap ==>
              y.c == y.loop.seen
  {
    RunInv(s, es);
  }

  lemma ActIs(s: Settings, y: Sys)
    requires y.loop.Deciding? && y.loop.call < |y.calls|
    ensures Step(s, y, Act) == LoopActs(s, y)
  {
  }

  lemma NilSeen(s: Settings, es: seq<Event>, id: nat)
    requires id < |Run(s, es).calls|
    ensures Run(s, es).calls[id].progress == Returned(Nil) ==>
              exists k: nat :: k <= |es| && ServesCall(s, Run(s, es[..k]), id)
  {
    if Run(s, es).calls[id].progress == Returned(Nil) {
      NilMeansReady(s, es, id);
    }
  }
}
