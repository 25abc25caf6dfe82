/** What the accepting loop answers, in terms of what has happened so far, and what becomes of a process that
    survives its stop. */
module CoordinatorAnswers {
  import opened Wrappers
  import opened CoordinatorRuns
  import C = Coordinator

  // ----- what the state says about the past -----

  ghost predicate LastWas(log: seq<Entry>, ok: bool)
  {
    log != [] && log[|log| - 1].ok == ok
  }

  /** A running swap that has yet to start its process. */
  predicate BeforeStart(y: Sys)
  {
    && y.swaps != [] && y.swaps[|y.swaps| - 1].phase.Running?
    && var stage := y.swaps[|y.swaps| - 1].phase.stage;
       stage.Launch? || stage.Limits? || stage.Start?
  }

  predicate BeforeStop(y: Sys)
  {
    y.swaps != [] && y.swaps[|y.swaps| - 1].phase == Running(StopOld)
  }

  /** Between swaps the state tells the last one's outcome; a process is there, or not yet stopped, only after a
      swap, and beside a start only after one that failed. */
  ghost predicate PastInv(y: Sys)
  {
    && (!y.c.swapInProgress ==>
          && (y.c.state == C.Ready <==> LastWas(y.log, true))
          && (y.c.state == C.Failed <==> LastWas(y.log, false))
          && (y.pidUp ==> y.log != []))
    && (BeforeStop(y) ==> (LastWas(y.log, true) <==> y.c.state == C.Stopping) && (y.pidUp ==> y.log != []))
    && (BeforeStart(y) ==> (y.pidUp ==> LastWas(y.log, false)))
  }

  lemma SwapKeepsPast(s: Settings, y: Sys, k: nat, ok: bool)
    requires Inv(s, y) && PastInv(y) && k < |y.swaps|
    ensures PastInv(SwapActs(y, k, ok))
  {
    hide LogOk, Due, Fails, LastSuccess, CallInv, LoopInv;
  }

  lemma ActKeepsPast(s: Settings, y: Sys)
    requires Inv(s, y) && PastInv(y) && y.loop.Deciding?
    ensures PastInv(LoopActs(s, y))
  {
    hide LogOk, Due, Fails, LastSuccess, CallInv;
  }

  lemma StepKeepsPast(s: Settings, y: Sys, e: Event)
    requires Inv(s, y) && PastInv(y)
    ensures PastInv(Step(s, y, e))
  {
    hide Inv, PastInv;
    if e.SwapStep? && e.swap < |y.swaps| {
      SwapKeepsPast(s, y, e.swap, e.ok);
    } else if e.Act? && y.loop.Deciding? {
      ActKeepsPast(s, y);
    } else {
      OtherKeepsPast(s, y, e);
    }
  }

  lemma OtherKeepsPast(s: Settings, y: Sys, e: Event)
    requires PastInv(y) && !(e.SwapStep? && e.swap < |y.swaps|) && !(e.Act? && y.loop.Deciding?)
    ensures PastInv(Step(s, y, e))
  {
  }

  lemma {:induction false} RunPast(s: Settings, es: seq<Event>)
    ensures PastInv(Run(s, es))
  {
    hide PastInv, Step;
    if es == [] {
      StartsIdle();
    } else {
      RunPast(s, es[..|es| - 1]);
      RunInv(s, es[..|es| - 1]);
      StepKeepsPast(s, Run(s, es[..|es| - 1]), es[|es| - 1]);
    }
  }

  lemma StartsIdle()
    ensures PastInv(INITIAL)
  {
  }

  // ----- the old process -----

  /** After a successful swap the next one starts its process only when the old one is gone; only a failed swap
      can leave a process in the way. */
  lemma OldProcessGone(s: Settings, es: seq<Event>)
    ensures var y := Run(s, es); BeforeStart(y) && y.pidUp ==> LastWas(y.log, false)
  {
    RunPast(s, es);
  }

  // ----- the decision -----

  /** Seconds to wait after this many failures in a row: 0, 0, 5, 15, 30 and then 60. */
  const PAUSES := [0, 0, 5, 15, 30]

  function Pause(failures: nat): int
  {
    if failures < |PAUSES| then PAUSES[failures] else 60
  }

  /** The last swap installed this model, and its process runs. */
  ghost predicate Serving(y: Sys, model: string)
  {
    LastWas(y.log, true) && y.log[|y.log| - 1].to == model && y.pidUp
  }

  /** The last swap installed this model, and its process is gone. */
  ghost predicate Restarts(y: Sys, model: string)
  {
    LastWas(y.log, true) && y.log[|y.log| - 1].to == model && !y.pidUp
  }

  ghost predicate PauseOver(y: Sys)
  {
    LastWas(y.log, false) ==> y.now >= y.log[|y.log| - 1].at + Pause(Fails(y.log))
  }

  ghost predicate CooledDown(s: Settings, y: Sys)
  {
    match LastSuccess(y.log)
    case None => true
    case Some(e) => y.now >= e.at + s.cooldown
  }

  /** A swap may begin: the pause after the failures is over, and so is the cooldown, from which the restart of
      a crashed model is exempt. */
  ghost predicate MayBegin(s: Settings, y: Sys, model: string)
  {
    PauseOver(y) && (Restarts(y, model) || CooledDown(s, y))
  }

  ghost predicate DecidedBy(s: Settings, y: Sys, seen: C.Coord, model: string, d: C.Decision)
  {
    if seen.swapInProgress then d == C.Reject(C.InProgress, 5)
    else
      && (d == C.Serve <==> Serving(y, model))
      && (d == C.Swap <==> !Serving(y, model) && MayBegin(s, y, model))
      && (d.Reject? && d.reason == C.Backoff <==> !Serving(y, model) && !PauseOver(y))
      && (d.Reject? ==> d.reason == C.Backoff || d.reason == C.Cooldown)
  }

  lemma BackoffIsPause(failures: nat)
    ensures C.BackoffDelay(failures) == Pause(failures)
  {
  }

  lemma LogTells(y: Sys)
    requires CoordInv(y) && y.log != []
    ensures LastWas(y.log, true) ==> Fails(y.log) == 0 && LastSuccess(y.log) == Some(y.log[|y.log| - 1])
    ensures LastWas(y.log, false) ==> Fails(y.log) > 0
  {
  }

  lemma DecideIsDecided(s: Settings, y: Sys, model: string)
    requires CoordInv(y) && PastInv(y) && !y.c.swapInProgress
    ensures DecidedBy(s, y, y.c, model, C.Decide(y.c, s.cooldown, model, y.pidUp, y.now))
  {
    if y.log != [] {
      LogTells(y);
    }
    BackoffIsPause(Fails(y.log));
    hide Fails, LastSuccess, C.BackoffDelay, Pause;
  }

  /** The loop's decision, from what it has read, is one about all that has been completed so far. */
  lemma DecisionFollows(s: Settings, es: seq<Event>)
    ensures var y := Run(s, es); y.loop.Deciding? ==>
              DecidedBy(s, y, y.loop.seen, y.loop.model,
                        C.Decide(y.loop.seen, s.cooldown, y.loop.model, y.pidUp, y.now))
  {
    hide DecidedBy;
    var y := Run(s, es);
    RunInv(s, es);
    RunPast(s, es);
    if y.loop.Deciding? {
      if y.loop.seen.swapInProgress {
        BusyIsDecided(s, y);
      } else {
        DecideIsDecided(s, y, y.loop.model);
      }
    }
  }

  lemma BusyIsDecided(s: Settings, y: Sys)
    requires LoopInv(s, y) && y.loop.Deciding? && y.loop.seen.swapInProgress
    ensures DecidedBy(s, y, y.loop.seen, y.loop.model,
                      C.Decide(y.loop.seen, s.cooldown, y.loop.model, y.pidUp, y.now))
  {
  }

  /** The model the last successful swap has installed. */
  function Installed(log: seq<Entry>): string
  {
    match LastSuccess(log)
    case None => ""
    case Some(e) => e.to
  }

  /** What a new swap records of the state it begins in. */
  lemma BegunAs(s: Settings, es: seq<Event>)
    requires var y := Run(s, es); y.loop.Deciding? && !y.loop.seen.swapInProgress
    ensures var y, seen := Run(s, es), Run(s, es).loop.seen;
            && y.c.currentModel == Installed(y.log)
            && (C.Crashed(seen, y.loop.model, y.pidUp) <==> Restarts(y, y.loop.model))
  {
    RunInv(s, es);
    RunPast(s, es);
    if Run(s, es).log != [] {
      LogTells(Run(s, es));
    }
    hide Fails, LastSuccess;
  }

  /** What the loop does for the request it is deciding on, exactly: it is turned away while a swap was running
      when it looked, served by the model in place, given a new swap, or made to wait for pause or cooldown. */
  lemma LoopAnswers(s: Settings, es: seq<Event>)
    requires var y := Run(s, es);
             y.loop.Deciding? && y.loop.call < |y.calls| && y.calls[y.loop.call].progress == Received
    ensures var y := Run(s, es);
            var y', id, model := Step(s, y, Act), y.loop.call, y.loop.model;
            && (|y'.swaps| > |y.swaps| <==>
                  !y.loop.seen.swapInProgress && !Serving(y, model) && MayBegin(s, y, model))
            && (|y'.swaps| > |y.swaps| ==>
                  y'.swaps == y.swaps + [Swap(Installed(y.log), model, Restarts(y, model), y.now, Running(StopOld))])
            && id < |y'.calls| && y'.loop == Free
            && y'.calls[id].progress ==
               if y.loop.seen.swapInProgress then Answered(Rejected(C.InProgress))
               else if Serving(y, model) then Answered(Nil)
               else if !PauseOver(y) then Answered(Rejected(C.Backoff))
               else if Restarts(y, model) || CooledDown(s, y) then AnsweredWait(|y.swaps|)
               else Answered(Rejected(C.Cooldown))
  {
    hide Run, Serving, Restarts, PauseOver, CooledDown, Installed, C.Decide, C.Crashed;
    DecisionFollows(s, es);
    if !Run(s, es).loop.seen.swapInProgress {
      BegunAs(s, es);
    }
  }

  lemma CallExists(s: Settings, es: seq<Event>)
    ensures var y := Run(s, es); y.loop.Deciding? ==> y.loop.call < |y.calls|
  {
    RunInv(s, es);
  }

  /** A request for the model in place whose process has died never has to wait for the cooldown. */
  lemma CrashSkipsCooldown(s: Settings, es: seq<Event>)
    requires var y := Run(s, es); y.loop.Deciding? && !y.loop.seen.swapInProgress && Restarts(y, y.loop.model)
    ensures |Step(s, Run(s, es), Act).swaps| == |Run(s, es).swaps| + 1
  {
    hide CooledDown, C.Decide, Inv;
    CallExists(s, es);
    DecisionFollows(s, es);
  }

  /** The time to retry after is exact: as long as nothing happens the answer stays a refusal for the same reason
      until then, and is another one from then on. */
  lemma RetryAfterIsExact(c: C.Coord, cooldown: int, model: string, pidUp: bool, now: int, later: int)
    requires now <= later
    ensures var d, d' := C.Decide(c, cooldown, model, pidUp, now), C.Decide(c, cooldown, model, pidUp, later);
            d.Reject? && d.reason != C.InProgress ==>
              (d'.Reject? && d'.reason == d.reason <==> later < now + d.retryAfter)
  {
  }

  // ----- a process that survives -----

  /** A process is there that no swap started since entry n has put there; none of those succeeded. */
  ghost predicate Blocked(y: Sys, n: nat)
  {
    && y.pidUp && n <= |y.log| && (forall i :: n <= i < |y.log| ==> !y.log[i].ok)
    && (!y.c.swapInProgress ==> y.c.state == C.Failed)
    && (forall k :: 0 <= k < |y.swaps| && y.swaps[k].phase.Running? ==>
          var stage := y.swaps[k].phase.stage;
          || (stage.StopOld? && y.c.state == C.Starting)
          || stage.Launch? || stage.Limits? || stage.Start? || stage == Report(false))
  }

  lemma SwapStaysBlocked(s: Settings, y: Sys, k: nat, ok: bool, n: nat)
    requires Inv(s, y) && Blocked(y, n) && k < |y.swaps|
    ensures Blocked(SwapActs(y, k, ok), n)
  {
    hide LogOk, Due, Fails, LastSuccess, CallInv, LoopInv;
  }

  lemma ActStaysBlocked(s: Settings, y: Sys, n: nat)
    requires Inv(s, y) && Blocked(y, n) && y.loop.Deciding?
    ensures Blocked(LoopActs(s, y), n)
  {
    hide LogOk, Due, Fails, LastSuccess, CallInv;
  }

  lemma StepStaysBlocked(s: Settings, y: Sys, e: Event, n: nat)
    requires Inv(s, y) && Blocked(y, n) && !e.Crash?
    ensures Blocked(Step(s, y, e), n)
  {
    hide Inv;
    if e.SwapStep? && e.swap < |y.swaps| {
      SwapStaysBlocked(s, y, e.swap, e.ok, n);
    } else if e.Act? && y.loop.Deciding? {
      ActStaysBlocked(s, y, n);
    }
  }

  /** When a swap has failed and a process is still there, no swap succeeds until that process dies by itself:
      nobody stops it, and the manager starts no other beside it. */
  lemma SurvivorBlocks(s: Settings, es: seq<Event>, more: seq<Event>)
    requires var y := Run(s, es); !y.c.swapInProgress && y.c.state == C.Failed && y.pidUp
    requires forall i :: 0 <= i < |more| ==> !more[i].Crash?
    ensures var n, y' := |Run(s, es).log|, Run(s, es + more);
            y'.pidUp && n <= |y'.log| && forall i :: n <= i < |y'.log| ==> !y'.log[i].ok
  {
    BlockedAfter(s, es, more);
  }

  lemma {:induction false} BlockedAfter(s: Settings, es: seq<Event>, more: seq<Event>)
    requires var y := Run(s, es); !y.c.swapInProgress && y.c.state == C.Failed && y.pidUp
    requires forall i :: 0 <= i < |more| ==> !more[i].Crash?
    ensures Blocked(Run(s, es + more), |Run(s, es).log|)
    decreases |more|
  {
    hide Step;
    if more == [] {
      assert es + more == es;
      RunInv(s, es);
    } else {
      var past := more[..|more| - 1];
      BlockedAfter(s, es, past);
      RunInv(s, es + past);
      assert (es + more)[..|es + more| - 1] == es + past;
      StepStaysBlocked(s, Run(s, es + past), more[|more| - 1], |Run(s, es).log|);
    }
  }

  /** A stop that fails while the process is up leads there. */
  lemma FailedStopLeavesSurvivor(s: Settings, es: seq<Event>, k: nat)
    requires var y := Run(s, es); k < |y.swaps| && y.swaps[k].phase == Running(StopOld) && y.pidUp
                                  && y.c.state == C.Stopping
    ensures var y' := Run(s, es + [SwapStep(k, false), SwapStep(k, false)]);
            !y'.c.swapInProgress && y'.c.state == C.Failed && y'.pidUp
  {
    var one := es + [SwapStep(k, false)];
    assert one[..|one| - 1] == es;
    var two := es + [SwapStep(k, false), SwapStep(k, false)];
    assert two[..|two| - 1] == one;
  }

  // ----- what a caller's result means -----

  /** A swap to the model this name resolves to has failed. */
  ghost predicate FailedFor(s: Settings, y: Sys, name: string)
  {
    exists k: nat :: k < |y.swaps| && y.swaps[k].phase == Delivered(false) && Target(s, name) == Some(y.swaps[k].model)
  }

  /** Nobody is told of a missing model that exists or of a failure that did not happen, and a request for a
      missing model gets nothing else. */
  ghost predicate ResultOk(s: Settings, y: Sys, id: nat)
    requires id < |y.calls|
  {
    var name, p := y.calls[id].name, y.calls[id].progress;
    && (p == Answered(NotFound) || p == Returned(NotFound) ==> Target(s, name).None?)
    && (Target(s, name).None? ==>
          p == Queued || p == Answered(NotFound) || p == Returned(NotFound) || p == Returned(Cancelled))
    && p != Answered(SwapFailed)
    && (p == Returned(SwapFailed) ==> FailedFor(s, y, name))
  }

  /** Failed swaps stay on record. */
  lemma FailuresStay(s: Settings, y: Sys, e: Event, name: string)
    requires FailedFor(s, y, name)
    ensures FailedFor(s, Step(s, y, e), name)
  {
    var k: nat :| k < |y.swaps| && y.swaps[k].phase == Delivered(false) && Target(s, name) == Some(y.swaps[k].model);
    assert Step(s, y, e).swaps[k] == y.swaps[k];
  }

  lemma SwapKeepsResult(s: Settings, y: Sys, k: nat, ok: bool, id: nat)
    requires id < |y.calls| && ResultOk(s, y, id) && k < |y.swaps|
    ensures SwapActs(y, k, ok).calls == y.calls && ResultOk(s, SwapActs(y, k, ok), id)
  {
    if y.calls[id].progress == Returned(SwapFailed) {
      FailuresStay(s, y, SwapStep(k, ok), y.calls[id].name);
    }
  }

  lemma LoopKeepsResult(s: Settings, y: Sys, id: nat)
    requires Inv(s, y) && y.loop.Deciding? && id < |y.calls| && ResultOk(s, y, id)
    ensures id < |LoopActs(s, y).calls| && ResultOk(s, LoopActs(s, y), id)
  {
    hide LogOk, SwapInv, CoordInv, C.Decide;
    if y.calls[id].progress == Returned(SwapFailed) {
      FailuresStay(s, y, Act, y.calls[id].name);
    }
  }

  lemma CallerKeepsResult(s: Settings, y: Sys, e: Event, id: nat)
    requires Inv(s, y) && id < |y.calls| && ResultOk(s, y, id) && !e.Act? && !e.SwapStep?
    ensures id < |Step(s, y, e).calls| && ResultOk(s, Step(s, y, e), id)
  {
    hide LogOk, SwapInv, CoordInv, LoopInv;
    assert CallInv(s, y, id);
    if y.calls[id].progress == Returned(SwapFailed) {
      FailuresStay(s, y, e, y.calls[id].name);
    }
  }

  lemma StepKeepsResult(s: Settings, y: Sys, e: Event, id: nat)
    requires Inv(s, y) && id < |y.calls| && ResultOk(s, y, id)
    ensures id < |Step(s, y, e).calls| && ResultOk(s, Step(s, y, e), id)
  {
    hide Inv, ResultOk;
    if e.SwapStep? && e.swap < |y.swaps| {
      SwapKeepsResult(s, y, e.swap, e.ok, id);
    } else if e.Act? && y.loop.Deciding? {
      LoopExists(s, y);
      LoopKeepsResult(s, y, id);
    } else if !e.SwapStep? && !e.Act? {
      CallerKeepsResult(s, y, e, id);
    }
  }

  lemma LoopExists(s: Settings, y: Sys)
    requires Inv(s, y) && y.loop.Deciding?
    ensures y.loop.call < |y.calls|
  {
  }

  lemma {:induction false} RunResult(s: Settings, es: seq<Event>, id: nat)
    requires id < |Run(s, es).calls|
    ensures ResultOk(s, Run(s, es), id)
  {
    hide Step, ResultOk;
    var past, e := es[..|es| - 1], es[|es| - 1];
    var y := Run(s, past);
    if id < |y.calls| {
      RunResult(s, past, id);
      RunInv(s, past);
      StepKeepsResult(s, y, e, id);
    } else {
      NewCallOk(s, y, e, id);
    }
  }

  lemma NewCallOk(s: Settings, y: Sys, e: Event, id: nat)
    requires |y.calls| <= id < |Step(s, y, e).calls|
    ensures ResultOk(s, Step(s, y, e), id)
  {
  }

  /** The error EnsureModel returns is the true one: "not found" only for a name that resolves to no model, and
      for such a name nothing but that or a cancellation; a failed swap only if one to that model failed. */
  lemma ErrorsAreTrue(s: Settings, es: seq<Event>, id: nat, result: CoordinatorRuns.Result)
    requires id < |Run(s, es).calls| && Run(s, es).calls[id].progress == Returned(result)
    ensures var y := Run(s, es);
            var target := Target(s, y.calls[id].name);
            && (result == NotFound ==> target.None?)
            && (target.None? ==> result == NotFound || result == Cancelled)
            && (result == SwapFailed ==> FailedFor(s, y, y.calls[id].name))
  {
    RunResult(s, es, id);
  }
}
