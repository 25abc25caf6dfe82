/**
 Whole runs of the coordinator: callers of EnsureModel, the single accepting loop and the background
 swaps, interleaved in any order.  A step is one channel operation or one critical section.
 */
module CoordinatorRuns {
  import opened Wrappers
  import opened Config
  import C = Coordinator

  /** The parts of performSwap between its critical sections.  The manager refuses to start a second process
      beside one that still runs; one that fails its check is told to stop. */
  datatype Stage = StopOld | Launch | Limits | Start | Verify | Abandon | Report(ok: bool)

  /** A swap runs until handleSwapDone; then its result is still to be put on the reply channel. */
  datatype Phase = Running(stage: Stage) | Delivering(ok: bool) | Delivered(ok: bool)

  datatype Swap = Swap(from: string, model: string, crash: bool, acceptedAt: int, phase: Phase)

  datatype Result = Nil | NotFound | Rejected(reason: C.Reason) | SwapFailed | Cancelled

  datatype Progress =
    | Queued
    | Received
    | Answered(result: Result)
    | AnsweredWait(swap: nat)
    | Waiting(swap: nat)
    | Returned(result: Result)

  datatype Call = Call(name: string, progress: Progress)

  /** The loop between reading the fields and acting on what it read. */
  datatype Loop = Free | Deciding(call: nat, model: string, seen: C.Coord)

  /** One completed swap, as handleSwapDone records it. */
  datatype Entry = Entry(at: int, ok: bool, crash: bool, from: string, to: string)

  datatype Sys = Sys(now: int, c: C.Coord, pidUp: bool, loop: Loop, calls: seq<Call>, swaps: seq<Swap>, log: seq<Entry>)

  datatype Settings = Settings(models: map<string, ModelConfig>, cooldown: int)

  /** The name ResolveModel gives for a requested one. */
  function Target(s: Settings, name: string): Option<string>
  {
    match ResolveModel(s.models, name)
    case Ok(r) => Some(r.0)
    case Err(_) => None
  }

  datatype Event =
    | Tick(d: nat)
    | Crash
    | Ask(name: string)
    | Accept(call: nat)
    | Act
    | TakeReply(call: nat)
    | Receive(call: nat)
    | GiveUp(call: nat, result: Result)
    | SwapStep(swap: nat, ok: bool)

  /** The clock starts after Go's zero time. */
  const INITIAL := Sys(1, C.NEW_COORD, false, Free, [], [], [])

  function Answer(calls: seq<Call>, call: nat, progress: Progress): seq<Call>
    requires call < |calls|
  {
    if calls[call].progress == Received then calls[call := calls[call].(progress := progress)] else calls
  }

  function LoopActs(s: Settings, y: Sys): Sys
    requires y.loop.Deciding? && y.loop.call < |y.calls|
  {
    var id, model := y.loop.call, y.loop.model;
    match C.Decide(y.loop.seen, s.cooldown, model, y.pidUp, y.now)
    case Serve => y.(loop := Free, calls := Answer(y.calls, id, Answered(Nil)))
    case Reject(reason, _) => y.(loop := Free, calls := Answer(y.calls, id, Answered(Rejected(reason))))
    case Swap =>
      y.(loop := Free, calls := Answer(y.calls, id, AnsweredWait(|y.swaps|)),
         c := y.c.(swapInProgress := true, state := if y.loop.seen.state == C.Ready then C.Stopping else C.Starting),
         swaps := y.swaps + [Swap(y.c.currentModel, model, C.Crashed(y.loop.seen, model, y.pidUp), y.now,
           Running(StopOld))])
  }

  function SetPhase(swaps: seq<Swap>, k: nat, phase: Phase): seq<Swap>
    requires k < |swaps|
  {
    swaps[k := swaps[k].(phase := phase)]
  }

  function SwapActs(y: Sys, k: nat, ok: bool): Sys
    requires k < |y.swaps|
  {
    var w := y.swaps[k];
    match w.phase
    case Running(StopOld) =>
      if y.c.state == C.Stopping || y.c.state == C.Ready
      then y.(swaps := SetPhase(y.swaps, k, Running(if ok then Launch else Report(false))), pidUp := y.pidUp && !ok)
      else y.(swaps := SetPhase(y.swaps, k, Running(Launch)))
    case Running(Launch) => y.(swaps := SetPhase(y.swaps, k, Running(Limits)), c := C.Launched(y.c))
    case Running(Limits) => y.(swaps := SetPhase(y.swaps, k, Running(if ok then Start else Report(false))))
    case Running(Start) =>
      if y.pidUp then y.(swaps := SetPhase(y.swaps, k, Running(Report(false))))
      else y.(swaps := SetPhase(y.swaps, k, Running(if ok then Verify else Report(false))), pidUp := ok)
    case Running(Verify) => y.(swaps := SetPhase(y.swaps, k, Running(if ok then Report(true) else Abandon)))
    case Running(Abandon) => y.(swaps := SetPhase(y.swaps, k, Running(Report(false))), pidUp := y.pidUp && !ok)
    case Running(Report(done)) =>
      y.(swaps := SetPhase(y.swaps, k, Delivering(done)), c := C.Finished(y.c, w.from, w.model, done, y.now),
         log := y.log + [Entry(y.now, done, w.crash, w.from, w.model)])
    case Delivering(done) => y.(swaps := SetPhase(y.swaps, k, Delivered(done)))
    case Delivered(_) => y
  }

  /** An event that cannot happen in the state it is offered to changes nothing. */
  function Step(s: Settings, y: Sys, e: Event): Sys
  {
    match e
    case Tick(d) => y.(now := y.now + d)
    case Crash => y.(pidUp := false)
    case Ask(name) => y.(calls := y.calls + [Call(name, Queued)])
    case Accept(id) =>
      if y.loop == Free && id < |y.calls| && y.calls[id].progress == Queued then
        match Target(s, y.calls[id].name)
        case None => y.(calls := y.calls[id := y.calls[id].(progress := Answered(NotFound))])
        case Some(model) => y.(calls := y.calls[id := y.calls[id].(progress := Received)],
          loop := Deciding(id, model, y.c))
      else y
    case Act => if y.loop.Deciding? && y.loop.call < |y.calls| then LoopActs(s, y) else y
    case TakeReply(id) =>
      if id < |y.calls| && y.calls[id].progress.Answered? then
        y.(calls := y.calls[id := y.calls[id].(progress := Returned(y.calls[id].progress.result))])
      else if id < |y.calls| && y.calls[id].progress.AnsweredWait? then
        y.(calls := y.calls[id := y.calls[id].(progress := Waiting(y.calls[id].progress.swap))])
      else y
    case Receive(id) =>
      if id < |y.calls| && y.calls[id].progress.Waiting? && y.calls[id].progress.swap < |y.swaps|
         && y.swaps[y.calls[id].progress.swap].phase.Delivered?
      then
        var result := if y.swaps[y.calls[id].progress.swap].phase.ok then Nil else SwapFailed;
        y.(calls := y.calls[id := y.calls[id].(progress := Returned(result))])
      else y
    case GiveUp(id, r) =>
      if id < |y.calls| && !y.calls[id].progress.Returned?
        && (r == Cancelled || (r == Rejected(C.WaitTimeout) && y.calls[id].progress.Waiting?))
      then y.(calls := y.calls[id := y.calls[id].(progress := Returned(r))])
      else y
    case SwapStep(k, ok) => if k < |y.swaps| then SwapActs(y, k, ok) else y
  }

  function Run(s: Settings, es: seq<Event>): Sys
  {
    if es == [] then INITIAL else Step(s, Run(s, es[..|es| - 1]), es[|es| - 1])
  }

  // ----- the log -----

  /** Consecutive failures at the end of the log. */
  function Fails(log: seq<Entry>): nat
  {
    if log == [] || log[|log| - 1].ok then 0 else Fails(log[..|log| - 1]) + 1
  }

  function LastSuccess(log: seq<Entry>): Option<Entry>
  {
    if log == [] then None
    else if log[|log| - 1].ok then Some(log[|log| - 1])
    else LastSuccess(log[..|log| - 1])
  }

  /** What a completion, or an acceptance, at a given time owes to the completions before it. */
  ghost predicate Due(cooldown: int, past: seq<Entry>, at: int, crash: bool, from: string)
  {
    && (past != [] ==> at >= past[|past| - 1].at + C.BackoffDelay(Fails(past)))
    && (match LastSuccess(past)
        case None => from == ""
        case Some(e) => from == e.to && at >= e.at + (if crash || cooldown < 0 then 0 else cooldown))
  }

  ghost predicate LogOk(cooldown: int, log: seq<Entry>)
  {
    forall i :: 0 <= i < |log| ==> Due(cooldown, log[..i], log[i].at, log[i].crash, log[i].from)
  }

  // ----- the invariant -----

  ghost predicate CoordInv(y: Sys)
  {
    && (y.c.swapInProgress <==> y.c.state == C.Starting || y.c.state == C.Stopping)
    && (!y.c.swapInProgress && y.c.failureCount > 0 ==> y.c.state == C.Failed)
    && y.c.failureCount == Fails(y.log)
    && y.now > 0
    && (y.log != [] ==> 0 < y.log[|y.log| - 1].at <= y.now)
    && (y.c.failureCount > 0 ==> y.c.lastFailure == y.log[|y.log| - 1].at)
    && (match LastSuccess(y.log)
        case None => y.c.currentModel == "" && y.c.lastSwapTime == 0
        case Some(e) => y.c.currentModel == e.to && y.c.lastSwapTime == e.at && 0 < e.at <= y.now)
  }

  /** At most one swap runs, it is the newest, and it was accepted when the log allowed it. */
  ghost predicate SwapInv(s: Settings, y: Sys)
  {
    && (forall k :: 0 <= k < |y.swaps| && y.swaps[k].phase.Running? ==> k == |y.swaps| - 1)
    && (y.c.swapInProgress <==> y.swaps != [] && y.swaps[|y.swaps| - 1].phase.Running?)
    && (y.c.swapInProgress ==>
          var w := y.swaps[|y.swaps| - 1];
          w.acceptedAt <= y.now && Due(s.cooldown, y.log, w.acceptedAt, w.crash, w.from))
  }

  ghost predicate CallInv(s: Settings, y: Sys, id: nat)
    requires id < |y.calls|
  {
    var p := y.calls[id].progress;
    (p.AnsweredWait? || p.Waiting? ==>
       && p.swap < |y.swaps|
       && Target(s, y.calls[id].name) == Some(y.swaps[p.swap].model))
  }

  /** What the loop read is still so when it acts, unless it read that a swap was running. */
  ghost predicate LoopInv(s: Settings, y: Sys)
  {
    y.loop.Deciding? ==>
      && y.loop.call < |y.calls|
      && Target(s, y.calls[y.loop.call].name) == Some(y.loop.model)
      && (!y.loop.seen.swapInProgress ==> y.c == y.loop.seen)
      && (y.loop.seen.swapInProgress ==> y.loop.seen.state != C.Ready)
  }

  ghost predicate Inv(s: Settings, y: Sys)
  {
    && CoordInv(y)
    && SwapInv(s, y)
    && LoopInv(s, y)
    && (forall id :: 0 <= id < |y.calls| ==> CallInv(s, y, id))
    && LogOk(s.cooldown, y.log)
  }

  lemma LogSnoc(cooldown: int, log: seq<Entry>, e: Entry)
    requires LogOk(cooldown, log) && Due(cooldown, log, e.at, e.crash, e.from)
    ensures LogOk(cooldown, log + [e])
    ensures Fails(log + [e]) == if e.ok then 0 else Fails(log) + 1
    ensures LastSuccess(log + [e]) == if e.ok then Some(e) else LastSuccess(log)
  {
    var log' := log + [e];
    forall i | 0 <= i < |log'|
      ensures Due(cooldown, log'[..i], log'[i].at, log'[i].crash, log'[i].from)
    {
      assert log'[..i] == log[..i];
      assert log[..|log|] == log;
    }
    assert log'[..|log|] == log;
  }

  /** A swap is accepted on what is still the current state, at a time the log allows. */
  lemma AcceptedWhenDue(s: Settings, y: Sys)
    requires Inv(s, y) && y.loop.Deciding? && C.Decide(y.loop.seen, s.cooldown, y.loop.model, y.pidUp, y.now) == C.Swap
    ensures !y.c.swapInProgress && y.c == y.loop.seen && LoopActs(s, y).c == C.Begun(y.c)
    ensures Due(s.cooldown, y.log, y.now, C.Crashed(y.loop.seen, y.loop.model, y.pidUp), y.c.currentModel)
  {
  }

  lemma AnswerKeepsInv(s: Settings, y: Sys, result: Result)
    requires Inv(s, y) && y.loop.Deciding?
    ensures Inv(s, y.(loop := Free, calls := Answer(y.calls, y.loop.call, Answered(result))))
  {
    var y' := y.(loop := Free, calls := Answer(y.calls, y.loop.call, Answered(result)));
    forall id | 0 <= id < |y'.calls|
      ensures CallInv(s, y', id)
    {
      assert CallInv(s, y, id);
    }
  }

  lemma SwapBeginKeepsInv(s: Settings, y: Sys)
    requires Inv(s, y) && y.loop.Deciding? && C.Decide(y.loop.seen, s.cooldown, y.loop.model, y.pidUp, y.now) == C.Swap
    ensures Inv(s, LoopActs(s, y))
  {
    hide LogOk, Due, Fails, LastSuccess;
    AcceptedWhenDue(s, y);
    var y' := LoopActs(s, y);
    forall id | 0 <= id < |y'.calls|
      ensures CallInv(s, y', id)
    {
      assert CallInv(s, y, id);
    }
  }

  lemma ActKeepsInv(s: Settings, y: Sys)
    requires Inv(s, y)
    ensures Inv(s, Step(s, y, Act))
  {
    if !y.loop.Deciding? {
      return;
    }
    match C.Decide(y.loop.seen, s.cooldown, y.loop.model, y.pidUp, y.now)
    case Serve => AnswerKeepsInv(s, y, Nil);
    case Reject(reason, _) => AnswerKeepsInv(s, y, Rejected(reason));
    case Swap => SwapBeginKeepsInv(s, y);
  }

  lemma CallsKept(s: Settings, y: Sys, y': Sys)
    requires forall id :: 0 <= id < |y.calls| ==> CallInv(s, y, id)
    requires y'.calls == y.calls && |y'.swaps| == |y.swaps| && forall k :: 0 <= k < |y.swaps| ==>
             y'.swaps[k].model == y.swaps[k].model
    ensures forall id :: 0 <= id < |y'.calls| ==> CallInv(s, y', id)
  {
    forall id | 0 <= id < |y'.calls|
      ensures CallInv(s, y', id)
    {
      assert CallInv(s, y, id);
    }
  }

  /** A step inside a running swap leaves the log alone and the state transitional. */
  lemma InnerStepKeepsInv(s: Settings, y: Sys, y': Sys, k: nat, stage: Stage)
    requires Inv(s, y) && k < |y.swaps| && y.swaps[k].phase.Running?
    requires y' == y.(swaps := SetPhase(y.swaps, k, Running(stage)), c := y'.c, pidUp := y'.pidUp)
    requires y'.c == y.c || y'.c == C.Launched(y.c)
    ensures Inv(s, y')
  {
    CallsKept(s, y, y');
  }

  lemma DueLater(cooldown: int, past: seq<Entry>, at: int, later: int, crash: bool, from: string)
    requires Due(cooldown, past, at, crash, from) && at <= later
    ensures Due(cooldown, past, later, crash, from)
  {
  }

  predicate Reports(y: Sys, k: nat)
  {
    k < |y.swaps| && y.swaps[k].phase.Running? && y.swaps[k].phase.stage.Report?
  }

  function Reported(y: Sys, k: nat): Entry
    requires Reports(y, k)
  {
    Entry(y.now, y.swaps[k].phase.stage.ok, y.swaps[k].crash, y.swaps[k].from, y.swaps[k].model)
  }

  lemma ReportIs(y: Sys, k: nat, ok: bool)
    requires Reports(y, k)
    ensures var w, e := y.swaps[k], Reported(y, k);
            SwapActs(y, k, ok) == y.(swaps := SetPhase(y.swaps, k, Delivering(e.ok)),
                                     c := C.Finished(y.c, w.from, w.model, e.ok, y.now), log := y.log + [e])
  {
  }

  lemma ReportKeepsCoord(s: Settings, y: Sys, k: nat, ok: bool)
    requires CoordInv(y) && LogOk(s.cooldown, y.log) && Reports(y, k)
    requires Due(s.cooldown, y.log, y.now, y.swaps[k].crash, y.swaps[k].from)
    ensures var y' := SwapActs(y, k, ok); CoordInv(y') && LogOk(s.cooldown, y'.log)
  {
    hide Due, LogOk, Fails, LastSuccess, SwapActs;
    ReportIs(y, k, ok);
    LogSnoc(s.cooldown, y.log, Reported(y, k));
  }

  lemma ReportKeepsSwaps(s: Settings, y: Sys, k: nat, ok: bool)
    requires SwapInv(s, y) && LoopInv(s, y) && Reports(y, k)
    ensures SwapInv(s, SwapActs(y, k, ok)) && LoopInv(s, SwapActs(y, k, ok))
  {
    hide Due;
  }

  lemma ReportKeepsInv(s: Settings, y: Sys, k: nat, ok: bool)
    requires Inv(s, y) && Reports(y, k)
    ensures Inv(s, SwapActs(y, k, ok))
  {
    hide CallInv, CoordInv, LoopInv, Due, LogOk;
    var w := y.swaps[k];
    CallsKept(s, y, SwapActs(y, k, ok));
    assert Due(s.cooldown, y.log, w.acceptedAt, w.crash, w.from);
    DueLater(s.cooldown, y.log, w.acceptedAt, y.now, w.crash, w.from);
    ReportKeepsCoord(s, y, k, ok);
    ReportKeepsSwaps(s, y, k, ok);
  }

  lemma DeliverKeepsInv(s: Settings, y: Sys, k: nat, ok: bool)
    requires Inv(s, y) && k < |y.swaps| && !y.swaps[k].phase.Running?
    ensures Inv(s, SwapActs(y, k, ok))
  {
    hide LogOk, CallInv, Fails, LastSuccess;
    CallsKept(s, y, SwapActs(y, k, ok));
  }

  lemma SwapKeepsInv(s: Settings, y: Sys, k: nat, ok: bool)
    requires Inv(s, y)
    ensures Inv(s, Step(s, y, SwapStep(k, ok)))
  {
    hide Inv;
    if k >= |y.swaps| {
      return;
    }
    if !y.swaps[k].phase.Running? {
      DeliverKeepsInv(s, y, k, ok);
    } else if y.swaps[k].phase.stage.Report? {
      ReportKeepsInv(s, y, k, ok);
    } else {
      InnerStepKeepsInv(s, y, SwapActs(y, k, ok), k, SwapActs(y, k, ok).swaps[k].phase.stage);
    }
  }

  lemma CallStepKeepsInv(s: Settings, y: Sys, id: nat, progress: Progress)
    requires Inv(s, y) && id < |y.calls|
    requires progress.AnsweredWait? || progress.Waiting? ==>
               && (y.calls[id].progress.AnsweredWait? || y.calls[id].progress.Waiting?)
               && progress.swap == y.calls[id].progress.swap
    ensures Inv(s, y.(calls := y.calls[id := y.calls[id].(progress := progress)]))
  {
    var y' := y.(calls := y.calls[id := y.calls[id].(progress := progress)]);
    forall j | 0 <= j < |y'.calls|
      ensures CallInv(s, y', j)
    {
      assert CallInv(s, y, j);
    }
  }

  lemma EnvironmentKeepsInv(s: Settings, y: Sys, e: Event)
    requires Inv(s, y) && (e.Tick? || e.Crash?)
    ensures Inv(s, Step(s, y, e))
  {
    CallsKept(s, y, Step(s, y, e));
  }

  lemma AskKeepsInv(s: Settings, y: Sys, name: string)
    requires Inv(s, y)
    ensures Inv(s, Step(s, y, Ask(name)))
  {
    var y' := y.(calls := y.calls + [Call(name, Queued)]);
    forall id | 0 <= id < |y'.calls|
      ensures CallInv(s, y', id)
    {
      assert id < |y.calls| ==> CallInv(s, y, id);
    }
  }

  lemma AcceptKeepsInv(s: Settings, y: Sys, id: nat)
    requires Inv(s, y)
    ensures Inv(s, Step(s, y, Accept(id)))
  {
    if y.loop == Free && id < |y.calls| && y.calls[id].progress == Queued {
      var progress := if Target(s, y.calls[id].name).None? then Answered(NotFound) else Received;
      var y0 := y.(calls := y.calls[id := y.calls[id].(progress := progress)]);
      CallStepKeepsInv(s, y, id, progress);
      CallsKept(s, y0, Step(s, y, Accept(id)));
    }
  }

  lemma CallEventKeepsInv(s: Settings, y: Sys, e: Event)
    requires Inv(s, y) && (e.TakeReply? || e.Receive? || e.GiveUp?)
    ensures Inv(s, Step(s, y, e))
  {
    hide Inv;
    var id := e.call;
    if id < |y.calls| {
      CallStepKeepsInv(s, y, id, Step(s, y, e).calls[id].progress);
      assert y.calls[id := y.calls[id]] == y.calls;
    }
  }

  lemma StepKeepsInv(s: Settings, y: Sys, e: Event)
    requires Inv(s, y)
    ensures Inv(s, Step(s, y, e))
  {
    match e
    case Tick(_) => EnvironmentKeepsInv(s, y, e);
    case Crash => EnvironmentKeepsInv(s, y, e);
    case Ask(name) => AskKeepsInv(s, y, name);
    case Accept(id) => AcceptKeepsInv(s, y, id);
    case Act => ActKeepsInv(s, y);
    case SwapStep(k, ok) => SwapKeepsInv(s, y, k, ok);
    case _ => CallEventKeepsInv(s, y, e);
  }

  lemma {:induction false} RunInv(s: Settings, es: seq<Event>)
    ensures Inv(s, Run(s, es))
  {
    if es != [] {
      RunInv(s, es[..|es| - 1]);
      StepKeepsInv(s, Run(s, es[..|es| - 1]), es[|es| - 1]);
    }
  }

  // ----- main results -----

  /** swapInProgress mirrors the transitional states, and two swaps never run at once. */
  lemma OneSwapAtATime(s: Settings, es: seq<Event>, i: nat, j: nat)
    ensures var y := Run(s, es);
            && (y.c.swapInProgress <==> y.c.state == C.Starting || y.c.state == C.Stopping)
            && (y.c.swapInProgress <==> exists k :: 0 <= k < |y.swaps| && y.swaps[k].phase.Running?)
            && (i < j < |y.swaps| ==> !y.swaps[i].phase.Running?)
  {
    RunInv(s, es);
  }

  /** Successful swaps chain: each starts from the model the previous one installed. */
  lemma SuccessesChain(s: Settings, es: seq<Event>, i: nat)
    requires i < |Run(s, es).log|
    ensures var log := Run(s, es).log;
            log[i].from == match LastSuccess(log[..i]) case None => "" case Some(e) => e.to
    ensures Run(s, es).c.failureCount == Fails(Run(s, es).log)
  {
    RunInv(s, es);
    var log := Run(s, es).log;
    assert Due(s.cooldown, log[..i], log[i].at, log[i].crash, log[i].from);
  }

  /** Completions i+1..j that succeeded without being crash restarts. */
  function Paid(log: seq<Entry>, i: nat, j: nat): nat
    requires i <= j < |log|
    decreases j
  {
    if i == j then 0 else Paid(log, i, j - 1) + if log[j].ok && !log[j].crash then 1 else 0
  }

  /** The same completions, each charged the cooldown. */
  function Owed(cooldown: int, log: seq<Entry>, i: nat, j: nat): int
    requires i <= j < |log|
    decreases j
  {
    if i == j then 0 else Owed(cooldown, log, i, j - 1) + if log[j].ok && !log[j].crash then cooldown else 0
  }

  lemma {:induction false} OwedIsProduct(cooldown: int, log: seq<Entry>, i: nat, j: nat)
    requires i <= j < |log|
    ensures Owed(cooldown, log, i, j) == cooldown * Paid(log, i, j)
    decreases j
  {
    if i < j {
      OwedIsProduct(cooldown, log, i, j - 1);
    }
  }

  lemma LastSuccessStep(log: seq<Entry>, j: nat)
    requires j < |log|
    ensures LastSuccess(log[..j + 1]) == if log[j].ok then Some(log[j]) else LastSuccess(log[..j])
  {
    assert log[..j + 1][..j] == log[..j] && log[..j + 1][j] == log[j];
  }

  /** A completion comes after the last success, and a cooldown later unless it is a crash restart. */
  lemma DueAfterSuccess(cooldown: int, log: seq<Entry>, j: nat)
    requires LogOk(cooldown, log) && j < |log| && LastSuccess(log[..j]).Some?
    ensures log[j].at >= LastSuccess(log[..j]).value.at + if log[j].crash || cooldown < 0 then 0 else cooldown
  {
    assert Due(cooldown, log[..j], log[j].at, log[j].crash, log[j].from);
  }

  lemma {:induction false} PaidBound(cooldown: int, log: seq<Entry>, i: nat, j: nat)
    requires LogOk(cooldown, log) && i <= j < |log| && log[i].ok
    ensures LastSuccess(log[..j + 1]).Some?
    ensures LastSuccess(log[..j + 1]).value.at - log[i].at >= Owed(cooldown, log, i, j)
    decreases j
  {
    hide LogOk;
    LastSuccessStep(log, j);
    if i < j {
      PaidBound(cooldown, log, i, j - 1);
      DueAfterSuccess(cooldown, log, j);
    }
  }

  /** Between two successful swaps, every success that was not a crash restart costs a cooldown. */
  lemma SwapRateBound(s: Settings, es: seq<Event>, i: nat, j: nat)
    requires i <= j < |Run(s, es).log| && Run(s, es).log[i].ok && Run(s, es).log[j].ok
    ensures var log := Run(s, es).log;
            log[j].at - log[i].at >= s.cooldown * Paid(log, i, j)
  {
    RunInv(s, es);
    var log := Run(s, es).log;
    PaidBound(s.cooldown, log, i, j);
    LastSuccessStep(log, j);
    OwedIsProduct(s.cooldown, log, i, j);
  }

  /** The least time from the first to the last of n consecutive failures. */
  function Span(n: nat): int
    ensures n >= 5 ==> Span(n) == 50 + 60 * (n - 5)
  {
    if n <= 1 then 0 else Span(n - 1) + C.BackoffDelay(n - 1)
  }

  lemma {:induction false} FailsAtLeast(log: seq<Entry>, i: nat)
    requires i <= |log| && forall k :: i <= k < |log| ==> !log[k].ok
    ensures Fails(log) >= |log| - i
  {
    if i < |log| {
      FailsAtLeast(log[..|log| - 1], i);
    }
  }

  lemma {:induction false} FailureSpan(cooldown: int, log: seq<Entry>, i: nat, j: nat)
    requires LogOk(cooldown, log) && i < j <= |log| && forall k :: i <= k < j ==> !log[k].ok
    ensures log[j - 1].at - log[i].at >= Span(j - i)
    decreases j
  {
    if j > i + 1 {
      FailureSpan(cooldown, log, i, j - 1);
      FailsAtLeast(log[..j - 1], i);
      assert Due(cooldown, log[..j - 1], log[j - 1].at, log[j - 1].crash, log[j - 1].from);
    }
  }

  /** Failures i..j-1 in a row, at least five of them, take at least 50 + 60 * (their number - 5) seconds. */
  lemma BackoffBound(s: Settings, es: seq<Event>, i: nat, j: nat)
    requires i + 5 <= j <= |Run(s, es).log| && forall k :: i <= k < j ==> !Run(s, es).log[k].ok
    ensures var log := Run(s, es).log;
            log[j - 1].at - log[i].at >= 50 + 60 * (j - i - 5)
  {
    RunInv(s, es);
    FailureSpan(s.cooldown, Run(s, es).log, i, j);
  }

  // ----- linearisation -----

  /** Call id has a nil result, or one on its way to it. */
  ghost predicate NilBound(y: Sys, id: nat)
  {
    && id < |y.calls|
    && var p := y.calls[id].progress;
       || p == Returned(Nil) || p == Answered(Nil)
       || ((p.AnsweredWait? || p.Waiting?) && p.swap < |y.swaps| && !y.swaps[p.swap].phase.Running?
         && y.swaps[p.swap].phase.ok)
  }

  /** The call is under way and the coordinator is ready with exactly the model it asked for. */
  ghost predicate ServesCall(s: Settings, y: Sys, id: nat)
  {
    && id < |y.calls| && !y.calls[id].progress.Returned?
    && y.c.state == C.Ready && Target(s, y.calls[id].name) == Some(y.c.currentModel)
  }

  lemma NilFromLoop(s: Settings, y: Sys, id: nat)
    requires Inv(s, y) && y.loop.Deciding? && !NilBound(y, id) && NilBound(LoopActs(s, y), id)
    ensures ServesCall(s, y, id)
  {
    hide LogOk, SwapInv;
    assert id < |y.calls| ==> CallInv(s, y, id);
    assert C.Decide(y.loop.seen, s.cooldown, y.loop.model, y.pidUp, y.now) == C.Serve;
  }

  lemma NilFromSwap(s: Settings, y: Sys, k: nat, ok: bool, id: nat)
    requires Inv(s, y) && k < |y.swaps| && !NilBound(y, id) && NilBound(SwapActs(y, k, ok), id)
    ensures ServesCall(s, SwapActs(y, k, ok), id)
  {
    hide LoopInv, LogOk, Fails, LastSuccess;
    assert CallInv(s, y, id);
    assert y.calls[id].progress.swap == k && y.swaps[k].phase.Running? && y.swaps[k].phase.stage.Report?;
  }

  lemma NilFromNowhereElse(s: Settings, y: Sys, e: Event, id: nat)
    requires Inv(s, y) && !e.Act? && !e.SwapStep? && !NilBound(y, id)
    ensures !NilBound(Step(s, y, e), id)
  {
    hide Inv;
  }

  /** A nil result becomes certain only next to an instant at which the model was ready. */
  lemma NilBecomesCertain(s: Settings, y: Sys, e: Event, id: nat)
    requires Inv(s, y) && !NilBound(y, id) && NilBound(Step(s, y, e), id)
    ensures ServesCall(s, y, id) || ServesCall(s, Step(s, y, e), id)
  {
    if e.Act? {
      NilFromLoop(s, y, id);
    } else if e.SwapStep? {
      NilFromSwap(s, y, e.swap, e.ok, id);
    } else {
      NilFromNowhereElse(s, y, e, id);
    }
  }

  /** EnsureModel returning nil means that at some instant of the call the coordinator was ready with
      exactly the model the request resolves to. */
  lemma {:induction false} NilMeansReady(s: Settings, es: seq<Event>, id: nat)
    requires NilBound(Run(s, es), id)
    ensures exists k: nat :: k <= |es| && ServesCall(s, Run(s, es[..k]), id)
  {
    assert es != [];
    var past := es[..|es| - 1];
    RunInv(s, past);
    if NilBound(Run(s, past), id) {
      NilMeansReady(s, past, id);
      var k: nat :| k <= |past| && ServesCall(s, Run(s, past[..k]), id);
      assert es[..k] == past[..k];
    } else {
      NilBecomesCertain(s, Run(s, past), es[|es| - 1], id);
      assert es[..|es|] == es && es[..|es| - 1] == past;
    }
  }
}
