/**
 Whole runs of the scheduler: any number of goroutines in AcquireRoute or StopAll, the size-1 permit channel
 and the waiter table, interleaved with each other and with crashes, the clock and Done calls in any order.
 */
module SchedulerRuns {
  import opened Wrappers
  import opened Config
  import opened Inflight
  import opened SchedulerCore

  /** Where a goroutine is.  `Granted` and `Refused` have left the select of the waiting phase but not yet
      removed their entry from the waiter table. */
  datatype PC =
    | Entered
    | Probing(t: int)
    | Counting(r: nat)
    | Wanting
    | Contended
    | Waiting
    | Granted
    | Refused(outcome: Outcome)
    | StopWanting
    | In(s: Sec)
    | Finished(outcome: Outcome)

  datatype Thread = Thread(m: string, pc: PC)

  /** `permit` is the token in the channel; that it remembers who put it there is bookkeeping that no step
      consults. */
  datatype World = World(core: Core, permit: Option<nat>, waiters: set<string>, threads: seq<Thread>)

  datatype Event =
    | Call(requested: string)
    | CallStop
    | Go(g: nat, a: Answer)
    | Beside(e: Env)

  function Init(c: Settings, now: int): World
  {
    World(Core(now, [], map[], {}, if c.power.Some? then c.power.value.defaults else map[], true, FRESH, [], 0),
      None, {}, [])
  }

  function SetPC(w: World, g: nat, pc: PC): World
    requires g < |w.threads|
  {
    w.(threads := w.threads[g := w.threads[g].(pc := pc)])
  }

  predicate CanGo(c: Settings, w: World, g: nat, a: Answer)
  {
    && g < |w.threads|
    && match w.threads[g].pc
       case Counting(r) => r < |w.core.routes|
       case Waiting => a.Yes? ==> w.permit == None
       case StopWanting => w.permit == None
       case In(s) => s.Leave? || Enabled(c, w.threads[g].m, w.core, s, a)
       case Finished(_) => false
       case _ => true
  }

  predicate CanHappen(c: Settings, w: World, e: Event)
  {
    match e
    case Call(_) => true
    case CallStop => true
    case Go(g, a) => CanGo(c, w, g, a)
    case Beside(env) => EnvEnabled(w.core, env) && !env.Touch? && !env.CountTotal?
  }

  /** AcquireRoute up to the permit. */
  function OuterStep(c: Settings, w: World, g: nat, a: Answer): World
    requires CanGo(c, w, g, a) && !w.threads[g].pc.In?
  {
    var m := w.threads[g].m;
    match w.threads[g].pc
    case Entered => SetPC(w, g, Probing(w.core.now))
    case Probing(t) =>
      (match ReadyInst(w.core, m)
       case Some(i) => SetPC(w.(core := TouchAndTrack(w.core, i, t, g)), g, Counting(|w.core.routes|))
       case None => SetPC(w, g, Wanting))
    case Counting(r) => SetPC(w.(core := AddTotal(w.core, r)), g, Finished(Routed(r)))
    case Wanting => if w.permit == None then SetPC(w.(permit := Some(g)), g, In(Recheck)) else SetPC(w, g, Contended)
    case Contended =>
      if m in w.waiters then SetPC(w, g, Finished(Rejected(Busy)))
        else SetPC(w.(waiters := w.waiters + {m}), g, Waiting)
    case Waiting =>
      if a.Yes? then SetPC(w.(permit := Some(g)), g, Granted)
      else SetPC(w, g, Refused(if a.No? then Rejected(WaitTimeout) else Failure))
    case Granted => SetPC(w.(waiters := w.waiters - {m}), g, In(Recheck))
    case Refused(o) => SetPC(w.(waiters := w.waiters - {m}), g, Finished(o))
    case StopWanting => SetPC(w.(permit := Some(g)), g, In(StopScan))
  }

  function InnerStep(c: Settings, w: World, g: nat, a: Answer): World
    requires CanGo(c, w, g, a) && w.threads[g].pc.In?
  {
    var s := w.threads[g].pc.s;
    if s.Leave? then SetPC(w.(permit := None), g, Finished(s.outcome))
    else
      var r := SecStep(c, g, w.threads[g].m, w.core, s, a);
      SetPC(w.(core := r.0), g, In(r.1))
  }

  function Apply(c: Settings, w: World, e: Event): World
    requires CanHappen(c, w, e)
  {
    match e
    case Call(requested) =>
      w.(threads := w.threads + [match ResolveModel(c.config.models, requested)
                                 case Ok(r) => Thread(r.0, Entered)
                                 case Err(_) => Thread(requested, Finished(Failure))])
    case CallStop => w.(threads := w.threads + [Thread("", StopWanting)])
    case Go(g, a) => if w.threads[g].pc.In? then InnerStep(c, w, g, a) else OuterStep(c, w, g, a)
    case Beside(env) => w.(core := EnvStep(w.core, env))
  }

  /** A run: events that cannot happen when their turn comes are skipped. */
  function Run(c: Settings, now: int, es: seq<Event>): World
  {
    if es == [] then Init(c, now)
    else
      var w := Run(c, now, es[..|es| - 1]);
      if CanHappen(c, w, es[|es| - 1]) then Apply(c, w, es[|es| - 1]) else w
  }
}
