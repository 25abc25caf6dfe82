/**
 The swap coordinator of internal/jukebox/coordinator.go: its mutex-protected fields as a value, and the
 decisions it takes as functions.  Times and durations are in seconds; time 0 is Go's zero time.
 */
module Coordinator {
  import opened Wrappers

  datatype State = Idle | Starting | Ready | Stopping | Failed

  datatype Reason = InProgress | Cooldown | Backoff | WaitTimeout

  datatype Decision = Serve | Reject(reason: Reason, retryAfter: int) | Swap

  datatype LastSwap = LastSwap(from: string, to: string, at: int)

  datatype Coord = Coord(
    state: State,
    currentModel: string,
    lastSwapTime: int,
    failureCount: int,
    lastFailure: int,
    swapInProgress: bool,
    lastSwap: Option<LastSwap>)

  const NEW_COORD := Coord(Idle, "", 0, 0, 0, false, None)

  function BackoffDelay(failureCount: int): int
  {
    if failureCount <= 1 then 0
    else if failureCount == 2 then 5
    else if failureCount == 3 then 15
    else if failureCount == 4 then 30
    else 60
  }

  predicate Crashed(c: Coord, model: string, pidUp: bool)
  {
    c.state == Ready && c.currentModel == model && !pidUp
  }

  /** What a request for an already resolved model gets. */
  function Decide(c: Coord, cooldown: int, model: string, pidUp: bool, now: int): Decision
  {
    if c.state == Ready && c.currentModel == model && pidUp then Serve
    else if c.swapInProgress || c.state == Starting || c.state == Stopping then Reject(InProgress, 5)
    else if c.state == Failed && c.failureCount > 0 && BackoffDelay(c.failureCount) > 0
      && now < c.lastFailure + BackoffDelay(c.failureCount)
    then Reject(Backoff, c.lastFailure + BackoffDelay(c.failureCount) - now)
    else if !Crashed(c, model, pidUp) && cooldown > 0 && c.lastSwapTime != 0 && now < c.lastSwapTime + cooldown
    then Reject(Cooldown, c.lastSwapTime + cooldown - now)
    else Swap
  }

  function Begun(c: Coord): Coord
  {
    c.(swapInProgress := true, state := if c.state == Ready then Stopping else Starting)
  }

  function Launched(c: Coord): Coord
  {
    c.(state := Starting)
  }

  function Finished(c: Coord, from: string, model: string, ok: bool, now: int): Coord
  {
    if ok then Coord(Ready, model, now, 0, 0, false, Some(LastSwap(from, model, now)))
    else c.(swapInProgress := false, state := Failed, failureCount := c.failureCount + 1, lastFailure := now)
  }
}
