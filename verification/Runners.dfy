/** The thread that runs a periodic or an alarm job: where it can be, and the time it adds up. */
module Runners {
  import opened Base

  /**
   Where the runner is: about to take the lock, in the untimed or the timed wait (asleep, or
   woken and about to retake the lock), past the unlock and about to call the user's function,
   inside it, or gone.
   */
  datatype Runner =
    | Enters
    | WaitsForever(awake: bool, totalWaited: nat)
    | WaitsTimed(awake: bool, totalWaited: nat, timeToWait: nat)
    | AboutToCall
    | InFunction
    | Gone

  /** The runner after a signal. */
  function Wakened(r: Runner): Runner {
    match r
    case WaitsForever(_, total) => WaitsForever(true, total)
    case WaitsTimed(_, total, timeToWait) => WaitsTimed(true, total, timeToWait)
    case _ => r
  }

  /** The total after a timed wait that left `remaining` of its time. */
  function TotalAfterWait(totalWaited: nat, timeToWait: nat, remaining: nat): nat {
    AddU64(totalWaited, SubU64(timeToWait, remaining))
  }

  /** A wait that left `remaining` of its time adds up without wrapping. */
  lemma WaitAddsUp(total: nat, timeToWait: nat, remaining: nat)
    requires remaining <= timeToWait && total + timeToWait <= MAX_U64
    ensures TotalAfterWait(total, timeToWait, remaining) == total + (timeToWait - remaining)
  {
  }

  /** The start that can no longer be stopped. */
  function Committed(r: Runner): nat {
    if r.AboutToCall? then 1 else 0
  }

  /** How many more steps the runner makes at most until it next takes up its events. */
  function StepsToTurn(r: Runner): nat {
    match r
    case AboutToCall => 3
    case InFunction => 2
    case Gone => 0
    case _ => 1
  }
}
