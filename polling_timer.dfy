/** The countdown timer the capture workflow polls. Its implementation reads
    the wall clock; here the time left is an abstract value in integer
    milliseconds that the environment lowers as time passes. */
module Timing {

  class PollingTimer {
    /** Milliseconds left before the deadline, never below zero. */
    var remainingMs: nat

    /** A timer that was never started reports nothing remaining. */
    constructor ()
      ensures remainingMs == 0
    {
      remainingMs := 0;
    }

    /** Arms (or re-arms) the timer for `seconds` from now. */
    method Start(seconds: int)
      modifies this
      ensures remainingMs == if seconds > 0 then seconds * 1000 else 0
    {
      remainingMs := if seconds > 0 then seconds * 1000 else 0;
    }

    /** The passage of `ms` milliseconds of wall-clock time. */
    method Elapse(ms: nat)
      modifies this
      ensures remainingMs == if old(remainingMs) > ms then old(remainingMs) - ms else 0
      ensures remainingMs <= old(remainingMs)
    {
      remainingMs := if remainingMs > ms then remainingMs - ms else 0;
    }

    function Remaining(): nat
      reads this
    {
      remainingMs
    }

    /** The deadline has passed once nothing remains. */
    predicate IsTimeout()
      reads this
    {
      Remaining() == 0
    }
  }
}
