/**
 * `utility/Timer.java`: a one-shot latch over a clock. The clock reading
 * (`glfwGetTime()`) is passed in as `now`.
 */
module Timing {

  class Timer {
    var startTime: real
    const duration: real
    var triggered: bool

    /** A timer that starts counting at `now`. */
    constructor (durationInSeconds: real, now: real)
      ensures duration == durationInSeconds
      ensures startTime == now && !triggered
      ensures durationInSeconds > 0.0 ==> !IsElapsed(now)
    {
      duration := durationInSeconds;
      startTime := now;
      triggered := false;
    }

    /** The duration has passed since the last start and the timer was not marked. Reads only. */
    predicate IsElapsed(now: real)
      reads this
      ensures IsElapsed(now) ==> !triggered
      ensures !triggered ==> (IsElapsed(now) <==> now >= startTime + duration)
    {
      !triggered && now - startTime >= duration
    }

    /** Starts counting again from `now` and clears the mark. */
    method Reset(now: real)
      modifies this
      ensures startTime == now && !triggered
      ensures duration > 0.0 ==> !IsElapsed(now)
      ensures forall t :: IsElapsed(t) <==> t >= now + duration
    {
      startTime := now;
      triggered := false;
    }

    /** After marking, the timer reports elapsed for no clock reading until the next reset. */
    method MarkTriggered()
      modifies this
      ensures triggered && startTime == old(startTime)
      ensures forall t :: !IsElapsed(t)
    {
      triggered := true;
    }
  }

  /** Elapsing is monotone in the clock: once elapsed, it stays elapsed as time goes on, until a reset or a mark. */
  lemma ElapsedStaysElapsed(t: Timer, now: real, later: real)
    requires t.IsElapsed(now) && now <= later
    ensures t.IsElapsed(later)
  {
  }
}
