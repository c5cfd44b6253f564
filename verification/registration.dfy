/** Registration of a device with ff-memless-next, reduced to the one rule
    the header states about it: the delay between two recalculations of
    periodic effects, ramps and envelopes has a floor. */
module Registration {
  import opened Commands

  /** The smallest recalculation delay, in milliseconds, on a kernel built
      with `hz` timer ticks per second: one more than hz / 1000 (C integer
      division; hz is positive so it agrees with Dafny's). */
  function MinDelay(hz: nat): nat
  {
    hz / 1000 + 1
  }

  /** The recalculation delay a device registered with `updateRate` gets. */
  function EffectiveDelay(updateRate: u16, hz: nat): (d: nat)
    ensures d >= MinDelay(hz)
    ensures d >= updateRate
    ensures d == updateRate || d == MinDelay(hz)
  {
    if updateRate < MinDelay(hz) then MinDelay(hz) else updateRate
  }

  /** A rate at or above the floor is kept as given; the clamp only ever
      raises a rate, and never reorders two rates. */
  lemma EffectiveDelayKeepsOrder(a: u16, b: u16, hz: nat)
    requires a <= b
    ensures EffectiveDelay(a, hz) <= EffectiveDelay(b, hz)
    ensures a >= MinDelay(hz) ==> EffectiveDelay(a, hz) == a
  {
  }
}
