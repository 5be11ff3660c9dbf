/**
 * The duration race of index.js: a timer resolving after the meeting
 * duration against a timer rejecting five seconds later, under Node's
 * timer rules — a delay outside `1 ..= 2147483647` milliseconds is replaced
 * by 1, and timers due at the same moment fire in the order they were set.
 */
module Timers {

  /** The largest delay Node's `setTimeout` honours. */
  const TIMEOUT_MAX := 2147483647

  /** How much later the rejecting timer of the race is set. */
  const RACE_GRACE := 5000

  /** The delay Node actually waits for `setTimeout(f, delay)`. */
  function EffectiveDelay(delay: int): (r: int)
    ensures 1 <= r <= TIMEOUT_MAX
    ensures 1 <= delay <= TIMEOUT_MAX ==> r == delay
    ensures delay < 1 || TIMEOUT_MAX < delay ==> r == 1
  {
    if 1 <= delay <= TIMEOUT_MAX then delay else 1
  }

  /** Which timer of `Promise.race` settles first. */
  datatype Winner = Elapsed | TimedOut

  /**
   * The race between `setTimeout(resolve, d)` and `setTimeout(reject, d + 5000)`:
   * the resolving timer is set first, so it wins every tie.
   */
  function RaceWinner(duration: int): (w: Winner)
    // for a positive duration, the timeout wins exactly in the last five seconds below the limit
    ensures duration > 0 ==>
              (w == TimedOut <==> TIMEOUT_MAX - RACE_GRACE < duration <= TIMEOUT_MAX)
  {
    if EffectiveDelay(duration + RACE_GRACE) < EffectiveDelay(duration) then TimedOut else Elapsed
  }

  /** Below the window the plain timer always settles the race. */
  lemma {:induction false} ElapsedBelowWindow(duration: int)
    requires 0 < duration <= TIMEOUT_MAX - RACE_GRACE
    ensures RaceWinner(duration) == Elapsed
  {
  }

  /** Above the limit both delays collapse to 1 ms and the plain timer, set first, still wins. */
  lemma {:induction false} ElapsedAboveLimit(duration: int)
    requires duration > TIMEOUT_MAX
    ensures EffectiveDelay(duration) == EffectiveDelay(duration + RACE_GRACE) == 1
    ensures RaceWinner(duration) == Elapsed
  {
  }

  /** A duration of 2147483647 ms is honoured while the timeout collapses to 1 ms. */
  lemma TimedOutAtLimit()
    ensures EffectiveDelay(TIMEOUT_MAX) == TIMEOUT_MAX
    ensures EffectiveDelay(TIMEOUT_MAX + RACE_GRACE) == 1
    ensures RaceWinner(TIMEOUT_MAX) == TimedOut
  {
  }
}
