/**
 * The two bounded retry loops of the scripts: `waitForSelectorWithRetry`
 * (identical in multi_record.js and index-old.js) and index1.js's
 * `assertExtensionLoaded`. The page is abstracted as the sequence of results
 * its successive attempts would give.
 */
module Retry {
  import opened Common

  /** `options.retries || 5`: an absent or zero retry count means five. */
  function MaxAttempts(retries: Option<int>): int {
    if retries.None? || retries.value == 0 then 5 else retries.value
  }

  /** What the awaited promise of `waitForSelectorWithRetry` settles to. */
  datatype WaitResult =
    | Found(attempt: nat)        // resolved with the element of this attempt
    | Rejected(message: string)  // rethrew the error of the last attempt
    | Undefined                  // the loop made no attempt and fell off the end

  /** Every attempt before `k` failed. */
  predicate FailedBefore(attempts: seq<Step>, k: nat)
    requires k <= |attempts|
  {
    forall j :: 0 <= j < k ==> attempts[j].Fail?
  }

  /**
   * `waitForSelectorWithRetry`: up to `retries || 5` attempts, the first
   * success wins, and only the error of the final attempt is rethrown.
   */
  method WaitForSelectorWithRetry(attempts: seq<Step>, retries: Option<int>) returns (r: WaitResult)
    requires MaxAttempts(retries) <= |attempts|
    ensures r.Found? ==>
              r.attempt < MaxAttempts(retries) && attempts[r.attempt].Ok? && FailedBefore(attempts, r.attempt)
    ensures r.Rejected? ==>
              1 <= MaxAttempts(retries) && FailedBefore(attempts, MaxAttempts(retries)) &&
              r.message == attempts[MaxAttempts(retries) - 1].message
    ensures r.Undefined? <==> MaxAttempts(retries) <= 0
    ensures (exists j :: 0 <= j < MaxAttempts(retries) && attempts[j].Ok?) ==> r.Found?
  {
    var maxRetries := MaxAttempts(retries);
    var i := 0;
    while i < maxRetries
      invariant 0 <= i && (0 < maxRetries ==> i < maxRetries)
      invariant i <= |attempts| && FailedBefore(attempts, i)
    {
      match attempts[i]
      case Ok =>
        return Found(i);
      case Fail(message) =>
        if i == maxRetries - 1 {
          return Rejected(message);
        }
        // the 3 s pause between attempts is not modelled
      i := i + 1;
    }
    r := Undefined;
  }

  /** `Math.pow(base, exp)` on integers. */
  function Pow(base: int, exp: nat): int {
    if exp == 0 then 1 else base * Pow(base, exp - 1)
  }

  /** The successive back-off delays `each^0, each^1, ...`. */
  function Backoffs(each: int, n: nat): (waits: seq<int>)
    ensures |waits| == n
    ensures forall k :: 0 <= k < n ==> waits[k] == Pow(each, k)
  {
    if n == 0 then [] else Backoffs(each, n - 1) + [Pow(each, n - 1)]
  }

  /** Result of one in-page probe for `START_RECORDING`/`startRecording`. */
  datatype Probe = Loaded | Missing | ProbeFailed(message: string)

  /** Every probe before `k` found no recording function. */
  predicate MissingBefore(probes: seq<Probe>, k: nat)
    requires k <= |probes|
  {
    forall j :: 0 <= j < k ==> probes[j].Missing?
  }

  /** How the awaited `assertExtensionLoaded` call settles. */
  datatype LoadCheck =
    | LoadedAt(tick: nat)                     // returned: the probe of this tick found the function
    | ProbeThrew(tick: nat, message: string)  // the evaluate of this tick rejected
    | NotLoaded                               // every probe missed: ERR_NO_RECORDING_FN is thrown

  /** The number of probes that missed, i.e. the number of back-off waits taken. */
  function Misses(r: LoadCheck, times: int): nat {
    match r
    case LoadedAt(tick) => tick
    case ProbeThrew(tick, _) => tick
    case NotLoaded => if times < 0 then 0 else times
  }

  /** The error message a failed check propagates. */
  function LoadError(r: LoadCheck): string {
    if r.ProbeThrew? then r.message else ERR_NO_RECORDING_FN
  }

  /** How the probes from tick `k` on settle the check. */
  function LoadCheckFrom(probes: seq<Probe>, times: int, k: nat): LoadCheck
    requires times <= |probes| && k <= |probes|
    decreases |probes| - k
  {
    if times <= k then NotLoaded
    else match probes[k]
      case Loaded => LoadedAt(k)
      case ProbeFailed(message) => ProbeThrew(k, message)
      case Missing => LoadCheckFrom(probes, times, k + 1)
  }

  /**
   * The check settles at the first probe that does not come back missing:
   * the function is found there, or that probe's error propagates; it
   * throws the not-found error only after `times` misses.
   */
  lemma {:induction false} LoadCheckFirst(probes: seq<Probe>, times: int, k: nat)
    requires times <= |probes| && k <= |probes|
    requires MissingBefore(probes, k)
    ensures var r := LoadCheckFrom(probes, times, k);
      && (r.LoadedAt? ==> r.tick < times && probes[r.tick].Loaded? && MissingBefore(probes, r.tick))
      && (r.ProbeThrew? ==> r.tick < times && probes[r.tick] == ProbeFailed(r.message) && MissingBefore(probes, r.tick))
      && (r.NotLoaded? ==> MissingBefore(probes, Misses(r, times)))
      && ((exists j :: 0 <= j < times && probes[j].Loaded? && MissingBefore(probes, j)) ==> r.LoadedAt?)
    decreases |probes| - k
  {
    if k < times && probes[k].Missing? {
      LoadCheckFirst(probes, times, k + 1);
    }
  }

  /** A throwing probe before any found function makes the evaluate's error the check's error. */
  lemma {:induction false} LoadErrorIsFirstFailure(probes: seq<Probe>, times: int, i: nat)
    requires times <= |probes| && i < times
    requires MissingBefore(probes, i) && probes[i].ProbeFailed?
    ensures LoadCheckFrom(probes, times, 0) == ProbeThrew(i, probes[i].message)
  {
    var k := 0;
    while k < i
      invariant 0 <= k <= i
      invariant LoadCheckFrom(probes, times, k) == LoadCheckFrom(probes, times, 0)
    {
      k := k + 1;
    }
  }

  /**
   * `assertExtensionLoaded(ext, retryOpts)`: evaluates at most `times`
   * probes, returns on the first that finds the function, waits
   * `each^tick` after every miss, and then throws.
   */
  method AssertExtensionLoaded(probes: seq<Probe>, each: int, times: int)
    returns (r: LoadCheck, waits: seq<int>)
    requires times <= |probes|
    ensures r == LoadCheckFrom(probes, times, 0)
    ensures waits == Backoffs(each, Misses(r, times))
  {
    var currentTick := 0;
    waits := [];
    while currentTick < times
      invariant 0 <= currentTick <= |probes| && (0 < times ==> currentTick <= times) && (times <= 0 ==> currentTick == 0)
      invariant LoadCheckFrom(probes, times, currentTick) == LoadCheckFrom(probes, times, 0)
      invariant MissingBefore(probes, currentTick)
      invariant waits == Backoffs(each, currentTick)
    {
      match probes[currentTick]
      case ProbeFailed(message) =>
        return ProbeThrew(currentTick, message), waits;
      case Loaded =>
        return LoadedAt(currentTick), waits;
      case Missing =>
        waits := waits + [Pow(each, currentTick)];
      currentTick := currentTick + 1;
    }
    r := NotLoaded;
  }
}
