/**
 * index1.js `getStream(page, opts)`: option defaulting, the per-call stream
 * index taken from the module-level `currentIndex`, and the order of the
 * calls into the recording extension.
 */
module Stream {
  import opened Common
  import opened Retry

  const BASE_PORT := 55200
  const DEFAULT_EACH := 20
  const DEFAULT_TIMES := 3
  const DEFAULT_FRAME_SIZE := 20

  /** The keys present in `opts.retry`; a present key overrides the default. */
  datatype RetryOverride = RetryOverride(each: Option<int>, times: Option<int>)

  /** The recording options; `""` and `None`/`Some(0)` stand for falsy values. */
  datatype StreamOptions = StreamOptions(
    audio: bool,
    video: bool,
    mimeType: string,
    frameSize: Option<int>,
    retry: Option<RetryOverride>)

  datatype RetryPolicy = RetryPolicy(each: int, times: int)

  predicate Truthy(n: Option<int>) {
    n.Some? && n.value != 0
  }

  /**
   * The in-place defaults of `getStream`: `None` when neither audio nor
   * video is requested (the call throws), otherwise `opts` with the
   * MIME type and frame size filled in.
   */
  function Normalise(opts: StreamOptions): (r: Option<StreamOptions>)
    ensures r.None? <==> !opts.audio && !opts.video
    ensures r.Some? ==>
      && r.value.audio == opts.audio && r.value.video == opts.video && r.value.retry == opts.retry
      && r.value.mimeType != "" && Truthy(r.value.frameSize)
      && (opts.mimeType != "" ==> r.value.mimeType == opts.mimeType)
      && (opts.mimeType == "" ==> r.value.mimeType == if opts.video then "video/webm" else "audio/webm")
      && (Truthy(opts.frameSize) ==> r.value.frameSize == opts.frameSize)
      && (!Truthy(opts.frameSize) ==> r.value.frameSize == Some(DEFAULT_FRAME_SIZE))
  {
    if !opts.audio && !opts.video then None
    else
      var mimeType := if opts.mimeType != "" then opts.mimeType
                      else if opts.video then "video/webm" else "audio/webm";
      var frameSize := if Truthy(opts.frameSize) then opts.frameSize else Some(DEFAULT_FRAME_SIZE);
      Some(opts.(mimeType := mimeType, frameSize := frameSize))
  }

  /** Defaulting is idempotent: normalised options are left as they are. */
  lemma {:induction false} NormaliseIdempotent(opts: StreamOptions)
    requires Normalise(opts).Some?
    ensures Normalise(Normalise(opts).value) == Normalise(opts)
  {
  }

  /** `{ each: 20, times: 3, ...opts.retry }`. */
  function RetryPolicyFor(opts: StreamOptions): (p: RetryPolicy)
    ensures opts.retry.None? ==> p == RetryPolicy(DEFAULT_EACH, DEFAULT_TIMES)
    ensures opts.retry.Some? && opts.retry.value.each.Some? ==> p.each == opts.retry.value.each.value
    ensures opts.retry.Some? && opts.retry.value.times.Some? ==> p.times == opts.retry.value.times.value
    ensures (opts.retry.None? || opts.retry.value.each.None?) ==> p.each == DEFAULT_EACH
    ensures (opts.retry.None? || opts.retry.value.times.None?) ==> p.times == DEFAULT_TIMES
  {
    match opts.retry
    case None => RetryPolicy(DEFAULT_EACH, DEFAULT_TIMES)
    case Some(o) =>
      RetryPolicy(
        if o.each.Some? then o.each.value else DEFAULT_EACH,
        if o.times.Some? then o.times.value else DEFAULT_TIMES)
  }

  /** How a `getStream` call settles. */
  datatype StreamResult =
    | Streaming(index: nat, port: int, settings: StreamOptions)
      // resolved with a UDP stream on `port`; `settings` went to START_RECORDING
    | StreamFailed(message: string, boundPort: Option<int>)
      // rejected; `boundPort` is the UDP socket already created and never destroyed

  /** Every step of `getStream` succeeds, so it resolves with a stream. */
  predicate Resolves(opts: StreamOptions, extension: Step, front: Step, probes: seq<Probe>, start: Step)
    requires RetryPolicyFor(opts).times <= |probes|
  {
    && Normalise(opts).Some? && extension.Ok? && front.Ok? && start.Ok?
    && (exists j :: 0 <= j < RetryPolicyFor(opts).times && probes[j].Loaded? && MissingBefore(probes, j))
  }

  /** The call gets past the checks that come before `currentIndex++`. */
  predicate TakesIndex(opts: StreamOptions, extension: Step) {
    Normalise(opts).Some? && extension.Ok?
  }

  /**
   * How `getStream` settles when `currentIndex` is `index`: it throws before
   * taking an index when no medium is requested or the extension page cannot
   * be found; otherwise it binds UDP port `55200 + index`, brings the page to
   * the front, waits for the recording function and asks the extension to start.
   */
  function StreamOutcome(opts: StreamOptions, extension: Step, front: Step, probes: seq<Probe>, start: Step, index: nat)
    : (r: StreamResult)
    requires RetryPolicyFor(opts).times <= |probes|
    ensures r.Streaming? <==> Resolves(opts, extension, front, probes, start)
    ensures r.Streaming? ==> r.index == index && r.port == BASE_PORT + index && Normalise(opts) == Some(r.settings)
    // the UDP socket is created exactly when an index was taken, and a failure after that leaks it
    ensures r.StreamFailed? ==> (r.boundPort.Some? <==> TakesIndex(opts, extension))
    ensures r.StreamFailed? && r.boundPort.Some? ==> r.boundPort.value == BASE_PORT + index
    ensures Normalise(opts).None? ==> r == StreamFailed(ERR_NO_AUDIO_VIDEO, None)
    ensures TakesIndex(opts, extension) && front.Ok? &&
            0 <= RetryPolicyFor(opts).times && MissingBefore(probes, RetryPolicyFor(opts).times) ==>
              r == StreamFailed(ERR_NO_RECORDING_FN, Some(BASE_PORT + index))
  {
    LoadCheckFirst(probes, RetryPolicyFor(opts).times, 0);
    if Normalise(opts).None? then StreamFailed(ERR_NO_AUDIO_VIDEO, None)
    else if extension.Fail? then StreamFailed(extension.message, None)
    else
      var port := BASE_PORT + index;
      if front.Fail? then StreamFailed(front.message, Some(port))
      else
        var check := LoadCheckFrom(probes, RetryPolicyFor(opts).times, 0);
        if !check.LoadedAt? then StreamFailed(LoadError(check), Some(port))
        else if start.Fail? then StreamFailed(start.message, Some(port))
        else Streaming(index, port, Normalise(opts).value)
  }

  /** The module-level `currentIndex` counter with the indices it has handed out. */
  class StreamAllocator {
    var currentIndex: nat
    ghost var issued: seq<nat>

    /** Indices are handed out in strictly increasing order, each below the counter. */
    ghost predicate Valid()
      reads this
    {
      && (forall i, j :: 0 <= i < j < |issued| ==> issued[i] < issued[j])
      && (forall i :: 0 <= i < |issued| ==> issued[i] < currentIndex)
    }

    constructor ()
      ensures Valid() && currentIndex == 0 && issued == []
    {
      currentIndex := 0;
      issued := [];
    }

    /** `getStream(page, opts)`: settles as `StreamOutcome`, taking `index = currentIndex++` on the way. */
    method GetStream(opts: StreamOptions, extension: Step, front: Step, probes: seq<Probe>, start: Step)
      returns (r: StreamResult)
      requires Valid()
      requires RetryPolicyFor(opts).times <= |probes|
      modifies this
      ensures Valid()
      ensures r == StreamOutcome(opts, extension, front, probes, start, old(currentIndex))
      ensures currentIndex == old(currentIndex) + (if TakesIndex(opts, extension) then 1 else 0)
      ensures issued == old(issued) + (if TakesIndex(opts, extension) then [old(currentIndex)] else [])
    {
      var normalised := Normalise(opts);
      if normalised.None? {
        return StreamFailed(ERR_NO_AUDIO_VIDEO, None);
      }
      var settings := normalised.value;
      var policy := RetryPolicyFor(opts);
      if extension.Fail? {
        return StreamFailed(extension.message, None);
      }
      var index := currentIndex;
      currentIndex := currentIndex + 1;
      issued := issued + [index];
      var port := BASE_PORT + index;
      if front.Fail? {
        return StreamFailed(front.message, Some(port));
      }
      var check, _ := AssertExtensionLoaded(probes, policy.each, policy.times);
      if !check.LoadedAt? {
        return StreamFailed(LoadError(check), Some(port));
      }
      if start.Fail? {
        return StreamFailed(start.message, Some(port));
      }
      r := Streaming(index, port, settings);
    }
  }
}
