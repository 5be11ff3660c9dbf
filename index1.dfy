/**
 * index1.js `handleMeeting`: launch through the extension-loading `launch`,
 * sign-in, join, the keep-alive interval, recording through `getStream`, the
 * cleanup on the success path, the per-resource guarded cleanup of the
 * `catch` block and the swallowed browser close of `finally`.
 */
module Index1Executor {
  import opened Common
  import opened Retry
  import opened Stream

  /** The options `handleMeeting` passes to `getStream`. */
  const RECORDING_OPTIONS :=
    StreamOptions(true, false, "audio/webm;codecs=opus", Some(20), Some(RetryOverride(Some(20), Some(5))))

  /** The recording options are already normalised and retry five times, twenty apart. */
  lemma RecordingOptionsNormal()
    ensures Normalise(RECORDING_OPTIONS) == Some(RECORDING_OPTIONS)
    ensures RetryPolicyFor(RECORDING_OPTIONS) == RetryPolicy(20, 5)
  {
  }

  /** Outcomes of the external calls of one run, in the order they are made. */
  datatype Env = Env(
    prepare: Step,         // recordings directory and fresh profile directory (synchronous calls)
    launch: Step,          // launch(opts), which edits the arguments and starts the browser
    page: Step,            // newPage, setDefaultTimeout, setUserAgent
    login: Step,           // the Google sign-in sequence
    gotoMeeting: Step,     // page.goto(meeting.meeting_url)
    extension: Step,       // getExtensionPage inside getStream
    front: Step,           // page.bringToFront() inside getStream
    probes: seq<Probe>,    // the probes of assertExtensionLoaded
    start: Step,           // the START_RECORDING evaluate inside getStream
    destroy: Step,         // stream.destroy() on the success path (stops the extension recording)
    audioFilename: string) // the path of the recording file

  /** The completed write of this script, carrying the recording path. */
  function Done(m: Meeting, path: string): Write {
    Write("meeting", m.id, Completed, None, Some(path))
  }

  /** The cancelled write of this script. */
  function Failed(m: Meeting, message: string): Write {
    Write("meeting", m.id, Cancelled, Some(message), None)
  }

  /** `browser` is non-null when the catch block runs. */
  predicate Launched(env: Env) {
    env.prepare.Ok? && env.launch.Ok?
  }

  /** The meeting URL is opened. */
  predicate Navigates(env: Env) {
    Launched(env) && env.page.Ok? && env.login.Ok?
  }

  /** The meeting page loaded: the keep-alive is armed and `recordingFile` is created. */
  predicate InMeeting(env: Env) {
    Navigates(env) && env.gotoMeeting.Ok?
  }

  /** `getStream` resolves, so `stream` is non-null. */
  predicate Streams(env: Env)
    requires RetryPolicyFor(RECORDING_OPTIONS).times <= |env.probes|
  {
    InMeeting(env) && Resolves(RECORDING_OPTIONS, env.extension, env.front, env.probes, env.start)
  }

  /** The run that ends in the completed write. */
  predicate Succeeds(env: Env)
    requires RetryPolicyFor(RECORDING_OPTIONS).times <= |env.probes|
  {
    Streams(env) && env.destroy.Ok?
  }

  /** Where the try block of `handleMeeting` leaves its locals. */
  datatype TryState = TryState(
    effects: Trace,
    browser: bool,          // `browser` is non-null
    stream: bool,           // `stream` is non-null
    file: bool,             // `recordingFile` is non-null
    error: Option<string>)  // the error raised, if any

  /** What `getStream` settles to in this run when `currentIndex` is `index`. */
  function StreamOf(env: Env, index: nat): (r: StreamResult)
    requires RetryPolicyFor(RECORDING_OPTIONS).times <= |env.probes|
    ensures r.Streaming? <==> Resolves(RECORDING_OPTIONS, env.extension, env.front, env.probes, env.start)
  {
    StreamOutcome(RECORDING_OPTIONS, env.extension, env.front, env.probes, env.start, index)
  }

  /** `stream` is set: the meeting page loaded and `getStream` resolved to `r`. */
  predicate Recording(env: Env, r: StreamResult) {
    InMeeting(env) && r.Streaming?
  }

  /** The try block runs to its completed write. */
  predicate Completes(env: Env, r: StreamResult) {
    Recording(env, r) && env.destroy.Ok?
  }

  /** The try block of `handleMeeting`, where `getStream` settles to `r`. */
  function TryOutcome(m: Meeting, env: Env, r: StreamResult): (t: TryState)
    ensures t.browser == Launched(env) && t.file == InMeeting(env) && t.stream == Recording(env, r)
    ensures t.error.None? <==> Completes(env, r)
    ensures InMeeting(env) && r.StreamFailed? ==> t.error == Some(r.message)
    ensures Writes(t.effects) == if Completes(env, r) then [Done(m, env.audioFilename)] else []
    ensures Completes(env, r) ==>
              Effects(t.effects) == [Navigate(m.meetingUrl), StartKeepAlive, StopKeepAlive, DestroyStream, EndFile,
                                     StoreWrite(Done(m, env.audioFilename))]
  {
    if env.prepare.Fail? then TryState(Empty, false, false, false, Some(env.prepare.message))
    else if env.launch.Fail? then TryState(Empty, false, false, false, Some(env.launch.message))
    else if env.page.Fail? then TryState(Empty, true, false, false, Some(env.page.message))
    else if env.login.Fail? then TryState(Empty, true, false, false, Some(env.login.message))
    else
      var navigated := Push(Empty, Navigate(m.meetingUrl));
      if env.gotoMeeting.Fail? then TryState(navigated, true, false, false, Some(env.gotoMeeting.message))
      else
        // the camera/microphone and join-button blocks swallow their own errors
        var alive := Push(navigated, StartKeepAlive);
        if r.StreamFailed? then TryState(alive, true, false, true, Some(r.message))
        else
          // the wait for the meeting duration is a plain timer
          var destroyed := Push(Push(alive, StopKeepAlive), DestroyStream);
          if env.destroy.Fail? then TryState(destroyed, true, true, true, Some(env.destroy.message))
          else TryState(Push(Push(destroyed, EndFile), StoreWrite(Done(m, env.audioFilename))), true, true, true, None)
  }

  /** The browser is neither closed nor killed inside the try block. */
  lemma {:induction false} TryBrowserCounts(m: Meeting, env: Env, r: StreamResult)
    ensures Count(TryOutcome(m, env, r).effects, CloseBrowser) == 0
    ensures Count(TryOutcome(m, env, r).effects, KillBrowser) == 0
  {
  }

  /** The interval is armed once the meeting page loaded, and cleared only once recording started. */
  lemma {:induction false} TryKeepAliveCounts(m: Meeting, env: Env, r: StreamResult)
    ensures Count(TryOutcome(m, env, r).effects, StartKeepAlive) == (if InMeeting(env) then 1 else 0)
    ensures Count(TryOutcome(m, env, r).effects, StopKeepAlive) == (if Recording(env, r) then 1 else 0)
  {
  }

  /** The success-path releases: the stream is destroyed once it is set, the file ended only after that succeeds. */
  lemma {:induction false} TryReleaseCounts(m: Meeting, env: Env, r: StreamResult)
    ensures Count(TryOutcome(m, env, r).effects, DestroyStream) == (if Recording(env, r) then 1 else 0)
    ensures Count(TryOutcome(m, env, r).effects, EndFile) == (if Completes(env, r) then 1 else 0)
  {
  }

  /** The catch block: the stream and file releases, each in its own try, then the unconditional status write. */
  function Caught(m: Meeting, t: TryState): (effects: Trace)
    requires t.error.Some?
    ensures Writes(effects) == Writes(t.effects) + [Failed(m, t.error.value)]
    ensures Count(effects, DestroyStream) == Count(t.effects, DestroyStream) + (if t.stream then 1 else 0)
    ensures Count(effects, EndFile) == Count(t.effects, EndFile) + (if t.file then 1 else 0)
    ensures Count(effects, CloseBrowser) == Count(t.effects, CloseBrowser)
    ensures Count(effects, KillBrowser) == Count(t.effects, KillBrowser)
    ensures Count(effects, StartKeepAlive) == Count(t.effects, StartKeepAlive)
    ensures Count(effects, StopKeepAlive) == Count(t.effects, StopKeepAlive)
  {
    var destroyed := if t.stream then Push(t.effects, DestroyStream) else t.effects;
    var ended := if t.file then Push(destroyed, EndFile) else destroyed;
    Push(ended, StoreWrite(Failed(m, t.error.value)))
  }

  /** The catch block, then the `finally` close whose failure is logged and swallowed. */
  function Settled(m: Meeting, t: TryState): (effects: Trace)
    ensures Writes(effects) == Writes(t.effects) + (if t.error.Some? then [Failed(m, t.error.value)] else [])
    ensures Count(effects, CloseBrowser) == Count(t.effects, CloseBrowser) + (if t.browser then 1 else 0)
    ensures Count(effects, KillBrowser) == Count(t.effects, KillBrowser)
    ensures Count(effects, StartKeepAlive) == Count(t.effects, StartKeepAlive)
    ensures Count(effects, StopKeepAlive) == Count(t.effects, StopKeepAlive)
    ensures Count(effects, DestroyStream) ==
              Count(t.effects, DestroyStream) + (if t.error.Some? && t.stream then 1 else 0)
    ensures Count(effects, EndFile) == Count(t.effects, EndFile) + (if t.error.Some? && t.file then 1 else 0)
  {
    var caught := if t.error.Some? then Caught(m, t) else t.effects;
    if t.browser then Push(caught, CloseBrowser) else caught
  }

  /** The run `handleMeeting` makes when `getStream` settles to `r`; it always finishes. */
  function Executed(m: Meeting, env: Env, r: StreamResult): (run: Run)
    ensures run.finished
    ensures Writes(run.effects) ==
              if Completes(env, r) then [Done(m, env.audioFilename)]
              else [Failed(m, TryOutcome(m, env, r).error.value)]
  {
    Run(Settled(m, TryOutcome(m, env, r)), true)
  }

  /** The browser is closed exactly when it was launched, and never killed. */
  lemma {:induction false} BrowserClosedOnce(m: Meeting, env: Env, r: StreamResult)
    ensures Count(Executed(m, env, r).effects, CloseBrowser) == (if Launched(env) then 1 else 0)
    ensures Count(Executed(m, env, r).effects, KillBrowser) == 0
  {
    TryBrowserCounts(m, env, r);
  }

  /** The keep-alive interval is cleared only when recording started: a later failure leaves it running. */
  lemma {:induction false} KeepAliveLeak(m: Meeting, env: Env, r: StreamResult)
    ensures Count(Executed(m, env, r).effects, StartKeepAlive) == (if InMeeting(env) then 1 else 0)
    ensures Count(Executed(m, env, r).effects, StopKeepAlive) == (if Recording(env, r) then 1 else 0)
  {
    TryKeepAliveCounts(m, env, r);
  }

  /**
   * The recording file is ended exactly once whenever it was created, and the
   * stream is destroyed once, or twice when its success-path destroy fails.
   */
  lemma {:induction false} ReleasesOnce(m: Meeting, env: Env, r: StreamResult)
    ensures Count(Executed(m, env, r).effects, EndFile) == (if InMeeting(env) then 1 else 0)
    ensures Count(Executed(m, env, r).effects, DestroyStream) ==
              (if Recording(env, r) then (if env.destroy.Ok? then 1 else 2) else 0)
  {
    TryReleaseCounts(m, env, r);
  }

  /** The run `handleMeeting` makes when `currentIndex` is `index`. */
  function Outcome(m: Meeting, env: Env, index: nat): (run: Run)
    requires RetryPolicyFor(RECORDING_OPTIONS).times <= |env.probes|
    ensures run.finished
    ensures Writes(run.effects) ==
              if Succeeds(env) then [Done(m, env.audioFilename)]
              else [Failed(m, TryOutcome(m, env, StreamOf(env, index)).error.value)]
  {
    Executed(m, env, StreamOf(env, index))
  }

  /** The stream `getStream` gives is set, or the run completes, exactly when every step of the script succeeds. */
  lemma {:induction false} StreamBridge(env: Env, index: nat)
    requires RetryPolicyFor(RECORDING_OPTIONS).times <= |env.probes|
    ensures Recording(env, StreamOf(env, index)) <==> Streams(env)
    ensures Completes(env, StreamOf(env, index)) <==> Succeeds(env)
  {
  }

  /** The success trace: keep-alive cleared, stream destroyed, file ended, completed with the path, browser closed. */
  lemma {:induction false} SuccessTrace(m: Meeting, env: Env, r: StreamResult)
    requires Completes(env, r)
    ensures Effects(Executed(m, env, r).effects) ==
              [Navigate(m.meetingUrl), StartKeepAlive, StopKeepAlive, DestroyStream, EndFile,
               StoreWrite(Done(m, env.audioFilename)), CloseBrowser]
  {
    var t := TryOutcome(m, env, r);
    assert Settled(m, t) == Push(t.effects, CloseBrowser);
  }

  /** The catch and finally blocks append the releases they find due, the cancelled write and the close, in that order. */
  lemma {:induction false} SettledOrder(m: Meeting, t: TryState)
    requires t.error.Some? && t.file && t.browser
    ensures Effects(Settled(m, t)) ==
              Effects(t.effects) + (if t.stream then [DestroyStream] else []) +
              [EndFile, StoreWrite(Failed(m, t.error.value)), CloseBrowser]
  {
    var destroyed := if t.stream then Push(t.effects, DestroyStream) else t.effects;
    assert Caught(m, t) == Push(Push(destroyed, EndFile), StoreWrite(Failed(m, t.error.value)));
  }

  /** A failure in the meeting releases the stream it holds and the file before the cancelled write, then closes the browser. */
  lemma {:induction false} FailureOrder(m: Meeting, env: Env, r: StreamResult)
    requires InMeeting(env) && !Completes(env, r)
    ensures EndsWith(Effects(Executed(m, env, r).effects),
                     (if Recording(env, r) then [DestroyStream] else []) +
                     [EndFile, StoreWrite(Failed(m, TryOutcome(m, env, r).error.value)), CloseBrowser])
  {
    var t := TryOutcome(m, env, r);
    SettledOrder(m, t);
    var tail := (if t.stream then [DestroyStream] else []) + [EndFile, StoreWrite(Failed(m, t.error.value)), CloseBrowser];
    var effects := Effects(Settled(m, t));
    assert effects == Effects(t.effects) + tail;
    assert effects[|effects| - |tail|..] == tail;
  }

  /** When the recording function never appears, the run is cancelled with that message. */
  lemma {:induction false} NoRecordingFunctionWritten(m: Meeting, env: Env, index: nat)
    requires RetryPolicyFor(RECORDING_OPTIONS).times <= |env.probes|
    requires InMeeting(env) && env.extension.Ok? && env.front.Ok? && MissingBefore(env.probes, 5)
    ensures Writes(Outcome(m, env, index).effects) == [Failed(m, ERR_NO_RECORDING_FN)]
  {
    RecordingOptionsNormal();
  }

  /** `handleMeeting(meeting)` of index1.js; `alloc` holds the module-level `currentIndex`. */
  method HandleMeeting(m: Meeting, env: Env, alloc: StreamAllocator) returns (run: Run)
    requires alloc.Valid() && RetryPolicyFor(RECORDING_OPTIONS).times <= |env.probes|
    modifies alloc
    ensures alloc.Valid()
    ensures run == Outcome(m, env, old(alloc.currentIndex))
    // an index is taken whenever the extension page was found, even when the stream then fails
    ensures alloc.currentIndex == old(alloc.currentIndex) + (if InMeeting(env) && env.extension.Ok? then 1 else 0)
  {
    RecordingOptionsNormal();
    var effects: Trace := Empty;
    var browser := false;
    var stream := false;
    var file := false;
    var error: Option<string> := None;
    if env.prepare.Fail? {
      error := Some(env.prepare.message);
    } else if env.launch.Fail? {
      error := Some(env.launch.message);
    } else {
      browser := true;
      if env.page.Fail? {
        error := Some(env.page.message);
      } else if env.login.Fail? {
        error := Some(env.login.message);
      } else {
        effects := Then(effects, Navigate(m.meetingUrl));
        if env.gotoMeeting.Fail? {
          error := Some(env.gotoMeeting.message);
        } else {
          effects := Then(effects, StartKeepAlive);
          file := true;
          var r := alloc.GetStream(RECORDING_OPTIONS, env.extension, env.front, env.probes, env.start);
          if r.StreamFailed? {
            error := Some(r.message);
          } else {
            stream := true;
            effects := Then(Then(effects, StopKeepAlive), DestroyStream);
            if env.destroy.Fail? {
              error := Some(env.destroy.message);
            } else {
              effects := Then(Then(effects, EndFile), StoreWrite(Done(m, env.audioFilename)));
            }
          }
        }
      }
    }
    // catch
    if error.Some? {
      if stream {
        effects := Then(effects, DestroyStream);
      }
      if file {
        effects := Then(effects, EndFile);
      }
      effects := Then(effects, StoreWrite(Failed(m, error.value)));
    }
    // finally
    if browser {
      effects := Then(effects, CloseBrowser);
    }
    run := Run(effects, true);
  }
}
