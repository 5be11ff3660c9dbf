/**
 * index-pupStream.js `handleMeeting`: launch through the puppeteer-stream
 * `launch`, a sign-in whose failure is swallowed, the "Ask to join" button
 * and its bounding box, recording through the library's `getStream`, the
 * cancelled write inside `if (browser)`, and the cleanup that `finally`
 * defers to a ten-second timer.
 */
module PupStreamExecutor {
  import opened Common

  /** The query string appended to the meeting URL. */
  const LANGUAGE_SUFFIX := "?hl=en"

  /**
   * The TypeError raised when no "Ask to join" button exists: `evaluateHandle`
   * wraps the page function's null in a handle, which is never falsy, so the
   * `if (!button)` test passes and the handle has no `boundingBox` method.
   */
  const ERR_NO_BOUNDING_BOX := "button.boundingBox is not a function"

  /** The error the script throws for a missing join button, which only the corrected test can reach. */
  const ERR_JOIN_NOT_FOUND := "Join button not found"

  /**
   * The checks between the `evaluateHandle` lookup and the click, as
   * written: `button` is a handle, and `!button` is false for every handle,
   * so a missing button reaches `button.boundingBox`, which a handle to
   * null does not have.
   */
  function JoinCheckAsWritten(found: bool, box: bool): Option<string> {
    var handleFalsy := false;
    if handleFalsy then Some(ERR_JOIN_NOT_FOUND)
    else if !found then Some(ERR_NO_BOUNDING_BOX)
    else if !box then Some(ERR_NO_POSITION)
    else None
  }

  /** The same checks testing `button.asElement()`, as evidently intended. */
  function JoinCheckCorrected(found: bool, box: bool): Option<string> {
    if !found then Some(ERR_JOIN_NOT_FOUND)
    else if !box then Some(ERR_NO_POSITION)
    else None
  }

  /** As written, 'Join button not found' is never raised, and a missing button raises the TypeError instead. */
  lemma {:induction false} JoinNotFoundUnreachable(found: bool, box: bool)
    ensures JoinCheckAsWritten(found, box) != Some(ERR_JOIN_NOT_FOUND)
    ensures !found ==> JoinCheckAsWritten(found, box) == Some(ERR_NO_BOUNDING_BOX)
  {
  }

  /** Corrected, a missing button raises 'Join button not found', and every other outcome is as written. */
  lemma {:induction false} JoinCheckCorrectedSpec(found: bool, box: bool)
    ensures JoinCheckCorrected(found, box) == Some(ERR_JOIN_NOT_FOUND) <==> !found
    ensures found ==> JoinCheckCorrected(found, box) == JoinCheckAsWritten(found, box)
  {
  }

  /** Outcomes of the external calls of one run, in the order they are made. */
  datatype Env = Env(
    prepare: Step,        // removing and re-creating the profile directory
    launch: Step,         // puppeteer-stream's launch
    page: Step,           // newPage and overridePermissions
    login: Step,          // the Google sign-in block, whose failure is logged and swallowed
    gotoMeeting: Step,    // page.goto(meeting_url + '?hl=en')
    joinButton: bool,     // a span reading "Ask to join" inside a button exists
    buttonBox: bool,      // the button has a bounding box
    click: Step,          // page.mouse.click in the middle of the button
    keys: Step,           // the Ctrl+E and Ctrl+D key presses
    recordingDir: bool,   // the recordings directory exists; this script never creates it
    stream: Step,         // getStream(page, { audio: true, mimeType: "audio/webm" })
    closeOk: bool,        // browser.close() in the catch block resolves; otherwise the process is killed
    destroyLater: Step,   // stream.destroy() in the deferred cleanup
    closeLater: Step)     // browser.close() in the deferred cleanup

  /** The completed write of this script (no recording path). */
  function Done(m: Meeting): Write {
    Write("meeting", m.id, Completed, None, None)
  }

  /** The cancelled write of this script. */
  function Failed(m: Meeting, message: string): Write {
    Write("meeting", m.id, Cancelled, Some(message), None)
  }

  /** The URL the meeting page is opened at. */
  function MeetingPage(m: Meeting): string {
    m.meetingUrl + LANGUAGE_SUFFIX
  }

  /** `browser` is non-null when the catch block runs. */
  predicate Launched(env: Env) {
    env.prepare.Ok? && env.launch.Ok?
  }

  /** The meeting page is requested (the sign-in outcome plays no part). */
  predicate Navigates(env: Env) {
    Launched(env) && env.page.Ok?
  }

  /** `file` is set: every step up to the recording file succeeds. */
  predicate HasFile(env: Env) {
    && Navigates(env) && env.gotoMeeting.Ok? && env.joinButton && env.buttonBox
    && env.click.Ok? && env.keys.Ok?
  }

  /**
   * The recording file cannot be opened: its 'error' event fires during the
   * three-second sleep, before anything listens for it, and the uncaught
   * exception ends the process.
   */
  predicate Exits(env: Env) {
    HasFile(env) && !env.recordingDir
  }

  /** The run that ends in the completed write; `stream` is set exactly on it. */
  predicate Succeeds(env: Env) {
    HasFile(env) && env.recordingDir && env.stream.Ok?
  }

  /** Where the try block of `handleMeeting` leaves its locals. */
  datatype TryState = TryState(
    effects: Trace,
    browser: bool,          // `browser` is non-null
    file: bool,             // `file` is non-null
    stream: bool,           // `stream` is non-null
    error: Option<string>,  // the error raised, if any
    exited: bool)           // the process ended inside the try block

  /** The try block of `handleMeeting`. */
  function TryOutcome(m: Meeting, env: Env): (t: TryState)
    ensures t.browser == Launched(env) && t.file == HasFile(env) && t.stream == Succeeds(env)
    ensures t.exited <==> Exits(env)
    ensures t.error.None? <==> Succeeds(env) || Exits(env)
    ensures Writes(t.effects) == if Succeeds(env) then [Done(m)] else []
    ensures Navigates(env) && env.gotoMeeting.Ok? && !(env.joinButton && env.buttonBox) ==>
              t.error == JoinCheckAsWritten(env.joinButton, env.buttonBox)
    ensures Navigates(env) && env.gotoMeeting.Ok? && !env.joinButton ==> t.error == Some(ERR_NO_BOUNDING_BOX)
    ensures Navigates(env) && env.gotoMeeting.Ok? && env.joinButton && !env.buttonBox ==>
              t.error == Some(ERR_NO_POSITION)
    ensures Effects(t.effects) ==
              (if Navigates(env) then [Navigate(MeetingPage(m))] else []) + (if Succeeds(env) then [StoreWrite(Done(m))] else [])
  {
    if env.prepare.Fail? then TryState(Empty, false, false, false, Some(env.prepare.message), false)
    else if env.launch.Fail? then TryState(Empty, false, false, false, Some(env.launch.message), false)
    else if env.page.Fail? then TryState(Empty, true, false, false, Some(env.page.message), false)
    else
      // the sign-in block catches its own errors
      var navigated := Push(Empty, Navigate(MeetingPage(m)));
      if env.gotoMeeting.Fail? then TryState(navigated, true, false, false, Some(env.gotoMeeting.message), false)
      else if JoinCheckAsWritten(env.joinButton, env.buttonBox).Some? then
        TryState(navigated, true, false, false, JoinCheckAsWritten(env.joinButton, env.buttonBox), false)
      else if env.click.Fail? then TryState(navigated, true, false, false, Some(env.click.message), false)
      // the join-confirmation wait catches its own errors
      else if env.keys.Fail? then TryState(navigated, true, false, false, Some(env.keys.message), false)
      // `file` is created synchronously; opening it fails asynchronously without the directory
      else if !env.recordingDir then TryState(navigated, true, true, false, None, true)
      else if env.stream.Fail? then TryState(navigated, true, true, false, Some(env.stream.message), false)
      // the wait for the meeting duration is a plain timer
      else TryState(Push(navigated, StoreWrite(Done(m))), true, true, true, None, false)
  }

  /**
   * The catch block and `finally`: a launched browser is closed (and its
   * process killed when the close rejects) before the cancelled write, and
   * every path arms the deferred cleanup.
   */
  function Settled(m: Meeting, t: TryState, closeOk: bool): (effects: Trace)
    ensures Writes(effects) ==
              Writes(t.effects) + (if t.error.Some? && t.browser then [Failed(m, t.error.value)] else [])
    ensures Count(effects, CloseBrowser) == Count(t.effects, CloseBrowser) + (if t.error.Some? && t.browser then 1 else 0)
    ensures Count(effects, KillBrowser) ==
              Count(t.effects, KillBrowser) + (if t.error.Some? && t.browser && !closeOk then 1 else 0)
    ensures effects.Then? && effects.last == ArmDeferredCleanup
    ensures Count(effects, ArmDeferredCleanup) == Count(t.effects, ArmDeferredCleanup) + 1
  {
    var caught :=
      if t.error.Some? && t.browser then
        var closed := Push(t.effects, CloseBrowser);
        var killed := if closeOk then closed else Push(closed, KillBrowser);
        Push(killed, StoreWrite(Failed(m, t.error.value)))
      else t.effects;
    Push(caught, ArmDeferredCleanup)
  }

  /**
   * The run `handleMeeting` makes up to arming the deferred cleanup. It
   * finishes unless the process ends inside the try block, in which case
   * neither `catch` nor `finally` runs.
   */
  function Outcome(m: Meeting, env: Env): (run: Run)
    ensures run.finished <==> !Exits(env)
    // completed on success; cancelled only inside `if (browser)`; nothing when the launch never happened
    ensures Writes(run.effects) ==
              if Succeeds(env) then [Done(m)]
              else if Launched(env) && !Exits(env) then [Failed(m, TryOutcome(m, env).error.value)]
              else []
    // the catch block closes the browser on a failure after launch; a successful run leaves it to the timer
    ensures Count(run.effects, CloseBrowser) == (if Launched(env) && !Succeeds(env) && !Exits(env) then 1 else 0)
    ensures Count(run.effects, KillBrowser) ==
              (if Launched(env) && !Succeeds(env) && !Exits(env) && !env.closeOk then 1 else 0)
    // every path the process survives, the successful one included, ends by arming the deferred cleanup
    ensures !Exits(env) ==> run.effects.Then? && run.effects.last == ArmDeferredCleanup
    ensures Count(run.effects, ArmDeferredCleanup) == if Exits(env) then 0 else 1
  {
    var t := TryOutcome(m, env);
    assert Count(t.effects, CloseBrowser) == 0 && Count(t.effects, KillBrowser) == 0;
    assert Count(t.effects, ArmDeferredCleanup) == 0;
    if t.exited then Run(t.effects, false) else Run(Settled(m, t, env.closeOk), true)
  }

  /** What the ten-second timer's callback leaves: its effects, and whether its promise rejects. */
  datatype Cleanup = Cleanup(effects: Trace, rejected: bool)

  /** The timer callback gets through all three releases. */
  predicate CleanupCompletes(t: TryState, env: Env) {
    t.stream && env.destroyLater.Ok? && t.browser && env.closeLater.Ok? && t.file
  }

  /**
   * The callback of the ten-second timer, appended to `effects`: destroy the
   * stream, close the browser, close the file. Calling a method of a null
   * handle throws a TypeError and a rejected call throws its error; nothing
   * catches either, so the chain stops there and the callback's promise rejects.
   */
  function Deferred(t: TryState, env: Env, effects: Trace): (r: Cleanup)
    ensures Writes(r.effects) == Writes(effects)
    ensures r.rejected <==> !CleanupCompletes(t, env)
    ensures Count(r.effects, CloseFile) == Count(effects, CloseFile) + (if CleanupCompletes(t, env) then 1 else 0)
    ensures !t.stream ==> r.effects == effects
  {
    if !t.stream then Cleanup(effects, true)
    else
      var destroyed := Push(effects, DestroyStream);
      if env.destroyLater.Fail? || !t.browser then Cleanup(destroyed, true)
      else
        var closed := Push(destroyed, CloseBrowser);
        if env.closeLater.Fail? || !t.file then Cleanup(closed, true)
        else Cleanup(Push(closed, CloseFile), false)
  }

  /** Everything the run does, including the deferred cleanup once its timer fires; an ended process arms none. */
  function Lifecycle(m: Meeting, env: Env): (c: Cleanup)
    ensures Writes(c.effects) == Writes(Outcome(m, env).effects)
    ensures Exits(env) ==> c == Cleanup(Outcome(m, env).effects, false)
  {
    if Exits(env) then Cleanup(Outcome(m, env).effects, false)
    else Deferred(TryOutcome(m, env), env, Outcome(m, env).effects)
  }

  /**
   * The deferred cleanup with each release guarded by its handle and its
   * failure caught, as evidently intended: it releases every handle the run
   * holds and never rejects.
   */
  function DeferredCorrected(t: TryState, env: Env, effects: Trace): (r: Cleanup)
    ensures Writes(r.effects) == Writes(effects)
    ensures !r.rejected
    ensures Count(r.effects, CloseFile) == Count(effects, CloseFile) + (if t.file then 1 else 0)
    ensures Count(r.effects, DestroyStream) == Count(effects, DestroyStream) + (if t.stream then 1 else 0)
  {
    var destroyed := if t.stream then Push(effects, DestroyStream) else effects;
    var closed := if t.browser then Push(destroyed, CloseBrowser) else destroyed;
    Cleanup(if t.file then Push(closed, CloseFile) else closed, false)
  }

  /**
   * A run whose `getStream` rejects after the file was opened: as written the
   * deferred cleanup leaves the file open and rejects; corrected it closes
   * the file and settles.
   */
  lemma {:induction false} StreamFailureCleanup(m: Meeting, env: Env)
    requires HasFile(env) && env.recordingDir && env.stream.Fail?
    ensures Count(Lifecycle(m, env).effects, CloseFile) == 0 && Lifecycle(m, env).rejected
    ensures var c := DeferredCorrected(TryOutcome(m, env), env, Outcome(m, env).effects);
            Count(c.effects, CloseFile) == 1 && !c.rejected
  {
    var t := TryOutcome(m, env);
    assert Count(t.effects, CloseFile) == 0;
  }

  /** The sign-in outcome changes nothing: its failure is swallowed. */
  lemma {:induction false} LoginIgnored(m: Meeting, env: Env, login: Step)
    ensures Outcome(m, env.(login := login)) == Outcome(m, env)
    ensures Lifecycle(m, env.(login := login)) == Lifecycle(m, env)
  {
    assert TryOutcome(m, env.(login := login)) == TryOutcome(m, env);
  }

  /** The meeting page is requested with the language query appended, once the page is set up. */
  lemma {:induction false} NavigatesWithLanguage(m: Meeting, env: Env)
    requires Navigates(env)
    ensures Effects(Outcome(m, env).effects)[0] == Navigate(m.meetingUrl + "?hl=en")
  {
    var t := TryOutcome(m, env);
    assert Effects(t.effects)[0] == Navigate(MeetingPage(m));
    if !t.exited {
      var caught :=
        if t.error.Some? && t.browser then
          var closed := Push(t.effects, CloseBrowser);
          var killed := if env.closeOk then closed else Push(closed, KillBrowser);
          Push(killed, StoreWrite(Failed(m, t.error.value)))
        else t.effects;
      assert Outcome(m, env).effects == Push(caught, ArmDeferredCleanup);
    }
  }

  /**
   * On every failed run the deferred cleanup releases nothing and rejects:
   * `stream` is still null, so `stream.destroy()` throws at once, and the
   * file created before a failed `getStream` is never closed. Only a run
   * whose process has ended arms no cleanup at all.
   */
  lemma {:induction false} FailedRunLeaksFile(m: Meeting, env: Env)
    requires !Succeeds(env)
    ensures Lifecycle(m, env).effects == Outcome(m, env).effects
    ensures Lifecycle(m, env).rejected <==> !Exits(env)
    ensures Count(Lifecycle(m, env).effects, CloseFile) == 0
  {
    var t := TryOutcome(m, env);
    assert Count(t.effects, CloseFile) == 0;
  }

  /** With every handle set and every call resolving, the deferred cleanup releases all three, in order. */
  lemma {:induction false} DeferredReleasesAll(t: TryState, env: Env, effects: Trace)
    requires t.stream && t.browser && t.file && env.destroyLater.Ok? && env.closeLater.Ok?
    ensures Effects(Deferred(t, env, effects).effects) == Effects(effects) + [DestroyStream, CloseBrowser, CloseFile]
    ensures !Deferred(t, env, effects).rejected
  {
    assert Deferred(t, env, effects).effects == Push(Push(Push(effects, DestroyStream), CloseBrowser), CloseFile);
  }

  /** A successful run opens the page, writes completed and arms the cleanup, and does nothing else. */
  lemma {:induction false} SuccessRun(m: Meeting, env: Env)
    requires Succeeds(env)
    ensures Effects(Outcome(m, env).effects) == [Navigate(MeetingPage(m)), StoreWrite(Done(m)), ArmDeferredCleanup]
  {
    var t := TryOutcome(m, env);
    assert Outcome(m, env).effects == Push(t.effects, ArmDeferredCleanup);
  }

  /** The catch block's effects, in order, after a failure with a launched browser. */
  lemma {:induction false} SettledOrder(m: Meeting, t: TryState, closeOk: bool)
    requires t.error.Some? && t.browser
    ensures Effects(Settled(m, t, closeOk)) ==
              Effects(t.effects) + ([CloseBrowser] + (if closeOk then [] else [KillBrowser]) +
                                    [StoreWrite(Failed(m, t.error.value)), ArmDeferredCleanup])
  {
    var closed := Push(t.effects, CloseBrowser);
    var killed := if closeOk then closed else Push(closed, KillBrowser);
    var caught := Push(killed, StoreWrite(Failed(m, t.error.value)));
    assert Settled(m, t, closeOk) == Push(caught, ArmDeferredCleanup);
  }

  /**
   * A failure after the launch closes the browser, kills its process when
   * the close rejects, then writes cancelled, and arms the cleanup last.
   */
  lemma {:induction false} CatchOrder(m: Meeting, env: Env)
    requires Launched(env) && !Succeeds(env) && !Exits(env)
    ensures EndsWith(Effects(Outcome(m, env).effects),
                     [CloseBrowser] + (if env.closeOk then [] else [KillBrowser]) +
                     [StoreWrite(Failed(m, TryOutcome(m, env).error.value)), ArmDeferredCleanup])
  {
    var t := TryOutcome(m, env);
    SettledOrder(m, t, env.closeOk);
    var tail := [CloseBrowser] + (if env.closeOk then [] else [KillBrowser]) + [StoreWrite(Failed(m, t.error.value)), ArmDeferredCleanup];
    var all := Effects(Settled(m, t, env.closeOk));
    assert all[|all| - |tail|..] == tail;
  }

  /** A successful run releases the stream, the browser and the file, in that order, once the timer fires. */
  lemma {:induction false} SuccessCleanup(m: Meeting, env: Env)
    requires Succeeds(env) && env.destroyLater.Ok? && env.closeLater.Ok?
    ensures Effects(Lifecycle(m, env).effects) ==
              [Navigate(MeetingPage(m)), StoreWrite(Done(m)), ArmDeferredCleanup, DestroyStream, CloseBrowser, CloseFile]
    ensures !Lifecycle(m, env).rejected
  {
    SuccessRun(m, env);
    DeferredReleasesAll(TryOutcome(m, env), env, Outcome(m, env).effects);
  }

  /** A rejected destroy in the deferred cleanup leaves the browser open and the file unclosed, and the callback rejects. */
  lemma {:induction false} DestroyFailureStopsCleanup(m: Meeting, env: Env)
    requires Succeeds(env) && env.destroyLater.Fail?
    ensures Count(Lifecycle(m, env).effects, CloseBrowser) == 0
    ensures Count(Lifecycle(m, env).effects, CloseFile) == 0
    ensures Lifecycle(m, env).rejected
  {
    var t := TryOutcome(m, env);
    assert Count(t.effects, CloseFile) == 0;
    assert Lifecycle(m, env).effects == Push(Outcome(m, env).effects, DestroyStream);
  }

  /**
   * Without the recordings directory the process ends after the join: the
   * run stops at the navigation, writes nothing, releases nothing and arms no cleanup.
   */
  lemma {:induction false} MissingDirectoryExits(m: Meeting, env: Env)
    requires HasFile(env) && !env.recordingDir
    ensures !Outcome(m, env).finished
    ensures Effects(Lifecycle(m, env).effects) == [Navigate(MeetingPage(m))]
  {
    assert Outcome(m, env).effects == Push(Empty, Navigate(MeetingPage(m)));
  }

  /** `handleMeeting(meeting)` of index-pupStream.js, up to arming the deferred cleanup. */
  method HandleMeeting(m: Meeting, env: Env) returns (run: Run)
    ensures run == Outcome(m, env)
  {
    var effects: Trace := Empty;
    var browser := false;
    var error: Option<string> := None;
    if env.prepare.Fail? {
      error := Some(env.prepare.message);
    } else if env.launch.Fail? {
      error := Some(env.launch.message);
    } else {
      browser := true;
      if env.page.Fail? {
        error := Some(env.page.message);
      } else {
        // a failed sign-in is logged and the run carries on
        effects := Then(effects, Navigate(m.meetingUrl + LANGUAGE_SUFFIX));
        if env.gotoMeeting.Fail? {
          error := Some(env.gotoMeeting.message);
        } else if JoinCheckAsWritten(env.joinButton, env.buttonBox).Some? {
          error := JoinCheckAsWritten(env.joinButton, env.buttonBox);
        } else if env.click.Fail? {
          error := Some(env.click.message);
        } else if env.keys.Fail? {
          error := Some(env.keys.message);
        } else if !env.recordingDir {
          // the file's unhandled 'error' event ends the process
          return Run(effects, false);
        } else if env.stream.Fail? {
          error := Some(env.stream.message);
        } else {
          effects := Then(effects, StoreWrite(Done(m)));
        }
      }
    }
    // catch: the close and the cancelled write are both inside `if (browser)`
    if error.Some? && browser {
      effects := Then(effects, CloseBrowser);
      if !env.closeOk {
        effects := Then(effects, KillBrowser);
      }
      effects := Then(effects, StoreWrite(Failed(m, error.value)));
    }
    // finally
    effects := Then(effects, ArmDeferredCleanup);
    run := Run(effects, true);
  }
}
