/**
 * multi_record.js `handleMeeting`: validation, browser launch, sign-in,
 * join, in-page recording, the end-time polling loop and the gated
 * status writes of the `catch` block, with the second close in `finally`.
 */
module MultiRecordExecutor {
  import opened Common

  /** Outcomes of the external calls of one run, in the order they are made. */
  datatype Env = Env(
    prepare: Step,           // recordings directory and fresh profile directory
    launch: Step,            // puppeteer.launch
    pages: Step,             // browser.pages(); `page` is set when it resolves
    setup: Step,             // CDP cookie/cache clearing, user agent, listeners, webdriver override
    login: Step,             // the Google sign-in block, rethrown on failure
    gotoMeeting: Step,       // page.goto(meeting_url)
    permissionDenied: bool,  // the "You can't create a meeting yourself" element is present
    expose: Step,            // page.exposeFunction('sendRecording', ...)
    clock: seq<int>,         // successive readings of `new Date()` in the end-time loop
    stop: Step,              // page.evaluate stopping window.meetingRecorder
    catchStop: Step,         // the same evaluate issued from the catch block
    catchCloseOk: bool,      // whether the catch block's browser.close() resolves (otherwise the process is killed)
    finallyCloseOk: bool)    // whether the finally block's browser.close() resolves (otherwise the process is killed)

  /** The completed write of this script. */
  function Done(m: Meeting): Write {
    Write("meeting", m.id, Completed, None, None)
  }

  /** The cancelled write of this script. */
  function Failed(m: Meeting, message: string): Write {
    Write("meeting", m.id, Cancelled, Some(message), None)
  }

  /** Some reading of the polled clock reaches `end`. */
  predicate Reaches(clock: seq<int>, end: int) {
    exists i :: 0 <= i < |clock| && clock[i] >= end
  }

  /** `browser` is non-null when the catch block runs. */
  predicate Launched(m: Meeting, env: Env) {
    HasTimeFields(m) && env.prepare.Ok? && env.launch.Ok?
  }

  /** `page` is non-null when the catch block runs. */
  predicate HasPage(m: Meeting, env: Env) {
    Launched(m, env) && env.pages.Ok?
  }

  /** Every step of the try block up to the wait succeeds. */
  predicate ReachesWait(m: Meeting, env: Env) {
    && HasPage(m, env) && env.setup.Ok? && env.login.Ok? && env.gotoMeeting.Ok?
    && !env.permissionDenied && m.endTime.value - m.startTime.value > 0 && env.expose.Ok?
  }

  /** The run that ends in the completed write. */
  predicate Succeeds(m: Meeting, env: Env) {
    ReachesWait(m, env) && Reaches(env.clock, m.endTime.value) && env.stop.Ok?
  }

  /**
   * The `while (new Date() < end_time)` loop over the successive clock
   * readings; `reached` is false when every reading is still before `end`.
   */
  method WaitUntil(clock: seq<int>, end: int) returns (reached: bool, polls: nat)
    ensures reached <==> Reaches(clock, end)
    ensures reached ==> polls < |clock| && clock[polls] >= end
    ensures forall j :: 0 <= j < polls && j < |clock| ==> clock[j] < end
  {
    polls := 0;
    while polls < |clock| && clock[polls] < end
      invariant polls <= |clock|
      invariant forall j :: 0 <= j < polls ==> clock[j] < end
    {
      polls := polls + 1;
    }
    reached := polls < |clock|;
  }

  /** Where the try block of `handleMeeting` leaves its locals. */
  datatype TryState = TryState(
    effects: Trace,
    browser: bool,          // `browser` is non-null
    page: bool,             // `page` is non-null
    error: Option<string>,  // the error raised, if any
    suspended: bool)        // still waiting for the clock to reach end_time

  /** The try block of `handleMeeting`, up to the point it raises or finishes. */
  function TryOutcome(m: Meeting, env: Env): (t: TryState)
    ensures t.browser == Launched(m, env) && t.page == HasPage(m, env)
    ensures t.suspended <==> ReachesWait(m, env) && !Reaches(env.clock, m.endTime.value)
    ensures t.suspended ==> t.error.None?
    ensures !t.suspended ==> (t.error.None? <==> Succeeds(m, env))
    ensures Writes(t.effects) == if Succeeds(m, env) then [Done(m)] else []
    ensures Count(t.effects, CloseBrowser) == 0 && Count(t.effects, KillBrowser) == 0
    ensures !HasTimeFields(m) ==> t.effects == Empty && t.error == Some(ERR_MISSING_FIELDS)
  {
    if !HasTimeFields(m) then TryState(Empty, false, false, Some(ERR_MISSING_FIELDS), false)
    else if env.prepare.Fail? then TryState(Empty, false, false, Some(env.prepare.message), false)
    else if env.launch.Fail? then TryState(Empty, false, false, Some(env.launch.message), false)
    else if env.pages.Fail? then TryState(Empty, true, false, Some(env.pages.message), false)
    else if env.setup.Fail? then TryState(Empty, true, true, Some(env.setup.message), false)
    else if env.login.Fail? then TryState(Empty, true, true, Some(env.login.message), false)
    else
      var joined := Push(Empty, Navigate(m.meetingUrl));
      if env.gotoMeeting.Fail? then TryState(joined, true, true, Some(env.gotoMeeting.message), false)
      else if env.permissionDenied then TryState(joined, true, true, Some(ERR_NO_PERMISSION), false)
      // findJoinButton catches every error of its own
      else if m.endTime.value - m.startTime.value <= 0 then TryState(joined, true, true, Some(ERR_DURATION), false)
      else if env.expose.Fail? then TryState(joined, true, true, Some(env.expose.message), false)
      else if !Reaches(env.clock, m.endTime.value) then TryState(joined, true, true, None, true)
      else
        var stopped := Push(joined, StopPageRecorder);
        if env.stop.Fail? then TryState(stopped, true, true, Some(env.stop.message), false)
        else TryState(Push(stopped, StoreWrite(Done(m))), true, true, None, false)
  }

  /** A `browser.close()` attempt, followed by killing the process when it rejects. */
  function Close(effects: Trace, closeOk: bool): (r: Trace)
    ensures Writes(r) == Writes(effects)
    ensures Count(r, CloseBrowser) == Count(effects, CloseBrowser) + 1
    ensures Count(r, KillBrowser) == Count(effects, KillBrowser) + (if closeOk then 0 else 1)
  {
    var closed := Push(effects, CloseBrowser);
    if closeOk then closed else Push(closed, KillBrowser)
  }

  /**
   * The catch block reaches its close and status write: it runs, `browser`
   * is set, and the `page.evaluate` it issues first (when `page` is set) resolves.
   */
  predicate Gated(t: TryState, catchStop: Step) {
    t.error.Some? && t.browser && !(t.page && catchStop.Fail?)
  }

  /** The catch block of `handleMeeting`, run on the locals the try block left. */
  function Caught(m: Meeting, t: TryState, catchStop: Step, closeOk: bool): (effects: Trace)
    requires t.page ==> t.browser
    ensures Writes(effects) == Writes(t.effects) + if Gated(t, catchStop) then [Failed(m, t.error.value)] else []
    ensures Count(effects, CloseBrowser) == Count(t.effects, CloseBrowser) + if Gated(t, catchStop) then 1 else 0
    ensures Count(effects, KillBrowser) ==
              Count(t.effects, KillBrowser) + if Gated(t, catchStop) && !closeOk then 1 else 0
    ensures !t.browser ==> effects == t.effects
  {
    var stopped := if t.error.Some? && t.page then Push(t.effects, StopPageRecorder) else t.effects;
    if Gated(t, catchStop) then Push(Close(stopped, closeOk), StoreWrite(Failed(m, t.error.value))) else stopped
  }

  /**
   * The catch block followed by the `finally` close; each of the two closes
   * resolves or rejects on its own (`catchCloseOk`, `finallyCloseOk`).
   */
  function Settled(m: Meeting, t: TryState, catchStop: Step, catchCloseOk: bool, finallyCloseOk: bool): (effects: Trace)
    requires t.page ==> t.browser
    ensures Writes(effects) == Writes(t.effects) + if Gated(t, catchStop) then [Failed(m, t.error.value)] else []
    ensures Count(effects, CloseBrowser) ==
              Count(t.effects, CloseBrowser) + (if t.browser then 1 else 0) + (if Gated(t, catchStop) then 1 else 0)
    ensures Count(effects, KillBrowser) ==
              Count(t.effects, KillBrowser) + (if t.browser && !finallyCloseOk then 1 else 0) +
              (if Gated(t, catchStop) && !catchCloseOk then 1 else 0)
    ensures !t.browser ==> effects == t.effects
  {
    var caught := Caught(m, t, catchStop, catchCloseOk);
    if t.browser then Close(caught, finallyCloseOk) else caught
  }

  /** The run `handleMeeting` makes. */
  function Outcome(m: Meeting, env: Env): (run: Run)
    // the run only stays suspended in the end-time wait
    ensures !run.finished <==> ReachesWait(m, env) && !Reaches(env.clock, m.endTime.value)
    // missing fields raise before any collaborator is touched, and nothing is written
    ensures !HasTimeFields(m) ==> run == Run(Empty, true)
  {
    var t := TryOutcome(m, env);
    if t.suspended then Run(t.effects, false)
    else Run(Settled(m, t, env.catchStop, env.catchCloseOk, env.finallyCloseOk), true)
  }

  /**
   * The status writes of a run: completed exactly on the run whose every step
   * succeeded, cancelled with the try block's error when the catch block
   * reaches its gated write, and nothing otherwise.
   */
  lemma {:induction false} OutcomeWrites(m: Meeting, env: Env)
    ensures Writes(Outcome(m, env).effects) ==
              if Succeeds(m, env) then [Done(m)]
              else if Outcome(m, env).finished && Gated(TryOutcome(m, env), env.catchStop) then
                [Failed(m, TryOutcome(m, env).error.value)]
              else []
  {
    var t := TryOutcome(m, env);
    if !t.suspended {
      assert Gated(t, env.catchStop) ==> !Succeeds(m, env);
    }
  }

  /** At most one status write, and the cancelled one only inside `if (browser)`. */
  lemma {:induction false} SingleWrite(m: Meeting, env: Env)
    ensures |Writes(Outcome(m, env).effects)| <= 1
    ensures forall w :: w in Writes(Outcome(m, env).effects) && w.status == Cancelled ==> Launched(m, env)
  {
    OutcomeWrites(m, env);
  }

  /** Completed is written exactly on the run whose every step succeeded after the clock reached end_time. */
  lemma {:induction false} CompletedIff(m: Meeting, env: Env)
    ensures Done(m) in Writes(Outcome(m, env).effects) <==> Succeeds(m, env)
    ensures Done(m) in Writes(Outcome(m, env).effects) ==> Reaches(env.clock, m.endTime.value)
  {
    OutcomeWrites(m, env);
  }

  /** A failure after launch is recorded as cancelled, unless the catch block's own evaluate rejects. */
  lemma {:induction false} GatedFailureWritten(m: Meeting, env: Env)
    requires Launched(m, env) && Outcome(m, env).finished && !Succeeds(m, env)
    requires env.pages.Fail? || env.catchStop.Ok?
    ensures Writes(Outcome(m, env).effects) == [Failed(m, TryOutcome(m, env).error.value)]
    ensures Count(Outcome(m, env).effects, CloseBrowser) == 2
  {
    var t := TryOutcome(m, env);
    assert Gated(t, env.catchStop);
  }

  /** A catch-block evaluate that rejects skips the close and the status write there. */
  lemma {:induction false} RethrowSkipsWrite(m: Meeting, env: Env)
    requires HasPage(m, env) && Outcome(m, env).finished && !Succeeds(m, env) && env.catchStop.Fail?
    ensures Writes(Outcome(m, env).effects) == []
    ensures Count(Outcome(m, env).effects, CloseBrowser) == 1
  {
    var t := TryOutcome(m, env);
    assert !Gated(t, env.catchStop);
  }

  /** The duration check raises its own message, and it is written when the catch block gets that far. */
  lemma {:induction false} DurationRaises(m: Meeting, env: Env)
    requires HasPage(m, env) && env.setup.Ok? && env.login.Ok? && env.gotoMeeting.Ok? && !env.permissionDenied
    requires m.endTime.value - m.startTime.value <= 0 && env.catchStop.Ok?
    ensures Writes(Outcome(m, env).effects) == [Failed(m, ERR_DURATION)]
  {
    assert TryOutcome(m, env).error == Some(ERR_DURATION);
  }

  /** A launched browser is closed on every finished path; one never launched is never closed and nothing is written. */
  lemma {:induction false} OutcomeCloses(m: Meeting, env: Env)
    ensures Launched(m, env) && Outcome(m, env).finished ==> Count(Outcome(m, env).effects, CloseBrowser) >= 1
    ensures !Launched(m, env) ==>
              Count(Outcome(m, env).effects, CloseBrowser) == 0 && Writes(Outcome(m, env).effects) == []
  {
    var t := TryOutcome(m, env);
    if !t.suspended {
      var e := Settled(m, t, env.catchStop, env.catchCloseOk, env.finallyCloseOk);
    }
  }

  /**
   * The process is killed once for each of the two closes that rejects: the
   * `finally` close of every launched browser, and the catch-block close
   * when the gated write is reached.
   */
  lemma {:induction false} OutcomeKills(m: Meeting, env: Env)
    requires Outcome(m, env).finished
    ensures Count(Outcome(m, env).effects, KillBrowser) ==
              (if Launched(m, env) && !env.finallyCloseOk then 1 else 0) +
              (if Gated(TryOutcome(m, env), env.catchStop) && !env.catchCloseOk then 1 else 0)
  {
    var t := TryOutcome(m, env);
    var e := Settled(m, t, env.catchStop, env.catchCloseOk, env.finallyCloseOk);
  }

  /** `handleMeeting(meeting)` of multi_record.js. */
  method HandleMeeting(m: Meeting, env: Env) returns (run: Run)
    ensures run == Outcome(m, env)
  {
    var effects: Trace := Empty;
    var browser := false;
    var page := false;
    var error: Option<string> := None;
    if !HasTimeFields(m) {
      error := Some(ERR_MISSING_FIELDS);
    } else if env.prepare.Fail? {
      error := Some(env.prepare.message);
    } else if env.launch.Fail? {
      error := Some(env.launch.message);
    } else {
      browser := true;
      if env.pages.Fail? {
        error := Some(env.pages.message);
      } else {
        page := true;
        if env.setup.Fail? {
          error := Some(env.setup.message);
        } else if env.login.Fail? {
          error := Some(env.login.message);
        } else {
          effects := Then(effects, Navigate(m.meetingUrl));
          if env.gotoMeeting.Fail? {
            error := Some(env.gotoMeeting.message);
          } else if env.permissionDenied {
            error := Some(ERR_NO_PERMISSION);
          } else if m.endTime.value - m.startTime.value <= 0 {
            error := Some(ERR_DURATION);
          } else if env.expose.Fail? {
            error := Some(env.expose.message);
          } else {
            var reached, _ := WaitUntil(env.clock, m.endTime.value);
            if !reached {
              return Run(effects, false);
            }
            effects := Then(effects, StopPageRecorder);
            if env.stop.Fail? {
              error := Some(env.stop.message);
            } else {
              effects := Then(effects, StoreWrite(Done(m)));
            }
          }
        }
      }
    }
    // catch
    if error.Some? {
      var rethrown := false;
      if page {
        effects := Then(effects, StopPageRecorder);
        rethrown := env.catchStop.Fail?;
      }
      if browser && !rethrown {
        effects := Then(effects, CloseBrowser);
        if !env.catchCloseOk {
          effects := Then(effects, KillBrowser);
        }
        effects := Then(effects, StoreWrite(Failed(m, error.value)));
      }
    }
    // finally: a rejected close is followed by killing the browser process
    if browser {
      effects := Then(effects, CloseBrowser);
      if !env.finallyCloseOk {
        effects := Then(effects, KillBrowser);
      }
    }
    run := Run(effects, true);
  }
}
