/**
 * index.js `handleMeeting`: validation of the `start_date`/`end_date`
 * columns, launch, the injected recorder, the recording-start check, the
 * duration check after it, the duration race, the completed write only when
 * audio came back, the ungated `canceled` write of the catch block and the
 * browser close of `finally`.
 */
module IndexJsExecutor {
  import opened Common
  import opened Timers
  import opened InPage

  /** The name of the directory, under the working directory, that the recordings are saved in. */
  const RECORDING_DIR := "recordings"

  /** Outcomes of the external calls of one run, in the order they are made. */
  datatype Env = Env(
    launch: Step,       // puppeteer.launch
    page: Step,         // browser.newPage()
    inject: Step,       // page.evaluateOnNewDocument installing the recorder
    gotoMeeting: Step,  // page.goto(meeting.meeting_url)
    mkdir: Step,        // fs.mkdir(RECORDING_DIR, { recursive: true })
    started: bool,      // what the in-page startRecording resolved to
    stop: Step,         // the page.evaluate of stopRecording and the base64 conversion
    audio: bool,        // the evaluate resolved with a non-empty base64 string
    writeFile: Step,    // fs.writeFile of the decoded audio
    cwd: string)        // process.cwd() when the script was loaded

  /** `path.join(dir, name)` for a name without separators: one `/` between the two. */
  function Join(dir: string, name: string): (r: string)
    ensures |r| == |dir| + |name| + (if dir != [] && dir[|dir| - 1] == '/' then 0 else 1)
    ensures r[..|dir|] == dir && r[|r| - |name|..] == name
  {
    if dir != [] && dir[|dir| - 1] == '/' then dir + name else dir + "/" + name
  }

  /** The `audioPath` of a saved recording: `meeting_<id>.webm` in the recordings directory under `cwd`. */
  function AudioPath(cwd: string, m: Meeting): string {
    Join(Join(cwd, RECORDING_DIR), "meeting_" + m.id + ".webm")
  }

  /**
   * The recording path is absolute whenever the working directory is, and
   * two meetings with different ids never share a recording file.
   */
  lemma {:induction false} AudioPathDistinct(cwd: string, m1: Meeting, m2: Meeting)
    ensures cwd != [] && cwd[0] == '/' ==> AudioPath(cwd, m1)[0] == '/'
    ensures AudioPath(cwd, m1) == AudioPath(cwd, m2) ==> m1.id == m2.id
  {
    var dir := Join(cwd, RECORDING_DIR);
    var n1, n2 := "meeting_" + m1.id + ".webm", "meeting_" + m2.id + ".webm";
    if cwd != [] {
      assert AudioPath(cwd, m1)[0] == AudioPath(cwd, m1)[..|dir|][0] == dir[..|cwd|][0];
    }
    if AudioPath(cwd, m1) == AudioPath(cwd, m2) {
      var p := AudioPath(cwd, m1);
      assert |n1| == |n2|;
      assert n1 == p[|p| - |n1|..] == n2;
      assert m1.id == n1[8..|n1| - 5] && m2.id == n2[8..|n2| - 5];
    }
  }

  /** The completed write of this script, carrying the recording path. */
  function Done(m: Meeting, cwd: string): Write {
    Write("meetings", m.id, Completed, None, Some(AudioPath(cwd, m)))
  }

  /** The cancellation write of this script, spelt `canceled`. */
  function Failed(m: Meeting, message: string): Write {
    Write("meetings", m.id, Canceled, Some(message), None)
  }

  /** The `!meeting?.id || ... || !meeting?.end_date` guard, negated: this script reads the date columns. */
  predicate HasDateFields(m: Meeting) {
    m.id != "" && m.meetingUrl != "" && m.startDate.Some? && m.endDate.Some?
  }

  /** `new Date(meeting.end_date) - new Date(meeting.start_date)`. */
  function Duration(m: Meeting): int
    requires HasDateFields(m)
  {
    m.endDate.value - m.startDate.value
  }

  /** `browser` is non-null when the catch block runs. */
  predicate Launched(m: Meeting, env: Env) {
    HasDateFields(m) && env.launch.Ok?
  }

  /** The meeting URL is opened. */
  predicate Navigates(m: Meeting, env: Env) {
    Launched(m, env) && env.page.Ok? && env.inject.Ok?
  }

  /** The in-page recorder is asked to start. */
  predicate AsksToStart(m: Meeting, env: Env) {
    Navigates(m, env) && env.gotoMeeting.Ok? && env.mkdir.Ok?
  }

  /** The duration race is entered. */
  predicate Races(m: Meeting, env: Env) {
    AsksToStart(m, env) && env.started && Duration(m) > 0
  }

  /** The recorder is asked to stop: the plain timer settled the race. */
  predicate Stops(m: Meeting, env: Env) {
    Races(m, env) && RaceWinner(Duration(m)) == Elapsed
  }

  /** The stop evaluate resolved. */
  predicate Stopped(m: Meeting, env: Env) {
    Stops(m, env) && env.stop.Ok?
  }

  /** The run that ends in the completed write. */
  predicate Saves(m: Meeting, env: Env) {
    Stopped(m, env) && env.audio && env.writeFile.Ok?
  }

  /** The try block ends without an error: the recording was saved, or no audio came back. */
  predicate Finishes(m: Meeting, env: Env) {
    Stopped(m, env) && (env.audio ==> env.writeFile.Ok?)
  }

  /** Where the try block of `handleMeeting` leaves its locals. */
  datatype TryState = TryState(
    effects: Trace,
    browser: bool,          // `browser` is non-null
    error: Option<string>)  // the error raised, if any

  /** The try block of `handleMeeting`. */
  function TryOutcome(m: Meeting, env: Env): (t: TryState)
    ensures t.browser == Launched(m, env)
    ensures t.error.None? <==> Finishes(m, env)
    ensures Writes(t.effects) == if Saves(m, env) then [Done(m, env.cwd)] else []
    // validation reads id, meeting_url, start_date and end_date and raises before any browser work
    ensures !HasDateFields(m) ==> t.error == Some(ERR_MISSING_FIELDS) && t.effects == Empty
    // a recorder that did not start raises, before the duration is looked at
    ensures AsksToStart(m, env) && !env.started ==> t.error == Some(ERR_START_RECORDING)
    ensures AsksToStart(m, env) && env.started && Duration(m) <= 0 ==> t.error == Some(ERR_DURATION)
    ensures Races(m, env) && RaceWinner(Duration(m)) == TimedOut ==> t.error == Some(ERR_RACE_TIMEOUT)
    ensures Count(t.effects, CloseBrowser) == 0
    ensures Count(t.effects, StopPageRecorder) == if Stops(m, env) then 1 else 0
  {
    if !HasDateFields(m) then TryState(Empty, false, Some(ERR_MISSING_FIELDS))
    else if env.launch.Fail? then TryState(Empty, false, Some(env.launch.message))
    else if env.page.Fail? then TryState(Empty, true, Some(env.page.message))
    else if env.inject.Fail? then TryState(Empty, true, Some(env.inject.message))
    else
      var navigated := Push(Empty, Navigate(m.meetingUrl));
      if env.gotoMeeting.Fail? then TryState(navigated, true, Some(env.gotoMeeting.message))
      else if env.mkdir.Fail? then TryState(navigated, true, Some(env.mkdir.message))
      else if !env.started then TryState(navigated, true, Some(ERR_START_RECORDING))
      else if Duration(m) <= 0 then TryState(navigated, true, Some(ERR_DURATION))
      else if RaceWinner(Duration(m)) == TimedOut then TryState(navigated, true, Some(ERR_RACE_TIMEOUT))
      else
        var stopped := Push(navigated, StopPageRecorder);
        if env.stop.Fail? then TryState(stopped, true, Some(env.stop.message))
        else if !env.audio then TryState(stopped, true, None)
        else if env.writeFile.Fail? then TryState(stopped, true, Some(env.writeFile.message))
        else TryState(Push(stopped, StoreWrite(Done(m, env.cwd))), true, None)
  }

  /** The catch block writes `canceled` for any error, ungated; `finally` closes a launched browser. */
  function Settled(m: Meeting, t: TryState): (effects: Trace)
    ensures Writes(effects) == Writes(t.effects) + (if t.error.Some? then [Failed(m, t.error.value)] else [])
    ensures Count(effects, CloseBrowser) == Count(t.effects, CloseBrowser) + (if t.browser then 1 else 0)
  {
    var caught := if t.error.Some? then Push(t.effects, StoreWrite(Failed(m, t.error.value))) else t.effects;
    if t.browser then Push(caught, CloseBrowser) else caught
  }

  /** The run `handleMeeting` makes; it always finishes. */
  function Outcome(m: Meeting, env: Env): (run: Run)
    ensures run.finished
    // completed with the recording path; no write when no audio came back; `canceled` for any error
    ensures Writes(run.effects) ==
              if Saves(m, env) then [Done(m, env.cwd)]
              else if Finishes(m, env) then []
              else [Failed(m, TryOutcome(m, env).error.value)]
    // `finally` closes the browser exactly when it was launched
    ensures Count(run.effects, CloseBrowser) == if Launched(m, env) then 1 else 0
  {
    Run(Settled(m, TryOutcome(m, env)), true)
  }

  /** Missing date columns write `canceled` and nothing else happens. */
  lemma {:induction false} MissingFieldsCanceled(m: Meeting, env: Env)
    requires !HasDateFields(m)
    ensures Effects(Outcome(m, env).effects) == [StoreWrite(Failed(m, ERR_MISSING_FIELDS))]
  {
    assert Outcome(m, env).effects == Push(Empty, StoreWrite(Failed(m, ERR_MISSING_FIELDS)));
  }

  /** The `start_time`/`end_time` columns play no part in this script. */
  lemma {:induction false} TimeColumnsIgnored(m: Meeting, env: Env, startTime: Option<int>, endTime: Option<int>)
    ensures Outcome(m.(startTime := startTime, endTime := endTime), env) == Outcome(m, env)
  {
    var m' := m.(startTime := startTime, endTime := endTime);
    assert Done(m', env.cwd) == Done(m, env.cwd) && HasDateFields(m') == HasDateFields(m);
    assert TryOutcome(m', env) == TryOutcome(m, env);
  }

  /**
   * A recorder that does not start cancels the run with its own message,
   * whatever the dates say: the duration check comes only after it.
   */
  lemma {:induction false} StartFailureCanceled(m: Meeting, env: Env)
    requires AsksToStart(m, env) && !env.started
    ensures Writes(Outcome(m, env).effects) == [Failed(m, ERR_START_RECORDING)]
    ensures Count(Outcome(m, env).effects, StopPageRecorder) == 0
  {
  }

  /** A positive duration that leaves room for the grace period never raises the timeout. */
  lemma {:induction false} NoTimeoutBelowWindow(m: Meeting, env: Env)
    requires Races(m, env) && Duration(m) <= TIMEOUT_MAX - RACE_GRACE
    ensures Stops(m, env)
    ensures Count(TryOutcome(m, env).effects, StopPageRecorder) == 1
  {
    ElapsedBelowWindow(Duration(m));
  }

  /** A duration in the last five seconds below Node's limit cancels the run with the timeout error. */
  lemma {:induction false} TimeoutInWindow(m: Meeting, env: Env)
    requires Races(m, env) && TIMEOUT_MAX - RACE_GRACE < Duration(m) <= TIMEOUT_MAX
    ensures Writes(Outcome(m, env).effects) == [Failed(m, ERR_RACE_TIMEOUT)]
  {
  }

  /** When the stop evaluate resolves without audio the run writes no status at all. */
  lemma {:induction false} NoAudioNoWrite(m: Meeting, env: Env)
    requires Stopped(m, env) && !env.audio
    ensures Writes(Outcome(m, env).effects) == []
    ensures Count(Outcome(m, env).effects, CloseBrowser) == 1
  {
  }

  /** The catch and `finally` effects, in order, after an error with a launched browser. */
  lemma {:induction false} SettledOrder(m: Meeting, t: TryState)
    requires t.error.Some? && t.browser
    ensures Effects(Settled(m, t)) == Effects(t.effects) + [StoreWrite(Failed(m, t.error.value)), CloseBrowser]
  {
    assert Settled(m, t) == Push(Push(t.effects, StoreWrite(Failed(m, t.error.value))), CloseBrowser);
  }

  /** On a failure after launch the `canceled` write comes before the browser close. */
  lemma {:induction false} CanceledBeforeClose(m: Meeting, env: Env)
    requires Launched(m, env) && !Finishes(m, env)
    ensures EndsWith(Effects(Outcome(m, env).effects),
                     [StoreWrite(Failed(m, TryOutcome(m, env).error.value)), CloseBrowser])
  {
    var t := TryOutcome(m, env);
    SettledOrder(m, t);
    var tail := [StoreWrite(Failed(m, t.error.value)), CloseBrowser];
    var all := Effects(Settled(m, t));
    assert all[|all| - |tail|..] == tail;
  }

  /** A saved recording opens the page, stops the recorder, writes completed and closes the browser. */
  lemma {:induction false} SavedTrace(m: Meeting, env: Env)
    requires Saves(m, env)
    ensures Effects(Outcome(m, env).effects) ==
              [Navigate(m.meetingUrl), StopPageRecorder, StoreWrite(Done(m, env.cwd)), CloseBrowser]
  {
    var saved := Push(Push(Push(Empty, Navigate(m.meetingUrl)), StopPageRecorder), StoreWrite(Done(m, env.cwd)));
    assert TryOutcome(m, env).effects == saved;
    assert Outcome(m, env).effects == Push(saved, CloseBrowser);
  }

  /** `handleMeeting(meeting)` of index.js. */
  method HandleMeeting(m: Meeting, env: Env) returns (run: Run)
    ensures run == Outcome(m, env)
  {
    var effects: Trace := Empty;
    var browser := false;
    var error: Option<string> := None;
    if !HasDateFields(m) {
      error := Some(ERR_MISSING_FIELDS);
    } else if env.launch.Fail? {
      error := Some(env.launch.message);
    } else {
      browser := true;
      if env.page.Fail? {
        error := Some(env.page.message);
      } else if env.inject.Fail? {
        error := Some(env.inject.message);
      } else {
        effects := Then(effects, Navigate(m.meetingUrl));
        var duration := m.endDate.value - m.startDate.value;
        if env.gotoMeeting.Fail? {
          error := Some(env.gotoMeeting.message);
        } else if env.mkdir.Fail? {
          error := Some(env.mkdir.message);
        } else if !env.started {
          error := Some(ERR_START_RECORDING);
        } else if duration <= 0 {
          error := Some(ERR_DURATION);
        } else if RaceWinner(duration) == TimedOut {
          error := Some(ERR_RACE_TIMEOUT);
        } else {
          effects := Then(effects, StopPageRecorder);
          if env.stop.Fail? {
            error := Some(env.stop.message);
          } else if env.audio {
            if env.writeFile.Fail? {
              error := Some(env.writeFile.message);
            } else {
              effects := Then(effects, StoreWrite(Done(m, env.cwd)));
            }
          }
        }
      }
    }
    // catch: every error writes `canceled`, whether or not a browser exists
    if error.Some? {
      effects := Then(effects, StoreWrite(Failed(m, error.value)));
    }
    // finally: the close failure is only logged
    if browser {
      effects := Then(effects, CloseBrowser);
    }
    run := Run(effects, true);
  }

  /** Some chunk of the recording holds data. */
  predicate AnyData(sizes: seq<nat>) {
    exists k :: 0 <= k < |sizes| && sizes[k] > 0
  }

  /** The audio flag matters only once the stop evaluate has resolved. */
  lemma {:induction false} AudioIgnoredUnlessStopped(m: Meeting, env: Env, audio: bool)
    requires !Stopped(m, env)
    ensures Outcome(m, env.(audio := audio)) == Outcome(m, env)
  {
    assert TryOutcome(m, env.(audio := audio)) == TryOutcome(m, env);
  }

  /**
   * `handleMeeting` over the injected recorder as written, on the context
   * the new page gets: the in-page `startRecording` never reports success,
   * so every run that asks it to start is canceled with 'Failed to start recording'.
   */
  method HandleMeetingAsWritten(m: Meeting, env: Env, media: MediaEnv) returns (run: Run)
    ensures AsksToStart(m, env) ==> Writes(run.effects) == [Failed(m, ERR_START_RECORDING)]
    ensures !AsksToStart(m, env) ==> run == Outcome(m, env)
  {
    var context := new RecordingContext();
    var started := env.started;
    if AsksToStart(m, env) {
      started := context.StartRecordingAsWritten(media);
    }
    run := HandleMeeting(m, env.(started := started));
  }

  /**
   * `handleMeeting` over the corrected recorder, on the context the new page
   * gets: the recording starts whenever the browser lets it, hears the
   * `dataavailable` events of `sizes` while the meeting lasts, and delivers
   * `last` when it is stopped. Audio comes back exactly when some chunk holds data.
   */
  method HandleMeetingCorrected(m: Meeting, env: Env, media: MediaEnv, sizes: seq<nat>, last: nat) returns (run: Run)
    ensures AsksToStart(m, env) ==>
              var started := media.userMedia.Ok? && media.construct.Ok? && media.start.Ok?;
              run == Outcome(m, env.(started := started, audio := started && AnyData(sizes + [last])))
    ensures !AsksToStart(m, env) ==> run == Outcome(m, env)
  {
    var context := new RecordingContext();
    var started := env.started;
    var audio := env.audio;
    if AsksToStart(m, env) {
      started := context.StartRecording(media);
      ghost var expected := started && AnyData(sizes + [last]);
      if Stops(m, env.(started := started)) {
        // the recorder runs for the meeting's duration
        var i := 0;
        while i < |sizes|
          invariant 0 <= i <= |sizes|
          invariant context.Valid() && context.recorder == Some(Recorder(true, DATA_EVENT))
          invariant context.audioChunks == Collected(DATA_EVENT, sizes[..i])
        {
          assert sizes[..i + 1][..i] == sizes[..i];
          context.DataAvailable(sizes[i]);
          i := i + 1;
        }
        assert sizes[..|sizes|] == sizes && (sizes + [last])[..|sizes|] == sizes;
        var blob := context.StopRecording(last);
        audio := HasAudio(blob);
        CollectedEmptyIff(DATA_EVENT, sizes + [last]);
        assert audio == expected;
      } else {
        AudioIgnoredUnlessStopped(m, env.(started := started), expected);
      }
      assert env.(started := started).(audio := audio) == env.(started := started, audio := audio);
    }
    run := HandleMeeting(m, env.(started := started, audio := audio));
  }
}
