/**
 * Vocabulary shared by the five meeting-recorder scripts: meeting rows as the
 * store returns them, the outcome of a call into an external collaborator,
 * the status values written back, and the trace of observable effects
 * (store writes and resource actions) that one automation run produces.
 */
module Common {

  datatype Option<T> = None | Some(value: T)

  /** Outcome of one awaited call into a collaborator (browser, page, file system). */
  datatype Step = Ok | Fail(message: string)

  /** Status values the scripts write; `Cancelled` and `Canceled` are different strings. */
  datatype Status = Pending | Ongoing | InProgress | Completed | Cancelled | Canceled

  /** One `update(...).eq('id', id)` issued to the meeting store. */
  datatype Write = Write(
    table: string,
    id: string,
    status: Status,
    errorMessage: Option<string>,
    recordingPath: Option<string>)

  /** Observable effects of a run, in the order they are issued. */
  datatype Effect =
    | StoreWrite(write: Write)
    | Navigate(url: string)      // page.goto on the meeting URL
    | CloseBrowser               // browser.close() attempted
    | KillBrowser                // process.kill after a failed close
    | StopPageRecorder           // page.evaluate stopping window.meetingRecorder
    | DestroyStream              // stream.destroy() attempted
    | EndFile                    // recordingFile.end() attempted
    | CloseFile                  // file.close() attempted
    | StartKeepAlive             // setInterval keep-alive armed
    | StopKeepAlive              // clearInterval on the keep-alive
    | ArmDeferredCleanup         // setTimeout(cleanup, 10 s) armed in `finally`

  /** Effects in the order they are issued: `Then(t, e)` is `t` followed by `e`. */
  datatype Trace = Empty | Then(before: Trace, last: Effect)

  /**
   * The effects of one `handleMeeting` call; `finished` is false when the
   * run is still suspended in a wait when the modelled clock runs out.
   */
  datatype Run = Run(effects: Trace, finished: bool)

  /**
   * A meeting row. Missing or falsy columns are `None` or the empty string.
   * index.js reads the `start_date`/`end_date` columns, the other scripts
   * `start_time`/`end_time`; times are milliseconds.
   */
  datatype Meeting = Meeting(
    id: string,
    meetingUrl: string,
    startTime: Option<int>,
    endTime: Option<int>,
    startDate: Option<int>,
    endDate: Option<int>)

  /** Which of the five scripts is being modelled. */
  datatype Variant = MultiRecord | IndexOld | Index1 | PupStream | IndexJs

  const ERR_MISSING_FIELDS := "Invalid meeting object: missing required fields"
  const ERR_DURATION := "Invalid meeting duration: end date must be after start date"
  const ERR_NO_PERMISSION := "Account does not have permission to join meetings"
  const ERR_JOIN_NOT_FOUND_ALL := "Join button not found after checking all possible selectors"
  const ERR_NO_POSITION := "Could not get button position"
  const ERR_START_RECORDING := "Failed to start recording"
  const ERR_RACE_TIMEOUT := "Meeting duration timeout exceeded"
  const ERR_NO_RECORDING_FN := "Could not find recording function in the browser context"
  const ERR_NO_AUDIO_VIDEO := "At least audio or video must be true"

  /** The `!meeting?.id || ... || !meeting?.end_time` guard, negated. */
  predicate HasTimeFields(m: Meeting) {
    m.id != "" && m.meetingUrl != "" && m.startTime.Some? && m.endTime.Some?
  }

  /** The store table each script talks to. */
  function Table(v: Variant): string {
    if v == IndexJs then "meetings" else "meeting"
  }

  /** The status written when a scheduled job fires. */
  function FireStatus(v: Variant): Status {
    if v == IndexJs then InProgress else Ongoing
  }

  /** The column a script reads as the meeting's start. */
  function StartOf(v: Variant, m: Meeting): Option<int> {
    if v == IndexJs then m.startDate else m.startTime
  }

  /** `s` ends with `suffix`. */
  predicate EndsWith(s: seq<Effect>, suffix: seq<Effect>) {
    |suffix| <= |s| && s[|s| - |suffix|..] == suffix
  }

  /** The effects of a trace, oldest first. */
  function Effects(t: Trace): seq<Effect> {
    match t
    case Empty => []
    case Then(before, e) => Effects(before) + [e]
  }

  /** The store writes in a trace, in order. */
  function Writes(t: Trace): seq<Write> {
    match t
    case Empty => []
    case Then(before, e) => Writes(before) + (if e.StoreWrite? then [e.write] else [])
  }

  /** How many times an effect occurs in a trace. */
  function Count(t: Trace, e: Effect): nat {
    match t
    case Empty => 0
    case Then(before, x) => Count(before, e) + (if x == e then 1 else 0)
  }

  /** Appends one effect to a trace, carrying its writes and counts along. */
  function Push(t: Trace, x: Effect): (r: Trace)
    ensures r == Then(t, x)
    ensures Effects(r) == Effects(t) + [x]
    ensures Writes(r) == Writes(t) + (if x.StoreWrite? then [x.write] else [])
    ensures forall e :: Count(r, e) == Count(t, e) + (if x == e then 1 else 0)
  {
    Then(t, x)
  }
}
