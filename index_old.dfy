/**
 * index-old.js `handleMeeting`: validation, launch, sign-in, the retried
 * pre-join wait, the prioritised join-button lookup and the fixed wait for
 * the meeting duration. The launched browser is bound to a block-local
 * `const browser`, so the `browser` the `finally` block tests is never set.
 */
module IndexOldExecutor {
  import opened Common
  import opened Retry

  /** The five join-button selectors, in the order they are tried. */
  const JOIN_SELECTORS: seq<string> := [
    "[jsname=\"Cuz2Ue\"]",
    "button[jsname=\"A5il2e\"]",
    "button[jsname=\"QgSmzd\"]",
    "button:has-text(\"Join now\")",
    "button:has-text(\"Ask to join\")"
  ]

  /** What `page.$(selector)` settles to. */
  datatype Lookup = Match | NoMatch | Throws(message: string)

  /** The page as a table from selector to lookup result; an absent selector finds nothing. */
  type PageQuery = map<string, Lookup>

  function LookupOf(page: PageQuery, selector: string): Lookup {
    if selector in page then page[selector] else NoMatch
  }

  /** How `findJoinButton()` settles. */
  datatype JoinSearch =
    | JoinAt(index: nat)       // resolved with the element of `JOIN_SELECTORS[index]`
    | NoJoinButton             // resolved with `null`
    | LookupThrew(message: string)  // a `page.$` call rejected

  /** The selectors before `k` match nothing. */
  predicate NoneBefore(page: PageQuery, k: nat)
    requires k <= |JOIN_SELECTORS|
  {
    forall j :: 0 <= j < k ==> LookupOf(page, JOIN_SELECTORS[j]) == NoMatch
  }

  /** The result of trying the selectors from position `k` on. */
  function SearchFrom(page: PageQuery, k: nat): JoinSearch
    requires k <= |JOIN_SELECTORS|
    decreases |JOIN_SELECTORS| - k
  {
    if k == |JOIN_SELECTORS| then NoJoinButton
    else match LookupOf(page, JOIN_SELECTORS[k])
      case Match => JoinAt(k)
      case Throws(message) => LookupThrew(message)
      case NoMatch => SearchFrom(page, k + 1)
  }

  /**
   * The search settles at the first selector whose lookup does not come back
   * empty: an element there is returned, an error there is propagated, and
   * null is returned only when all five come back empty.
   */
  lemma {:induction false} SearchFromFirst(page: PageQuery, k: nat)
    requires k <= |JOIN_SELECTORS|
    ensures var r := SearchFrom(page, k);
      && (r.JoinAt? ==> k <= r.index < |JOIN_SELECTORS| && LookupOf(page, JOIN_SELECTORS[r.index]) == Match
                          && forall j :: k <= j < r.index ==> LookupOf(page, JOIN_SELECTORS[j]) == NoMatch)
      && (r.NoJoinButton? <==> forall j :: k <= j < |JOIN_SELECTORS| ==> LookupOf(page, JOIN_SELECTORS[j]) == NoMatch)
      && (r.LookupThrew? ==>
            exists i :: (k <= i < |JOIN_SELECTORS| && LookupOf(page, JOIN_SELECTORS[i]) == Throws(r.message)
                         && forall j :: k <= j < i ==> LookupOf(page, JOIN_SELECTORS[j]) == NoMatch))
    decreases |JOIN_SELECTORS| - k
  {
    if k < |JOIN_SELECTORS| {
      SearchFromFirst(page, k + 1);
      if LookupOf(page, JOIN_SELECTORS[k]).NoMatch? {
        var r := SearchFrom(page, k + 1);
        if r.LookupThrew? {
          var i :| k + 1 <= i < |JOIN_SELECTORS| && LookupOf(page, JOIN_SELECTORS[i]) == Throws(r.message)
                   && forall j :: k + 1 <= j < i ==> LookupOf(page, JOIN_SELECTORS[j]) == NoMatch;
          assert forall j :: k <= j < i ==> LookupOf(page, JOIN_SELECTORS[j]) == NoMatch;
        }
      }
    }
  }

  /** An element is returned for a selector exactly when it matches and every earlier one is empty. */
  lemma {:induction false} JoinAtIff(page: PageQuery, i: nat)
    requires i < |JOIN_SELECTORS|
    ensures SearchFrom(page, 0) == JoinAt(i) <==>
              LookupOf(page, JOIN_SELECTORS[i]) == Match && NoneBefore(page, i)
  {
    SearchFromFirst(page, 0);
  }

  /** A page on which the first selector matches returns that element, whatever the others say. */
  lemma {:induction false} FirstSelectorWins(page: PageQuery)
    requires LookupOf(page, JOIN_SELECTORS[0]) == Match
    ensures SearchFrom(page, 0) == JoinAt(0)
  {
    JoinAtIff(page, 0);
  }

  /** `findJoinButton`: the `for (const selector of selectors)` loop. */
  method FindJoinButton(page: PageQuery) returns (r: JoinSearch)
    ensures r == SearchFrom(page, 0)
  {
    var k := 0;
    while k < |JOIN_SELECTORS|
      invariant 0 <= k <= |JOIN_SELECTORS|
      invariant SearchFrom(page, k) == SearchFrom(page, 0)
    {
      var button := LookupOf(page, JOIN_SELECTORS[k]);
      match button
      case Match =>
        return JoinAt(k);
      case Throws(message) =>
        return LookupThrew(message);
      case NoMatch =>
      k := k + 1;
    }
    r := NoJoinButton;
  }

  /** Outcomes of the external calls of one run, in the order they are made. */
  datatype Env = Env(
    prepare: Step,           // recordings directory, removal and re-creation of the profile directory
    launch: Step,            // puppeteer.launch, bound to the block-local `browser`
    pages: Step,             // closing the initial pages, newPage, setUserAgent
    login: Step,             // the Google sign-in block, rethrown on failure
    gotoMeeting: Step,       // page.goto(meeting.meeting_url)
    permissionDenied: bool,  // the "You can't create a meeting yourself" element is present
    preJoin: seq<Step>,      // successive waitForSelector attempts for 'div[jscontroller]'
    nameInput: Step,         // looking up and filling the name input
    mediaButtons: Step,      // page.$$('[role="button"]') and reading each aria-label
    joinPage: PageQuery,     // what each join-button selector finds
    joinClick: Step)         // joinButton.click()

  /** The completed write of this script. */
  function Done(m: Meeting): Write {
    Write("meeting", m.id, Completed, None, None)
  }

  /** The cancelled write of this script. */
  function Failed(m: Meeting, message: string): Write {
    Write("meeting", m.id, Cancelled, Some(message), None)
  }

  /** Every step before the join-button lookup succeeds. */
  predicate ReachesLookup(m: Meeting, env: Env)
    requires MaxAttempts(None) <= |env.preJoin|
  {
    && HasTimeFields(m) && env.prepare.Ok? && env.launch.Ok? && env.pages.Ok? && env.login.Ok?
    && env.gotoMeeting.Ok? && !env.permissionDenied
    && (exists j :: 0 <= j < MaxAttempts(None) && env.preJoin[j].Ok?)
    && env.nameInput.Ok? && env.mediaButtons.Ok?
  }

  /** Every step of the try block up to the duration check succeeds. */
  predicate ReachesDuration(m: Meeting, env: Env)
    requires MaxAttempts(None) <= |env.preJoin|
  {
    ReachesLookup(m, env) && SearchFrom(env.joinPage, 0).JoinAt? && env.joinClick.Ok?
  }

  /** The run that ends in the completed write. */
  predicate Succeeds(m: Meeting, env: Env)
    requires MaxAttempts(None) <= |env.preJoin|
  {
    ReachesDuration(m, env) && m.endTime.value - m.startTime.value > 0
  }

  /** The meeting URL is opened. */
  predicate Navigates(m: Meeting, env: Env) {
    HasTimeFields(m) && env.prepare.Ok? && env.launch.Ok? && env.pages.Ok? && env.login.Ok?
  }

  /** The error the try block raises, or `None` when it reaches the completed write. */
  function Raised(m: Meeting, env: Env): (error: Option<string>)
    requires MaxAttempts(None) <= |env.preJoin|
    ensures error.None? <==> Succeeds(m, env)
    // missing fields raise before any browser work
    ensures !HasTimeFields(m) ==> error == Some(ERR_MISSING_FIELDS)
    // when every pre-join wait fails, only the fifth attempt's error propagates
    ensures Navigates(m, env) && env.gotoMeeting.Ok? && !env.permissionDenied &&
            FailedBefore(env.preJoin, MaxAttempts(None)) ==>
              error == Some(env.preJoin[MaxAttempts(None) - 1].message)
    // a null join button raises its own message
    ensures ReachesLookup(m, env) && SearchFrom(env.joinPage, 0).NoJoinButton? ==>
              error == Some(ERR_JOIN_NOT_FOUND_ALL)
    // a non-positive duration raises once the join button was clicked
    ensures ReachesDuration(m, env) && m.endTime.value - m.startTime.value <= 0 ==>
              error == Some(ERR_DURATION)
  {
    if !HasTimeFields(m) then Some(ERR_MISSING_FIELDS)
    else if env.prepare.Fail? then Some(env.prepare.message)
    else if env.launch.Fail? then Some(env.launch.message)
    else if env.pages.Fail? then Some(env.pages.message)
    else if env.login.Fail? then Some(env.login.message)
    else if env.gotoMeeting.Fail? then Some(env.gotoMeeting.message)
    else if env.permissionDenied then Some(ERR_NO_PERMISSION)
    else if !exists j :: 0 <= j < MaxAttempts(None) && env.preJoin[j].Ok? then
      Some(env.preJoin[MaxAttempts(None) - 1].message)
    else if env.nameInput.Fail? then Some(env.nameInput.message)
    else if env.mediaButtons.Fail? then Some(env.mediaButtons.message)
    else match SearchFrom(env.joinPage, 0)
      case LookupThrew(message) => Some(message)
      case NoJoinButton => Some(ERR_JOIN_NOT_FOUND_ALL)
      case JoinAt(_) =>
        if env.joinClick.Fail? then Some(env.joinClick.message)
        else if m.endTime.value - m.startTime.value <= 0 then Some(ERR_DURATION)
        else None
  }

  /**
   * The run `handleMeeting` makes: the meeting URL is opened once signed in,
   * and the catch block writes cancelled for whatever the try block raised.
   */
  function Outcome(m: Meeting, env: Env): (run: Run)
    requires MaxAttempts(None) <= |env.preJoin|
    // no run stays suspended: the duration wait is a plain timer
    ensures run.finished
    // exactly one status write on every path, and no gating: completed, or cancelled with the error
    ensures Writes(run.effects) == [if Succeeds(m, env) then Done(m) else Failed(m, Raised(m, env).value)]
    // the shadowed `browser` is never closed or killed
    ensures Count(run.effects, CloseBrowser) == 0 && Count(run.effects, KillBrowser) == 0
    // missing fields raise before any browser work
    ensures !HasTimeFields(m) ==> Effects(run.effects) == [StoreWrite(Failed(m, ERR_MISSING_FIELDS))]
  {
    var error := Raised(m, env);
    var signedIn := if Navigates(m, env) then Push(Empty, Navigate(m.meetingUrl)) else Empty;
    Run(Push(signedIn, StoreWrite(if error.None? then Done(m) else Failed(m, error.value))), true)
  }

  /** `handleMeeting(meeting)` of index-old.js. */
  method HandleMeeting(m: Meeting, env: Env) returns (run: Run)
    requires MaxAttempts(None) <= |env.preJoin|
    ensures run == Outcome(m, env)
  {
    var effects: Trace := Empty;
    var error: Option<string> := None;
    if !HasTimeFields(m) {
      error := Some(ERR_MISSING_FIELDS);
    } else if env.prepare.Fail? {
      error := Some(env.prepare.message);
    } else if env.launch.Fail? {
      error := Some(env.launch.message);
    } else if env.pages.Fail? {
      error := Some(env.pages.message);
    } else if env.login.Fail? {
      error := Some(env.login.message);
    } else {
      effects := Then(effects, Navigate(m.meetingUrl));
      if env.gotoMeeting.Fail? {
        error := Some(env.gotoMeeting.message);
      } else if env.permissionDenied {
        error := Some(ERR_NO_PERMISSION);
      } else {
        var wait := WaitForSelectorWithRetry(env.preJoin, None);
        if wait.Rejected? {
          error := Some(wait.message);
        } else if env.nameInput.Fail? {
          error := Some(env.nameInput.message);
        } else if env.mediaButtons.Fail? {
          // the camera/microphone block before it swallows its own errors
          error := Some(env.mediaButtons.message);
        } else {
          var search := FindJoinButton(env.joinPage);
          if search.LookupThrew? {
            error := Some(search.message);
          } else if search.NoJoinButton? {
            error := Some(ERR_JOIN_NOT_FOUND_ALL);
          } else if env.joinClick.Fail? {
            error := Some(env.joinClick.message);
          } else if m.endTime.value - m.startTime.value <= 0 {
            error := Some(ERR_DURATION);
          } else {
            // the wait for the meeting duration is a plain timer
            effects := Then(effects, StoreWrite(Done(m)));
          }
        }
      }
    }
    // catch: the cancelled write is not gated on anything
    if error.Some? {
      effects := Then(effects, StoreWrite(Failed(m, error.value)));
    }
    // finally: the outer `browser` is still null, so nothing is closed
    run := Run(effects, true);
  }
}
