# Meeting recorder orchestration

The repository holds five Node scripts that drive a headless browser into a
video meeting, record it and write the outcome back to a meeting table:
`multi_record.js`, `index-old.js`, `index1.js`, `index-pupStream.js` and
`index.js`. They share one skeleton and differ in its details:

- `scheduleMeeting` arms a one-off job at the meeting's start. It skips a start that is not in the future.
- `monitorMeetings` runs a reconciler tick every minute over the `activeJobs` map, and returns a shutdown closure.
- A job that fires writes the "running" status, then calls `handleMeeting`.
- `handleMeeting` walks validation, launch, sign-in, join, recording and the wait for the meeting's end. It then writes `completed` or a cancellation, and releases what it holds in `catch`/`finally`.

This project models that skeleton in Dafny and proves what each script's
control flow does on every combination of outcomes of its external calls.

- **Collaborators.** Every awaited call into the browser, the page, the file system or the store is a `Step` (`Ok` or `Fail(message)`). One run's steps are gathered in a per-script `Env`. A page query the script branches on is a boolean or a small table.
- **Runs.** A `handleMeeting` call produces a `Run`: a `Trace` of observable effects (store writes, navigation, browser close/kill, stream destroy, file end/close, keep-alive timer, deferred cleanup), plus whether the run finished.
- **Per-script shape.** Each script's try block is a function `TryOutcome` to the locals it leaves (`browser`, `page`, `stream`, file, error). `Settled` is its catch/finally, and `Outcome` is the whole run. `HandleMeeting` is the same control flow as a method, and is proved equal to `Outcome`.
- **Reconciler.** The `activeJobs` map and the jobs it hands out are a class `Scheduler.Monitor`. Its methods follow the two loops of a tick and the shutdown closure. Each is proved against the functions `TickResult`, `Prune` and `CancelAll`. Two invariants are proved about those: `Consistent` (every key maps to a live job of that meeting) and `NoOrphans` (every live job is the job of some key). Together they give at most one live job per meeting id.
- **Helpers.** The bounded retry loops are `while` loops proved against recursive functions: `waitForSelectorWithRetry`, `assertExtensionLoaded`, the ordered join-button lookup of index-old.js, the end-time polling loop of multi_record.js and `addToArgs`. So are the `getStream` defaults and its module-level `currentIndex` counter, and index.js's in-page recorder.

Variant differences the model keeps:

| | index.js | the other four |
|---|---|---|
| table | `meetings` | `meeting` |
| start column | `start_date` | `start_time` |
| status when a job fires | `in_progress` | `ongoing` |
| cancellation status | `canceled` | `cancelled` |

Node's timers run a delay outside 1 to 2147483647 ms after 1 ms.
index.js races `setTimeout(resolve, d)` against `setTimeout(reject, d + 5000)`, so the rejecting timer wins exactly when `2147478647 < d <= 2147483647`. Everywhere else the resolving timer, which is set first, wins; that holds for every longer duration too. `Timers.RaceWinner` states this window and the index.js model follows it.

The scripts' behaviour differs from a reading of their comments in these places, and the model follows the code:

- **index-old.js.** Its `const browser` at line 153 shadows the outer `browser`, so `finally` never closes it. Every error writes `cancelled` without any gate (`IndexOldExecutor.Outcome`).
- **multi_record.js.** Its `catch` evaluates in the page before closing. If that evaluate rejects, the cancelled write is skipped (`MultiRecordExecutor.RethrowSkipsWrite`). A launched browser is closed twice, in `catch` and again in `finally`, and each close can fail on its own and fall back to killing the process (`MultiRecordExecutor.OutcomeKills`).
- **multi_record.js, lines 419-463.** The recorder is started by a `page.evaluate` nested inside the callback exposed as `sendRecording`. Only the recorder's own `onstop` handler calls that callback, so no recorder is ever started, no audio file is written, and the run still writes `completed`. The model therefore has no recording effect for this script.
- **index1.js.** It clears its keep-alive interval only on the success path (`Index1Executor.KeepAliveLeak`). `getStream` takes a stream index even when the stream then fails.
- **index-pupStream.js.** It swallows sign-in failures (`PupStreamExecutor.LoginIgnored`). On every failed run its deferred cleanup throws at once on the null `stream`, so the recording file is never closed and the timer callback's promise rejects with nothing to catch it (`PupStreamExecutor.FailedRunLeaksFile`). It never creates its recordings directory (only the profile directory, lines 67-70). When `recordings/` is missing, opening the file fails during the three-second sleep, before anything listens for the stream's 'error' event, and the uncaught exception ends the process with no write and no cleanup (`PupStreamExecutor.MissingDirectoryExits`).

A start at or before the current time is skipped by the guard in `scheduleMeeting`, and a null start column becomes the epoch, which the guard skips too (`Scheduler.Arm`). The pending-meetings query keeps only rows whose start is at or after the current time, so rows with a null start never reach `scheduleMeeting`.

## Model

| member | source | states |
|---|---|---|
| Retry.WaitForSelectorWithRetry | index-old.js:48-64 | up to `retries \|\| 5` attempts; the first successful attempt is returned and every earlier one failed; when all fail, only the last attempt's error is rethrown; a non-positive count makes no attempt and yields undefined; any success within the bound is found |
| Retry.LoadCheckFirst | index1.js:113-127 | the extension check settles at the first probe that is not a miss (found, or that probe's error); it reports not-loaded only after `times` misses; a found function within the bound is always reported |
| Retry.LoadErrorIsFirstFailure | index1.js:116-124 | a probe that throws before any success makes its error the error of the whole check |
| Retry.AssertExtensionLoaded | index1.js:113-127 | the loop settles as the recursive check, and waits `each^0, each^1, ...` once after every miss |
| Launch.AddWithoutValueIdempotent | index1.js:74-78 | without a value, `arg` is pushed only when it is not already an element, so it is present afterwards and repeating the call changes nothing |
| Launch.AddWithValue | index1.js:79-87 | with a value, every element containing `arg` gets `,value` appended, the others are unchanged, and `arg + value` is pushed only when nothing matched |
| Launch.AddedArgsExtends | index1.js:74-88 | `addToArgs` never drops or shortens an element: the old list is an element-wise prefix of the new one |
| Launch.AddedArgsContains | index1.js:74-88 | after `addToArgs(arg, value)` some element contains `arg` |
| Launch.AddedArgsKeeps | index1.js:74-88 | a later `addToArgs` keeps every substring an earlier call established |
| Launch.LaunchAddsFlags | index1.js:90-93 | whatever the caller passed, the launch arguments carry the load-extension, disable-other-extensions and allowlist flags and the autoplay flag, and keep every caller argument as a prefix |
| Launch.LaunchOptions.AddToArgs | index1.js:74-88 | the in-place `map`/`push` loop leaves `opts.args` equal to the function `AddedArgs` and leaves `headless` alone |
| Launch.LaunchOptions.PrepareLaunch | index1.js:71-95 | a missing `args` becomes `[]`, the four `addToArgs` calls give `LaunchArgs`, the launch flags are present, and `headless` is forced to false |
| Stream.Normalise | index1.js:132-140 | throws exactly when neither audio nor video is requested; otherwise fills a missing MIME type (`video/webm` when video is requested, else `audio/webm`) and a falsy frame size (20), keeping every given value |
| Stream.NormaliseIdempotent | index1.js:132-140 | defaulting normalised options changes nothing |
| Stream.RetryPolicyFor | index1.js:141 | `{ each: 20, times: 3, ...opts.retry }`: a present override key wins, an absent one keeps its default |
| Stream.StreamOutcome | index1.js:131-167 | resolves exactly when every step succeeds and the extension check finds the function, on port `55200 + index`; before an index is taken it fails without a socket, after that it fails leaking the socket on that port; every missed probe fails with the not-found message |
| Stream.StreamAllocator.GetStream | index1.js:130-167 | settles as `StreamOutcome` for the current `currentIndex`; increments the counter exactly when the call gets past the media and extension-page checks; issued indices stay strictly increasing and below the counter |
| MultiRecordExecutor.WaitUntil | multi_record.js:465-467 | the polling loop ends exactly when some clock reading reaches the end time, at the first such reading; a false result means every reading was earlier |
| MultiRecordExecutor.TryOutcome | multi_record.js:136-487 | the try block sets `browser`/`page` as the launch and `pages()` succeed; it stays suspended exactly when it waits and no reading reaches the end; it fails exactly when some step fails; `completed` is written only on success; missing fields raise before anything happens |
| MultiRecordExecutor.Close | multi_record.js:500-508 | a close attempt is followed by a kill exactly when it rejects; no write |
| MultiRecordExecutor.Caught | multi_record.js:488-518 | the cancelled write and the close happen exactly when `browser` is set and the page evaluate issued first (when `page` is set) resolves; that close kills the process exactly when it rejects |
| MultiRecordExecutor.Settled | multi_record.js:488-530 | catch plus `finally`: a launched browser is closed once more; writes as `Caught`; each of the two closes falls back to one kill on its own rejection |
| MultiRecordExecutor.Outcome | multi_record.js:78-530 | the run stays unfinished only while waiting for the end time; missing fields write nothing and touch nothing; the catch close and the `finally` close each have their own outcome |
| MultiRecordExecutor.OutcomeWrites | multi_record.js:480-518 | `completed` exactly on the fully successful run; cancelled with the try block's error exactly when the finished run reaches the gated write; nothing otherwise |
| MultiRecordExecutor.SingleWrite | multi_record.js:480-518 | at most one status write, and the cancelled one only for a launched browser |
| MultiRecordExecutor.CompletedIff | multi_record.js:465-486 | `completed` is written if and only if every step succeeds, and only after a clock reading reached the end time |
| MultiRecordExecutor.GatedFailureWritten | multi_record.js:488-530 | a failure after launch whose catch-block evaluate does not reject writes cancelled with its error and closes the browser twice |
| MultiRecordExecutor.RethrowSkipsWrite | multi_record.js:491-497 | a rejecting catch-block evaluate skips the cancelled write and the first close; only `finally` closes |
| MultiRecordExecutor.DurationRaises | multi_record.js:407-412 | a non-positive duration cancels with the duration message |
| MultiRecordExecutor.OutcomeCloses | multi_record.js:499-530 | every finished run with a launched browser closes it; a run that never launched closes nothing and writes nothing |
| MultiRecordExecutor.OutcomeKills | multi_record.js:499-530 | a finished run kills the browser process once for each close that rejects: the `finally` close of a launched browser, and the catch close when that close is reached |
| MultiRecordExecutor.HandleMeeting | multi_record.js:78-530 | the method's effects and suspension are exactly `Outcome` |
| IndexOldExecutor.SearchFromFirst | index-old.js:308-325 | the join search settles at the first selector whose lookup is not empty: its element, or its error; null only when all remaining selectors are empty |
| IndexOldExecutor.JoinAtIff | index-old.js:308-325 | selector `i` is returned if and only if it matches and every earlier selector is empty |
| IndexOldExecutor.FirstSelectorWins | index-old.js:309-311 | a match on the first selector wins whatever the others find |
| IndexOldExecutor.FindJoinButton | index-old.js:308-325 | the `for` loop returns what the recursive `SearchFrom` gives |
| IndexOldExecutor.Raised | index-old.js:128-364 | no error exactly on the successful run; missing fields, five failed pre-join waits (only the fifth error propagates), a null join button and a non-positive duration each raise their own message |
| IndexOldExecutor.Outcome | index-old.js:67-393 | always finished; exactly one write on every path (completed, or cancelled with the raised error, ungated); the shadowed browser is never closed or killed; missing fields write only the cancellation |
| IndexOldExecutor.HandleMeeting | index-old.js:67-393 | the method's run is exactly `Outcome` |
| Index1Executor.RecordingOptionsNormal | index1.js:311-321 | the options handed to `getStream` are already normalised and retry five times with base 20 |
| Index1Executor.StreamOf | index1.js:311-321 | the stream resolves exactly when `getStream`'s steps all succeed |
| Index1Executor.TryOutcome | index1.js:190-350 | `browser`, `recordingFile` and `stream` are set as their steps succeed; no error exactly on the completing run; a failing stream propagates its message; completed with the path only on success, after the keep-alive is cleared, the stream destroyed and the file ended |
| Index1Executor.TryBrowserCounts | index1.js:190-350 | the try block never closes or kills the browser |
| Index1Executor.TryKeepAliveCounts | index1.js:250-332 | the interval is armed once the meeting page loaded and cleared only once recording started |
| Index1Executor.TryReleaseCounts | index1.js:332-340 | on the success path the stream is destroyed once it is set and the file ended only after the destroy succeeds |
| Index1Executor.Caught | index1.js:352-377 | each held resource released once in its own try, then the cancelled write, unconditionally |
| Index1Executor.Settled | index1.js:352-387 | catch plus `finally`: one close exactly for a launched browser, never a kill, the keep-alive untouched |
| Index1Executor.Executed | index1.js:184-388 | always finished; completed with the path on the completing run, otherwise cancelled with the raised error |
| Index1Executor.BrowserClosedOnce | index1.js:379-387 | the browser is closed exactly once when launched and never killed |
| Index1Executor.KeepAliveLeak | index1.js:250-332 | the keep-alive is cleared only when recording started, so a failure between the meeting page and the stream leaves it running |
| Index1Executor.ReleasesOnce | index1.js:332-369 | a created file is ended exactly once; a stream is destroyed once, or twice when the success-path destroy rejects |
| Index1Executor.Outcome | index1.js:184-388 | always finished; completed with the path exactly when every step succeeds, otherwise cancelled |
| Index1Executor.StreamBridge | index1.js:311-350 | the stream is set, and the run completes, exactly when every script step succeeds |
| Index1Executor.SuccessTrace | index1.js:246-387 | the success trace in order: navigate, start keep-alive, clear it, destroy, end file, completed, close |
| Index1Executor.SettledOrder | index1.js:352-387 | after a failure, the due releases, the cancelled write and the close are appended in that order |
| Index1Executor.FailureOrder | index1.js:352-387 | a failure in the meeting ends the run with the stream release (if held), the file end, the cancelled write and the close |
| Index1Executor.NoRecordingFunctionWritten | index1.js:113-127 | five missed probes cancel the run with the not-found message |
| Index1Executor.HandleMeeting | index1.js:184-388 | the run is exactly `Outcome` for the counter's value on entry; the counter advances exactly when the extension page was found |
| PupStreamExecutor.TryOutcome | index-pupStream.js:65-286 | `browser`, `file` and `stream` are set as their steps succeed; no error exactly on success or on the process exit a missing recordings directory causes; a missing join button raises the TypeError of calling `boundingBox` on the null handle, and a missing bounding box raises its own message; effects are the navigation (once the page exists) and the completed write on success |
| PupStreamExecutor.Settled | index-pupStream.js:287-311 | cancelled is written, after a close (and a kill when it rejects), exactly when there is an error and a browser; the deferred cleanup is armed last on every path |
| PupStreamExecutor.Outcome | index-pupStream.js:59-318 | finished exactly unless the process exits; completed on success, cancelled only with a launched browser on a surviving failure, nothing otherwise; one close exactly on such a failure, a kill when that close rejects; one deferred cleanup, armed last, on every surviving path and none after an exit |
| PupStreamExecutor.Deferred | index-pupStream.js:311-316 | the timer's cleanup writes nothing, does nothing without a stream, closes the file only when every handle is set and each earlier call resolves, and its promise rejects exactly when it does not get that far |
| PupStreamExecutor.Lifecycle | index-pupStream.js:59-318 | the deferred cleanup adds no write to the run, and an exited process adds no cleanup |
| PupStreamExecutor.LoginIgnored | index-pupStream.js:122-186 | the sign-in outcome changes neither the run nor its cleanup |
| PupStreamExecutor.NavigatesWithLanguage | index-pupStream.js:189 | the meeting page is requested with `?hl=en` appended |
| PupStreamExecutor.FailedRunLeaksFile | index-pupStream.js:255-316 | on every failed run the deferred cleanup releases nothing and the file is never closed; the callback rejects at `stream.destroy()` on the null stream exactly when the process survived |
| PupStreamExecutor.DeferredReleasesAll | index-pupStream.js:311-316 | with every handle set and every call resolving, the cleanup destroys the stream, closes the browser and closes the file, in order, and does not reject |
| PupStreamExecutor.SuccessRun | index-pupStream.js:189-316 | a successful run navigates, writes completed and arms the cleanup, and nothing else |
| PupStreamExecutor.SettledOrder | index-pupStream.js:287-311 | after a failure with a browser: close, kill if the close rejects, cancelled, cleanup armed |
| PupStreamExecutor.CatchOrder | index-pupStream.js:287-311 | a failure after launch that the process survives ends the run with close, optional kill, cancelled write and cleanup, in order |
| PupStreamExecutor.SuccessCleanup | index-pupStream.js:255-316 | a successful run with resolving cleanup calls releases stream, browser and file after the completed write, and its cleanup does not reject |
| PupStreamExecutor.DestroyFailureStopsCleanup | index-pupStream.js:311-316 | a rejected deferred destroy leaves the browser and the file unreleased, and the callback rejects |
| PupStreamExecutor.MissingDirectoryExits | index-pupStream.js:255-258 | without the recordings directory the run stops unfinished after the navigation: no write, no release, no cleanup |
| PupStreamExecutor.JoinNotFoundUnreachable | index-pupStream.js:196-217 | as written, 'Join button not found' is never raised; a missing button raises the `boundingBox` TypeError |
| PupStreamExecutor.JoinCheckCorrectedSpec | index-pupStream.js:196-217 | with the handle's element tested, a missing button raises 'Join button not found', and found buttons behave as written |
| PupStreamExecutor.DeferredCorrected | index-pupStream.js:311-316 | the guarded cleanup writes nothing, never rejects, closes the file whenever one was opened and destroys the stream whenever one was set |
| PupStreamExecutor.StreamFailureCleanup | index-pupStream.js:255-316 | after a rejected `getStream` the cleanup as written leaves the file open and rejects; corrected it closes the file and settles |
| PupStreamExecutor.HandleMeeting | index-pupStream.js:59-318 | the method's run is exactly `Outcome` |
| Timers.EffectiveDelay | index.js:146-149 | delays in 1 to 2147483647 are honoured, every other delay becomes 1 |
| Timers.RaceWinner | index.js:145-150 | for a positive duration the timeout wins if and only if the duration lies in the last 5000 ms below 2147483647 |
| Timers.ElapsedBelowWindow | index.js:145-150 | below the window the plain timer wins |
| Timers.ElapsedAboveLimit | index.js:145-150 | above the limit both delays collapse to 1 ms and the plain timer, set first, still wins |
| Timers.TimedOutAtLimit | index.js:145-150 | at 2147483647 ms the duration is honoured, the timeout collapses to 1 ms and wins |
| InPage.Keep | index.js:87-91 | the listener keeps exactly the non-empty chunks it hears, appended at the end |
| InPage.CollectedPositive | index.js:88-90 | every collected chunk holds data |
| InPage.CollectedEmptyIff | index.js:87-91 | nothing is collected if and only if the listener waits for another event name than `dataavailable` or every chunk is empty |
| InPage.RecordingContext.StartRecordingWith | index.js:69-104 | resolves true exactly when the media, the recorder, the listener registration and `start` all succeed; the recorder is stored only then; chunks untouched |
| InPage.RecordingContext.StartRecordingAsWritten | index.js:69-104 | with the listener registered as written, it always resolves false and stores nothing |
| InPage.RecordingContext.StartRecording | index.js:69-104 | with `addEventListener('dataavailable', ...)`, it resolves true exactly when the browser steps succeed, and then listens for chunks |
| InPage.RecordingContext.DataAvailable | index.js:88-90 | a chunk is kept exactly when the stored recorder is listening and the chunk is non-empty; only data-holding chunks are ever kept |
| InPage.RecordingContext.StopRecording | index.js:106-122 | an active recorder yields its chunks plus the last one, resets them and becomes inactive; otherwise null and nothing changes |
| IndexJsExecutor.TryOutcome | index.js:35-176 | no error exactly when the run stops a recording and saves any audio; missing date columns raise first, before any effect; a recorder that does not start raises before the duration check; a non-positive duration and a won timeout raise their own messages; the recorder is stopped exactly when the plain timer wins |
| IndexJsExecutor.Settled | index.js:177-192 | every error writes `canceled`, with or without a browser; `finally` closes a launched browser |
| IndexJsExecutor.Outcome | index.js:26-193 | always finished; completed with the recording path under the working directory when audio was saved, no write when no audio came back, `canceled` otherwise; one close exactly when launched |
| IndexJsExecutor.MissingFieldsCanceled | index.js:37-39 | missing date columns produce the cancellation write alone |
| IndexJsExecutor.TimeColumnsIgnored | index.js:37-140 | the `start_time`/`end_time` columns play no part in the run |
| IndexJsExecutor.StartFailureCanceled | index.js:134-137 | a recorder that does not start cancels with its message and is never stopped |
| IndexJsExecutor.NoTimeoutBelowWindow | index.js:145-152 | a positive duration up to 2147478647 ms always reaches the stop |
| IndexJsExecutor.TimeoutInWindow | index.js:145-150 | a duration in the window cancels with the timeout message |
| IndexJsExecutor.NoAudioNoWrite | index.js:163-175 | a resolved stop without audio writes no status and still closes the browser |
| IndexJsExecutor.SettledOrder | index.js:177-192 | after an error with a browser, the `canceled` write precedes the close |
| IndexJsExecutor.CanceledBeforeClose | index.js:177-192 | a failure after launch ends the run with `canceled` followed by the close |
| IndexJsExecutor.SavedTrace | index.js:127-192 | a saved recording navigates, stops the recorder, writes completed with the path under `process.cwd()` and closes, in that order |
| IndexJsExecutor.AudioPathDistinct | index.js:164 | the recording path is absolute when the working directory is, and different meeting ids get different recording files |
| IndexJsExecutor.HandleMeeting | index.js:32-193 | the method's run is exactly `Outcome` |
| IndexJsExecutor.AudioIgnoredUnlessStopped | index.js:154-175 | the audio result plays no part unless the stop evaluate resolved |
| IndexJsExecutor.HandleMeetingAsWritten | index.js:87 | with the in-page recorder as written, on a fresh recording context, every run that asks it to start is canceled with the start-failure message |
| IndexJsExecutor.HandleMeetingCorrected | index.js:69-175 | with the corrected recorder on a fresh recording context, the run is `Outcome` with the recorder's own start result and with audio exactly when the recorder started and some chunk it heard, the last included, holds data |
| Scheduler.Arm | multi_record.js:534-541 | a job is armed exactly when the start column is present and after now, at that start; a null column, parsed as the epoch, is skipped |
| Scheduler.CancelAll | multi_record.js:602 | exactly the jobs of the given handles are cancelled, every other job unchanged |
| Scheduler.ArmingIdsIff | multi_record.js:574-582 | an id is scheduled by the first loop exactly when a fetched meeting with that id gets a job; they are all fetched ids |
| Scheduler.AddNewKeys | multi_record.js:574-582 | the first loop adds exactly the arming ids and keeps every existing entry |
| Scheduler.AddNewArmsFetched | multi_record.js:574-582 | the first loop only appends jobs, each live, unfired and armed at the start of a fetched future meeting |
| Scheduler.AddNewFresh | multi_record.js:574-582 | every job the first loop appends is for an id that was not a key, which now maps to it; every new key maps to an appended job |
| Scheduler.AddNewNoOrphans | multi_record.js:574-582 | the first loop leaves every live job the job of some key |
| Scheduler.AddNewConsistent | multi_record.js:574-582 | the first loop keeps every key mapped to a live job of that meeting |
| Scheduler.PruneVisitedStep | multi_record.js:585-592 | visiting one key keeps a fetched id and cancels-and-deletes an absent one |
| Scheduler.PruneSpec | multi_record.js:585-592 | the second loop keeps consistency, leaves exactly the fetched keys with their handles, cancels every dropped job and keeps every job's meeting |
| Scheduler.PruneNoOrphans | multi_record.js:585-592 | the second loop leaves every live job the job of some key |
| Scheduler.SingleFlightHolds | multi_record.js:562-597 | with the map consistent and no orphans, at most one live job exists per meeting id |
| Scheduler.TickSpec | multi_record.js:562-597 | after a successful tick the map is consistent, and its keys are the old fetched keys plus the newly armed ids, all of them fetched |
| Scheduler.TickNoOrphans | multi_record.js:562-597 | a tick leaves no orphan, so after it at most one live job exists per meeting id |
| Scheduler.CancelKeysCancelsAll | multi_record.js:600-604 | without orphans, cancelling the job of every key cancels every job |
| Scheduler.TickCancelsAbsent | multi_record.js:585-592 | a tick cancels the job of every key the fetch no longer returns |
| Scheduler.AddNewSettled | multi_record.js:574-582 | the first loop changes nothing when every fetched meeting is a key already or gets no job |
| Scheduler.PruneKeepsAll | multi_record.js:585-592 | pruning with every key fetched changes nothing |
| Scheduler.TickCoversArming | multi_record.js:574-592 | after a tick every fetched meeting that gets a job is a key |
| Scheduler.TickIdempotent | multi_record.js:562-597 | repeating a tick on the same fetch at the same time changes nothing |
| Scheduler.Monitor.constructor | multi_record.js:558-562 | an empty map, no jobs, no effects, the monitor scheduled |
| Scheduler.Monitor.ScheduleMeeting | multi_record.js:534-555 | returns a fresh handle and appends a live job exactly when `Arm` allows, else null with nothing armed; the map is untouched |
| Scheduler.Monitor.Tick | multi_record.js:562-597 | a scheduled monitor's run leaves the jobs as `TickResult` (a query error changes nothing); a cancelled monitor does nothing; the map stays consistent without orphans, with one live job per meeting id |
| Scheduler.Monitor.PruneIn | multi_record.js:585-592 | the `for` loop over the entries leaves the jobs as `Prune` |
| Scheduler.Monitor.Visit | multi_record.js:586-590 | one entry: an absent id has its job cancelled and its key deleted, a fetched one is kept |
| Scheduler.Monitor.Fire | multi_record.js:541-553 | a live, unfired job is marked fired and logs the fire-status write followed by the run's effects; a cancelled or fired job does nothing; one live job per meeting id still holds |
| Scheduler.Monitor.Shutdown | multi_record.js:600-604 | the monitor is cancelled, exactly the jobs in the map are cancelled, which leaves no job live, and the map is emptied |
| Scheduler.Monitor.CancelEach | multi_record.js:602 | the `forEach` cancels exactly the jobs the map holds and changes nothing else |

## Left out

- Every collaborator is outside the model: the store client, the browser and page, the file system and the Google sign-in screens. Their results are the `Step` and boolean fields of each script's `Env`. The records and messages they return are not modelled.
- Waiting is outside the model: fixed sleeps, `waitForNavigation`, the polling interval and the `node-schedule` clock. The current time is a parameter, and multi_record.js's clock is a sequence of readings.
- The keep-alive callback, key presses and mouse clicks are single steps or are omitted where their errors are swallowed. So are the camera and microphone toggles and screenshotting.
- A pupStream run whose process exits ends the scheduler and every other job with it; `Scheduler.Monitor.Fire` logs such a run like any other and does not model that.
- Concurrency between jobs is not modelled: two runs started by the same tick, or a tick running while a run is in flight. Jobs fire one at a time through `Scheduler.Monitor.Fire`, and the run they produce is a parameter.
- The process-level code is not modelled: environment checks, the `SIGINT`/`SIGTERM` handlers and the start-up call to `monitorMeetings`.
- Recorded bytes are not modelled. Media chunks are sizes. The base64 round trip of index.js is the boolean `audio`, and the UDP stream of index1.js is the `Streaming` result.
- `Scheduler.Monitor.Tick` receives the query result as a parameter. The query's own filter (pending status, start not in the past) is outside the model.
- Date parsing is outside the model. Start and end times are integer milliseconds, and a missing column is `None`.
- Scheduler.Arm: an undefined or unparseable start column is `None` and so gets no job. In the source that column becomes an invalid date, which the past-start guard does not skip; what node-schedule then does is not modelled.
- PupStreamExecutor.Deferred: the rejection is reported as `rejected` only. Nothing handles the callback's promise, and what that does to the process (under Node 15 and later's default, it ends the process) is not modelled.
- IndexJsExecutor.AudioPath: `path.join`'s normalisation of `.` and `..` segments, and of separators inside the meeting id, is not modelled. A working directory ending in `/` is handled.
- `Retry.WaitForSelectorWithRetry` omits the 3 s pause and the timeout option. multi_record.js defines an identical copy at lines 59-75 and never calls it.
- `Retry.WaitForSelectorWithRetry` requires at least `retries || 5` attempt results. That is a requirement on the modelled page, not on the caller.
- `IndexOldExecutor.HandleMeeting` requires five pre-join attempt results for the same reason.
- `MultiRecordExecutor.HandleMeeting` models the process kill after a rejected close as a `KillBrowser` effect. It does not model whether `browser.process()` exists. The same holds for `PupStreamExecutor.Settled`.
- PupStreamExecutor.TryOutcome: the TypeError for a missing join button carries V8's wording of that message. A failure to open the recording file other than a missing directory is not modelled.
- `IndexJsExecutor.TryOutcome` treats the in-page `startRecording` evaluate as resolving to a boolean. A rejection of that evaluate itself is not modelled; it would raise its own message.
- Index1Executor: the browser-side code inside the extension (`START_RECORDING`/`STOP_RECORDING`) and the UDP socket are not part of this model.
- PupStreamExecutor: the puppeteer-stream library's own `launch` and `getStream` are single steps.
- `Stream.Normalise` represents the falsy values of `mimeType` as `""` and those of `frameSize` as `None` or `Some(0)`.
- `Launch.AddedArgs` represents a falsy `value` as `""`.

## Findings

| source | as written | input that shows it | evidently intended | confidence | as-written member | corrected member |
|---|---|---|---|---|---|---|
| index.js:87 | the listener is registered with `mediaRecorder.addEventListner('dataAvailable', ...)`. The misspelt method does not exist, so the call throws inside the `try`, and `startRecording` resolves false. The event name also differs in case from the recorder's `dataavailable`, so nothing would ever be collected. | any meeting whose page loads, e.g. a valid meeting with every browser step succeeding: the run is canceled with 'Failed to start recording' | `addEventListener('dataavailable', ...)`, so that the recorder starts and collects its non-empty chunks | not executed | InPage.RecordingContext.StartRecordingAsWritten, IndexJsExecutor.HandleMeetingAsWritten | InPage.RecordingContext.StartRecording, IndexJsExecutor.HandleMeetingCorrected |
| index-pupStream.js:208 | `if (!button)` tests the handle `evaluateHandle` returns, which is an object even when the page function returns null, so the test never fires | a meeting page without an "Ask to join" button: the run is cancelled with 'button.boundingBox is not a function' | test the handle's element (`button.asElement()`), so that the run is cancelled with 'Join button not found' | not executed | PupStreamExecutor.JoinCheckAsWritten, PupStreamExecutor.JoinNotFoundUnreachable | PupStreamExecutor.JoinCheckCorrected, PupStreamExecutor.JoinCheckCorrectedSpec |
| index-pupStream.js:311-316 | the deferred cleanup calls `stream.destroy()`, `browser.close()` and `file.close()` unguarded and uncaught, so on every failed run it throws on the null `stream`, never closes an opened file, and its promise rejects unhandled | a run whose `getStream` rejects after the file was opened: ten seconds later the file is still open and the callback rejects | guard each release by its handle and catch its failure, so every opened file is closed and the callback settles | not executed | PupStreamExecutor.Deferred, PupStreamExecutor.StreamFailureCleanup | PupStreamExecutor.DeferredCorrected, PupStreamExecutor.StreamFailureCleanup |
