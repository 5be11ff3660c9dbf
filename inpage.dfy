/**
 * The recorder index.js injects into the meeting page with
 * `evaluateOnNewDocument`: `window.startRecording` builds a `MediaRecorder`
 * over the page's media and registers a listener that keeps every non-empty
 * chunk, `window.stopRecording` stops an active recorder and resolves with
 * the chunks collected so far, or with null.
 */
module InPage {
  import opened Common

  /** The listener registration as the script writes it. */
  const WRITTEN_LISTENER_METHOD := "addEventListner"
  const WRITTEN_EVENT := "dataAvailable"

  /** The DOM method and the (case-sensitive) event name a `MediaRecorder` uses. */
  const LISTENER_METHOD := "addEventListener"
  const DATA_EVENT := "dataavailable"

  /** The methods a `MediaRecorder` has, its own and those it inherits from `EventTarget`. */
  const RECORDER_METHODS :=
    ["start", "stop", "pause", "resume", "requestData", "addEventListener", "removeEventListener", "dispatchEvent"]

  /** Outcomes of the browser calls `startRecording` makes. */
  datatype MediaEnv = MediaEnv(
    userMedia: Step,   // navigator.mediaDevices.getUserMedia(constraints)
    construct: Step,   // new MediaRecorder(stream, { mimeType: 'audio/webm;codecs=opus' })
    start: Step)       // mediaRecorder.start(1000)

  /** A recorder stored in the recording context: whether it records, and the event its listener waits for. */
  datatype Recorder = Recorder(active: bool, listensFor: string)

  /** The recorder's chunks reach the listener. */
  predicate Listening(recorder: Option<Recorder>) {
    recorder.Some? && recorder.value.active && recorder.value.listensFor == DATA_EVENT
  }

  /** What the listener does with one chunk of `size` bytes: it keeps the non-empty ones it hears. */
  function Keep(chunks: seq<nat>, listening: bool, size: nat): (r: seq<nat>)
    ensures |chunks| <= |r| <= |chunks| + 1 && r[..|chunks|] == chunks
    ensures |r| == |chunks| + 1 <==> listening && size > 0
    ensures |r| == |chunks| + 1 ==> r[|chunks|] == size
  {
    if listening && size > 0 then chunks + [size] else chunks
  }

  /** The chunks collected from a series of `dataavailable` events by a listener waiting for `listensFor`. */
  function Collected(listensFor: string, sizes: seq<nat>): seq<nat> {
    if sizes == [] then []
    else Keep(Collected(listensFor, sizes[..|sizes| - 1]), listensFor == DATA_EVENT, sizes[|sizes| - 1])
  }

  /** Every collected chunk holds data. */
  lemma {:induction false} CollectedPositive(listensFor: string, sizes: seq<nat>)
    ensures forall i :: 0 <= i < |Collected(listensFor, sizes)| ==> Collected(listensFor, sizes)[i] > 0
  {
    if sizes != [] {
      CollectedPositive(listensFor, sizes[..|sizes| - 1]);
    }
  }

  /**
   * Nothing is collected exactly when the listener waits for another event
   * name (the script's `'dataAvailable'` among them) or every chunk is empty.
   */
  lemma {:induction false} CollectedEmptyIff(listensFor: string, sizes: seq<nat>)
    ensures Collected(listensFor, sizes) == [] <==>
              listensFor != DATA_EVENT || forall i :: 0 <= i < |sizes| ==> sizes[i] == 0
  {
    if sizes != [] {
      var init := sizes[..|sizes| - 1];
      CollectedEmptyIff(listensFor, init);
      assert forall i :: 0 <= i < |init| ==> init[i] == sizes[i];
    }
  }

  /** `audioBase64` is a non-empty string: the blob exists and holds at least one byte. */
  predicate HasAudio(blob: Option<seq<nat>>) {
    blob.Some? && blob.value != []
  }

  /** `window.recordingContext`: the collected chunks and the stored recorder. */
  class RecordingContext {
    var audioChunks: seq<nat>
    var recorder: Option<Recorder>

    /** Only chunks holding data are kept. */
    ghost predicate Valid()
      reads this
    {
      forall i :: 0 <= i < |audioChunks| ==> audioChunks[i] > 0
    }

    constructor ()
      ensures Valid() && audioChunks == [] && recorder == None
    {
      audioChunks := [];
      recorder := None;
    }

    /**
     * `window.startRecording`, registering the chunk listener through
     * `listenerMethod` for `listenerEvent`. Every failure, calling a method
     * the recorder does not have included, is caught and yields false, and
     * the recorder is stored only once it has started.
     */
    method StartRecordingWith(env: MediaEnv, listenerMethod: string, listenerEvent: string) returns (ok: bool)
      modifies this
      ensures ok <==> env.userMedia.Ok? && env.construct.Ok? && listenerMethod in RECORDER_METHODS && env.start.Ok?
      ensures recorder == if ok then Some(Recorder(true, listenerEvent)) else old(recorder)
      ensures audioChunks == old(audioChunks)
    {
      if env.userMedia.Fail? || env.construct.Fail? {
        return false;
      }
      if listenerMethod !in RECORDER_METHODS {
        // calling an undefined property throws a TypeError
        return false;
      }
      if env.start.Fail? {
        return false;
      }
      recorder := Some(Recorder(true, listenerEvent));
      ok := true;
    }

    /** `window.startRecording` as index.js writes it: it never reports a started recording. */
    method StartRecordingAsWritten(env: MediaEnv) returns (ok: bool)
      modifies this
      ensures !ok
      ensures recorder == old(recorder) && audioChunks == old(audioChunks)
    {
      ok := StartRecordingWith(env, WRITTEN_LISTENER_METHOD, WRITTEN_EVENT);
    }

    /** `window.startRecording` with `addEventListener('dataavailable', ...)`: it starts whenever the browser lets it. */
    method StartRecording(env: MediaEnv) returns (ok: bool)
      modifies this
      ensures ok <==> env.userMedia.Ok? && env.construct.Ok? && env.start.Ok?
      ensures recorder == if ok then Some(Recorder(true, DATA_EVENT)) else old(recorder)
      ensures ok ==> Listening(recorder)
      ensures audioChunks == old(audioChunks)
    {
      ok := StartRecordingWith(env, LISTENER_METHOD, DATA_EVENT);
    }

    /** The recorder dispatches a `dataavailable` event carrying `size` bytes. */
    method DataAvailable(size: nat)
      requires Valid()
      modifies this
      ensures Valid()
      ensures recorder == old(recorder)
      ensures audioChunks == Keep(old(audioChunks), Listening(old(recorder)), size)
    {
      if Listening(recorder) && size > 0 {
        audioChunks := audioChunks + [size];
      }
    }

    /**
     * `window.stopRecording`: an active recorder delivers its last chunk,
     * becomes inactive and resolves with the chunks, which are reset;
     * without an active recorder it resolves with null.
     */
    method StopRecording(last: nat) returns (blob: Option<seq<nat>>)
      requires Valid()
      modifies this
      ensures Valid()
      ensures old(recorder).Some? && old(recorder).value.active ==>
                && blob == Some(Keep(old(audioChunks), Listening(old(recorder)), last))
                && audioChunks == [] && recorder == Some(old(recorder).value.(active := false))
      ensures !(old(recorder).Some? && old(recorder).value.active) ==>
                blob == None && audioChunks == old(audioChunks) && recorder == old(recorder)
      // every chunk of the resolved blob holds data
      ensures HasAudio(blob) ==> forall i :: 0 <= i < |blob.value| ==> blob.value[i] > 0
    {
      if recorder.Some? && recorder.value.active {
        var chunks := Keep(audioChunks, Listening(recorder), last);
        recorder := Some(recorder.value.(active := false));
        audioChunks := [];
        blob := Some(chunks);
      } else {
        blob := None;
      }
    }
  }
}
