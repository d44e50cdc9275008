/**
 * The recording component: React state, the refs it mutates in place, and the
 * browser objects underneath it (microphone streams, the MediaRecorder, the
 * speech recognition session, object URLs), with every handler and browser
 * callback as one atomic step.
 *
 * Each step is defined on a `View` of the whole state by a transition
 * function that proves the component invariant `Inv` and what the handler
 * promises; the class `VoiceRecorder` performs the step on its fields and is
 * specified by that function.
 */
module VoiceRecorderComponent {
  import opened Optional
  import opened Media
  import opened Recognition

  /** The message shown when `startRecording` fails. */
  const PermissionMessage: string :=
    "Could not access microphone. Please ensure you have granted microphone permissions."

  /** The MediaRecorder's own `state`. */
  datatype RecorderState = Inactive | Recording | Paused

  /** The object in `mediaRecorderRef.current`: the stream it records and its state. */
  datatype MediaRecorder = MediaRecorder(stream: nat, state: RecorderState)

  /**
   * What the browser holds on the component's behalf: whether the recognition
   * session runs, the microphone streams whose tracks are live, the streams
   * of stopped recorders whose `stop` event is still to come, the object URLs
   * not yet revoked (streams and URLs are named by creation number), and
   * whether the component is in the page.
   */
  datatype Browser = Browser(
    recognitionRunning: bool, liveStreams: set<nat>, pendingStops: set<nat>, nextStream: nat,
    liveUrls: set<nat>, nextUrl: nat, mounted: bool)

  /**
   * The component's state: React state, the refs (`recognitionRef.current` is
   * set, `mediaRecorderRef.current`, `audioChunksRef.current`) and the browser.
   * `delivered` (every chunk delivered since the buffer was last emptied) and
   * `leaked` (streams no code path will ever stop) exist for the proofs only.
   */
  datatype View = View(
    isRecording: bool, isPaused: bool, recordedAudio: Option<Blob>, audioUrl: Url,
    error: string, interimTranscript: string,
    hasRecognition: bool, recorder: Option<MediaRecorder>, chunks: seq<Chunk>,
    env: Browser, delivered: seq<Chunk>, leaked: set<nat>)

  /** `mediaRecorderRef.current` is recording or paused. */
  predicate RecorderActive(v: View) {
    v.recorder.Some? && v.recorder.value.state != Inactive
  }

  /** The stream of the recorder that is recording or paused. */
  function ActiveStreams(v: View): set<nat> {
    if RecorderActive(v) then {v.recorder.value.stream} else {}
  }

  /** The buffer holds exactly the non-empty chunks delivered, in order. */
  predicate BufferInv(v: View) {
    v.chunks == NonEmpty(v.delivered)
  }

  /**
   * An active recorder is shown as recording, paused exactly when it is; the
   * flags may outlive it, since a recorder that stops on its own leaves them
   * set. Recognition runs only if it exists.
   */
  predicate FlagsInv(v: View) {
    && (v.env.recognitionRunning ==> v.hasRecognition)
    && (v.isPaused ==> v.isRecording)
    && (v.isRecording ==> v.recorder.Some?)
    && (RecorderActive(v) ==> v.isRecording)
    && (RecorderActive(v) ==> v.recorder.value.state == if v.isPaused then Paused else Recording)
  }

  /**
   * Every held microphone stream belongs to exactly one of: the active
   * recorder, a stopped recorder whose `stop` event will release it, or the
   * leaked ones; leaks happen only when recognition exists.
   */
  predicate StreamsInv(v: View) {
    && (v.recorder.Some? ==> v.recorder.value.stream < v.env.nextStream)
    && (forall s :: s in v.env.liveStreams ==> s < v.env.nextStream)
    && v.env.liveStreams == ActiveStreams(v) + v.env.pendingStops + v.leaked
    && ActiveStreams(v) !! v.env.pendingStops && ActiveStreams(v) !! v.leaked
    && v.env.pendingStops !! v.leaked
    && (!v.hasRecognition ==> v.leaked == {})
  }

  /**
   * The recording and its URL come and go together, and while mounted the
   * only live object URL is `audioUrl`: none is leaked.
   */
  predicate UrlsInv(v: View) {
    && (v.recordedAudio.Some? <==> v.audioUrl.ObjectUrl?)
    && (v.recordedAudio.Some? ==> v.recordedAudio.value.mimeType == ArtifactMimeType)
    && (v.audioUrl.ObjectUrl? ==> v.audioUrl.id < v.env.nextUrl)
    && v.env.liveUrls == (if v.env.mounted then UrlIds(v.audioUrl) else {})
  }

  predicate Inv(v: View) {
    BufferInv(v) && FlagsInv(v) && StreamsInv(v) && UrlsInv(v)
  }

  /** The Start Recording button is rendered (its `disabled` also needs `isProcessing`). */
  predicate StartVisible(v: View) {
    !v.isRecording && v.recordedAudio.None?
  }

  /** The Play and Retry buttons are rendered (Retry's `disabled` also needs `isProcessing`). */
  predicate RetryVisible(v: View) {
    v.recordedAudio.Some? && v.audioUrl.ObjectUrl?
  }

  /** The state after mounting: the first effect creates a recognition object when supported. */
  function Mounted(recognitionSupported: bool): (r: View)
    ensures Inv(r) && r.env.mounted && r.hasRecognition == recognitionSupported
    ensures !r.isRecording && r.recorder.None? && r.chunks == [] && !r.env.recognitionRunning
    ensures r.env.liveStreams == {} && r.env.liveUrls == {}
  {
    View(false, false, None, NoUrl, "", "", recognitionSupported, None, [],
         Browser(false, {}, {}, 0, {}, 0, true), [], {})
  }

  /** Starting recognition throws (InvalidStateError) while a session is still running. */
  predicate RecognitionBusy(v: View) {
    v.hasRecognition && v.env.recognitionRunning
  }

  /**
   * `startRecording` with the outcome of `getUserMedia`. The error and the
   * interim text are cleared first; a denial sets the message and leaves the
   * rest alone; after an acquisition the buffer is emptied and a recorder is
   * installed on the fresh stream. Recording starts exactly when nothing
   * failed, and then recognition runs iff it exists. A busy recognition
   * session fails the start after the stream is held, and nothing releases it.
   */
  function AfterStart(v: View, acquired: bool): (r: View)
    requires Inv(v) && v.env.mounted && StartVisible(v)
    ensures Inv(r) && r.env.mounted
    ensures r.interimTranscript == ""
    ensures r.error == "" <==> acquired && !RecognitionBusy(v)
    ensures r.error != "" ==> r.error == PermissionMessage
    ensures r.isRecording <==> r.error == ""
    ensures r.isRecording ==> !r.isPaused && r.env.recognitionRunning == r.hasRecognition
    ensures !acquired ==> r.chunks == v.chunks && r.env == v.env && r.recorder == v.recorder
    ensures acquired ==> && r.chunks == [] && v.env.nextStream !in v.env.liveStreams
                         && r.env.liveStreams == v.env.liveStreams + {v.env.nextStream}
                         && r.recorder.Some? && r.recorder.value.stream == v.env.nextStream
    ensures acquired && RecognitionBusy(v) ==> r.leaked == v.leaked + {v.env.nextStream}
    ensures r.recordedAudio == v.recordedAudio && r.audioUrl == v.audioUrl
    ensures r.env.liveUrls == v.env.liveUrls && r.env.pendingStops == v.env.pendingStops
    ensures !acquired ==> r == v.(error := PermissionMessage, interimTranscript := "")
    ensures acquired ==> r.env == v.env.(liveStreams := r.env.liveStreams, nextStream := v.env.nextStream + 1,
                                         recognitionRunning := r.env.recognitionRunning)
    ensures acquired && RecognitionBusy(v) ==>
      r.env == v.env.(liveStreams := v.env.liveStreams + {v.env.nextStream}, nextStream := v.env.nextStream + 1)
    ensures acquired && RecognitionBusy(v) ==>
      r == v.(error := PermissionMessage, interimTranscript := "", chunks := [], delivered := [],
              env := r.env, recorder := Some(MediaRecorder(v.env.nextStream, Inactive)), leaked := r.leaked)
    ensures acquired && !RecognitionBusy(v) ==>
      r == v.(error := "", interimTranscript := "", chunks := [], delivered := [], env := r.env,
              recorder := Some(MediaRecorder(v.env.nextStream, Recording)), isRecording := true, isPaused := false)
  {
    var s := v.env.nextStream;
    assert ActiveStreams(v) == {} && s !in v.env.liveStreams;
    var held := v.env.(liveStreams := v.env.liveStreams + {s}, nextStream := s + 1);
    if !acquired then
      v.(error := PermissionMessage, interimTranscript := "")
    else if RecognitionBusy(v) then
      v.(error := PermissionMessage, interimTranscript := "", chunks := [], delivered := [],
         env := held, recorder := Some(MediaRecorder(s, Inactive)), leaked := v.leaked + {s})
    else
      v.(error := "", interimTranscript := "", chunks := [], delivered := [],
         env := held.(recognitionRunning := v.hasRecognition),
         recorder := Some(MediaRecorder(s, Recording)), isRecording := true, isPaused := false)
  }

  /**
   * `stopRecording`: a no-op unless `isRecording`; otherwise both flags end
   * false and an active recorder is stopped (its stream stays held until the
   * `stop` event), while `stop()` on a recorder that already went inactive
   * returns at once. A second call changes nothing; recognition is not touched.
   */
  function AfterStop(v: View): (r: View)
    requires Inv(v) && v.env.mounted
    ensures Inv(r) && r.env.mounted && !r.isRecording && !r.isPaused && !RecorderActive(r)
    ensures r.env.recognitionRunning == v.env.recognitionRunning && r.env.liveStreams == v.env.liveStreams
    ensures r.chunks == v.chunks && r.recordedAudio == v.recordedAudio && r.error == v.error
    ensures RecorderActive(v) ==> r.env.pendingStops == v.env.pendingStops + {v.recorder.value.stream}
    ensures RecorderActive(v) ==>
      r == v.(recorder := Some(v.recorder.value.(state := Inactive)),
              env := v.env.(pendingStops := v.env.pendingStops + {v.recorder.value.stream}),
              isRecording := false, isPaused := false)
    ensures !RecorderActive(v) ==> r == v.(isRecording := false, isPaused := false)
    ensures !v.isRecording ==> r == v
  {
    if v.recorder.Some? && v.isRecording then
      var rec := v.recorder.value;
      if rec.state == Inactive then
        v.(isRecording := false, isPaused := false)
      else
        var r := v.(recorder := Some(rec.(state := Inactive)),
                    env := v.env.(pendingStops := v.env.pendingStops + {rec.stream}),
                    isRecording := false, isPaused := false);
        assert ActiveStreams(v) == {rec.stream} && ActiveStreams(r) == {};
        r
    else
      v
  }

  /**
   * The recorder stops on its own while recording or paused (its track ended,
   * or a recording error): it goes inactive and its `stop` event is to come,
   * but no handler of the component clears `isRecording` or `isPaused`.
   */
  function AfterRecorderHalt(v: View): (r: View)
    requires Inv(v) && v.env.mounted && RecorderActive(v)
    ensures Inv(r) && r.env.mounted && !RecorderActive(r)
    ensures r.isRecording && r.isPaused == v.isPaused
    ensures r.env.pendingStops == v.env.pendingStops + {v.recorder.value.stream}
    ensures r == v.(recorder := Some(v.recorder.value.(state := Inactive)),
                    env := v.env.(pendingStops := r.env.pendingStops))
  {
    var rec := v.recorder.value;
    var r := v.(recorder := Some(rec.(state := Inactive)),
                env := v.env.(pendingStops := v.env.pendingStops + {rec.stream}));
    assert ActiveStreams(v) == {rec.stream} && ActiveStreams(r) == {};
    r
  }

  /**
   * `togglePause`: without a recorder it returns at once, and on an inactive
   * one `pause()`/`resume()` throw before any state is set; while recording
   * it flips `isPaused` and forwards the matching call to the recorder only.
   */
  function AfterToggle(v: View): (r: View)
    requires Inv(v) && v.env.mounted
    ensures Inv(r) && r.env.mounted
    ensures RecorderActive(v) ==> RecorderActive(r) && r.isRecording && r.isPaused == !v.isPaused
    ensures RecorderActive(v) ==>
      r == v.(isPaused := r.isPaused, recorder := Some(v.recorder.value.(state := r.recorder.value.state)))
    ensures !RecorderActive(v) ==> r == v
  {
    if v.recorder.None? then v
    else
      var rec := v.recorder.value;
      if rec.state == Inactive then v
      else if v.isPaused then v.(recorder := Some(rec.(state := Recording)), isPaused := false)
      else v.(recorder := Some(rec.(state := Paused)), isPaused := true)
  }

  /** Pausing and resuming gives back the state exactly as it was. */
  lemma ToggleTwice(v: View)
    requires Inv(v) && v.env.mounted
    ensures AfterToggle(AfterToggle(v)) == v
  {
  }

  /**
   * `ondataavailable`: the chunk is delivered and buffered unless empty; the
   * buffer's bytes are always all the bytes delivered.
   */
  function AfterData(v: View, c: Chunk): (r: View)
    requires Inv(v) && v.env.mounted
    ensures Inv(r) && r.env.mounted
    ensures Concat(r.chunks) == Concat(v.delivered) + c
    ensures r == v.(chunks := r.chunks, delivered := v.delivered + [c])
  {
    NonEmptySnoc(v.delivered, c);
    ConcatNonEmpty(v.delivered + [c]);
    ConcatSnoc(v.delivered, c);
    v.(chunks := v.chunks + (if |c| > 0 then [c] else []), delivered := v.delivered + [c])
  }

  /**
   * A chunk of positive size is appended at the end of the buffer, an empty
   * one is dropped, and the chunks already there stay as they were.
   */
  lemma DataAppends(v: View, c: Chunk)
    requires Inv(v) && v.env.mounted
    ensures |AfterData(v, c).chunks| == |v.chunks| + (if |c| > 0 then 1 else 0)
    ensures AfterData(v, c).chunks[..|v.chunks|] == v.chunks
    ensures |c| > 0 ==> AfterData(v, c).chunks[|v.chunks|] == c
  {
  }

  /** The Blob `onstop` builds: the whole buffer, typed `audio/wav`; its bytes are all the audio delivered. */
  function Artifact(v: View): (b: Blob)
    requires BufferInv(v)
    ensures b.bytes == Concat(v.delivered) && b.mimeType == ArtifactMimeType
  {
    ConcatNonEmpty(v.delivered);
    Blob(Concat(v.chunks), ArtifactMimeType)
  }

  /**
   * `onstop` of the stopped recorder that records `stream`: the recording is
   * the artifact of the buffer, shown through a fresh object URL while the
   * previous one is revoked, and the tracks of that stream are stopped. The
   * buffer is left as it is.
   */
  function AfterStopEvent(v: View, stream: nat): (r: View)
    requires Inv(v) && v.env.mounted && stream in v.env.pendingStops
    ensures Inv(r) && r.env.mounted
    ensures r.recordedAudio == Some(Artifact(v))
    ensures v.env.nextUrl !in v.env.liveUrls && r.audioUrl == ObjectUrl(v.env.nextUrl)
    ensures r.env.liveUrls == {v.env.nextUrl}
    ensures stream in v.env.liveStreams && r.env.liveStreams == v.env.liveStreams - {stream}
    ensures r.env.pendingStops == v.env.pendingStops - {stream}
    ensures r.chunks == v.chunks && r.isRecording == v.isRecording && r.recorder == v.recorder
    ensures r.env.recognitionRunning == v.env.recognitionRunning && r.error == v.error
    ensures r == v.(recordedAudio := r.recordedAudio, audioUrl := r.audioUrl, env := r.env)
    ensures r.env == v.env.(nextUrl := v.env.nextUrl + 1, liveUrls := r.env.liveUrls,
                            pendingStops := r.env.pendingStops, liveStreams := r.env.liveStreams)
  {
    var url := v.env.nextUrl;
    v.(recordedAudio := Some(Artifact(v)), audioUrl := ObjectUrl(url),
       env := v.env.(nextUrl := url + 1, liveUrls := (v.env.liveUrls + {url}) - UrlIds(v.audioUrl),
                     pendingStops := v.env.pendingStops - {stream},
                     liveStreams := v.env.liveStreams - {stream}))
  }

  /**
   * `onresult`: the interim transcript is replaced by the batch's non-final
   * text, whatever it held before, and is empty after a batch of finals only;
   * nothing else changes (the finals go to `onTextUpdate`, see
   * `Recognition.ReduceBatch`).
   */
  function AfterResult(v: View, results: seq<SpeechResult>, resultIndex: nat): (r: View)
    requires Inv(v) && v.env.mounted && resultIndex <= |results|
    ensures Inv(r) && r.env.mounted
    ensures (forall j :: resultIndex <= j < |results| ==> results[j].isFinal) ==> r.interimTranscript == ""
    ensures r == v.(interimTranscript := Interim(results[resultIndex..]))
  {
    var b := results[resultIndex..];
    var r := v.(interimTranscript := Interim(b));
    if forall j :: 0 <= j < |b| ==> b[j].isFinal then AllFinalBatch(b); r else r
  }

  /**
   * `handleRetry`: drops the recording and the URL, whose effect cleanup
   * revokes it when it was non-empty; '' is never revoked and nothing else
   * changes.
   */
  function AfterRetry(v: View): (r: View)
    requires Inv(v) && v.env.mounted
    ensures Inv(r) && r.env.mounted
    ensures r.recordedAudio.None? && r.audioUrl == NoUrl && r.env.liveUrls == {}
    ensures r.env.liveUrls == v.env.liveUrls - UrlIds(v.audioUrl)
    ensures r == v.(recordedAudio := None, audioUrl := NoUrl, env := r.env)
    ensures r.env == v.env.(liveUrls := r.env.liveUrls)
  {
    v.(recordedAudio := None, audioUrl := NoUrl, env := v.env.(liveUrls := v.env.liveUrls - UrlIds(v.audioUrl)))
  }

  /** Retrying twice is retrying once. */
  lemma RetryIdempotent(v: View)
    requires Inv(v) && v.env.mounted
    ensures AfterRetry(AfterRetry(v)) == AfterRetry(v)
  {
  }

  /** Stopping twice is stopping once. */
  lemma StopTwice(v: View)
    requires Inv(v) && v.env.mounted
    ensures AfterStop(AfterStop(v)) == AfterStop(v)
  {
  }

  /**
   * Since stopping leaves the recognition session running, recording, stopping,
   * receiving the `stop` event and retrying brings the Start button back while
   * the session still runs; unless the browser has ended the session by then,
   * the next start fails with the microphone message although the microphone
   * is granted, and the stream it acquired is never released.
   */
  lemma RestartWhileRecognitionRuns(v: View)
    requires Inv(v) && v.env.mounted && StartVisible(v) && v.hasRecognition && !v.env.recognitionRunning
    ensures var started := AfterStart(v, true);
      && started.isRecording
      && var stopped := AfterStop(started);
      && started.recorder.value.stream in stopped.env.pendingStops
      && var retried := AfterRetry(AfterStopEvent(stopped, started.recorder.value.stream));
      && StartVisible(retried) && retried.env.recognitionRunning
      && AfterStart(retried, true).error == PermissionMessage
      && !AfterStart(retried, true).isRecording
      && retried.env.nextStream in AfterStart(retried, true).leaked
  {
  }

  /**
   * After the recorder stops on its own and its `stop` event, the recording
   * is shown for replay while the Stop and Pause buttons stay rendered and
   * Pause does nothing; Retry alone does not bring Start back, Stop first does.
   */
  lemma HaltLeavesRecordingShown(v: View)
    requires Inv(v) && v.env.mounted && RecorderActive(v)
    ensures var s := AfterStopEvent(AfterRecorderHalt(v), v.recorder.value.stream);
      && s.isRecording && RetryVisible(s) && AfterToggle(s) == s
      && !StartVisible(AfterRetry(s))
      && StartVisible(AfterRetry(AfterStop(s)))
  {
  }

  /** The browser ends the recognition session on its own (the component installs no handler for it). */
  function AfterRecognitionEnd(v: View): (r: View)
    requires Inv(v) && v.env.mounted
    ensures Inv(r) && r.env.mounted && !r.env.recognitionRunning
    ensures r == v.(env := v.env.(recognitionRunning := false))
  {
    v.(env := v.env.(recognitionRunning := false))
  }

  /**
   * Unmount: the effect cleanups stop recognition if it exists and revoke a
   * non-empty `audioUrl`, so no URL and no recognition session outlives the
   * component. The recorder and its stream are not touched: a stream held
   * while recording stays held.
   */
  function AfterUnmount(v: View): (r: View)
    requires Inv(v) && v.env.mounted
    ensures Inv(r) && !r.env.mounted
    ensures !r.env.recognitionRunning && r.env.liveUrls == {}
    ensures r.env.liveStreams == v.env.liveStreams && r.audioUrl == v.audioUrl
    ensures r == v.(env := r.env)
    ensures r.env == v.env.(recognitionRunning := false, liveUrls := {}, mounted := false)
  {
    v.(env := v.env.(recognitionRunning := false, liveUrls := v.env.liveUrls - UrlIds(v.audioUrl),
                     mounted := false))
  }

  class VoiceRecorder {
    // React state
    var isRecording: bool
    var isPaused: bool
    var recordedAudio: Option<Blob>
    var audioUrl: Url
    var error: string
    var interimTranscript: string
    /** `recognitionRef.current` is set: the browser offers speech recognition. */
    const hasRecognition: bool
    /** `mediaRecorderRef.current`. */
    var recorder: Option<MediaRecorder>
    /** `audioChunksRef.current`. */
    var chunks: seq<Chunk>
    /** The browser objects the component drives. */
    var env: Browser
    ghost var delivered: seq<Chunk>
    ghost var leaked: set<nat>

    ghost function Snapshot(): View
      reads this
    {
      View(isRecording, isPaused, recordedAudio, audioUrl, error, interimTranscript,
           hasRecognition, recorder, chunks, env, delivered, leaked)
    }

    ghost predicate Valid()
      reads this
    {
      Inv(Snapshot())
    }

    constructor (recognitionSupported: bool)
      ensures Valid() && Snapshot() == Mounted(recognitionSupported)
    {
      isRecording, isPaused, recordedAudio, audioUrl := false, false, None, NoUrl;
      error, interimTranscript := "", "";
      hasRecognition := recognitionSupported;
      recorder, chunks := None, [];
      env := Browser(false, {}, {}, 0, {}, 0, true);
      delivered, leaked := [], {};
    }

    /** `startRecording`, with the outcome of `getUserMedia` as `acquired`. */
    method StartRecording(acquired: bool)
      requires Valid() && env.mounted && StartVisible(Snapshot())
      modifies this
      ensures Valid() && Snapshot() == AfterStart(old(Snapshot()), acquired)
    {
      ghost var post := AfterStart(Snapshot(), acquired);
      error := "";
      interimTranscript := "";
      if !acquired {
        error := PermissionMessage;
      } else {
        var stream := env.nextStream;
        env := env.(liveStreams := env.liveStreams + {stream}, nextStream := stream + 1);
        chunks, delivered := [], [];
        recorder := Some(MediaRecorder(stream, Inactive));
        if hasRecognition && env.recognitionRunning {
          // recognition.start() throws InvalidStateError; the catch shows the message
          leaked := leaked + {stream};
          error := PermissionMessage;
        } else {
          if hasRecognition {
            env := env.(recognitionRunning := true);
          }
          assert env.recognitionRunning == hasRecognition;
          recorder := Some(MediaRecorder(stream, Recording));
          isRecording := true;
          isPaused := false;
        }
      }
      assert Snapshot() == post;
    }

    /** `stopRecording`. */
    method StopRecording()
      requires Valid() && env.mounted
      modifies this
      ensures Valid() && Snapshot() == AfterStop(old(Snapshot()))
    {
      ghost var post := AfterStop(Snapshot());
      if recorder.Some? && isRecording {
        var r := recorder.value;
        if r.state != Inactive {
          recorder := Some(r.(state := Inactive));
          env := env.(pendingStops := env.pendingStops + {r.stream});
        }
        isRecording := false;
        isPaused := false;
      }
      assert Snapshot() == post;
    }

    /** The recorder stops on its own while recording or paused. */
    method RecorderHalted()
      requires Valid() && env.mounted && recorder.Some? && recorder.value.state != Inactive
      modifies this
      ensures Valid() && Snapshot() == AfterRecorderHalt(old(Snapshot()))
    {
      var r := recorder.value;
      recorder := Some(r.(state := Inactive));
      env := env.(pendingStops := env.pendingStops + {r.stream});
    }

    /** `togglePause`. */
    method TogglePause()
      requires Valid() && env.mounted
      modifies this
      ensures Valid() && Snapshot() == AfterToggle(old(Snapshot()))
    {
      if recorder.None? {
        return;
      }
      var r := recorder.value;
      if r.state == Inactive {
        return;  // pause() / resume() throw InvalidStateError
      }
      if isPaused {
        recorder := Some(r.(state := Recording));
        isPaused := false;
      } else {
        recorder := Some(r.(state := Paused));
        isPaused := true;
      }
    }

    /** `ondataavailable`. */
    method OnDataAvailable(c: Chunk)
      requires Valid() && env.mounted
      modifies this
      ensures Valid() && Snapshot() == AfterData(old(Snapshot()), c)
    {
      ghost var post := AfterData(Snapshot(), c);
      DataAppends(Snapshot(), c);
      if |c| > 0 {
        chunks := chunks + [c];
      }
      delivered := delivered + [c];
      assert Snapshot() == post;
    }

    /** `onstop` of the recorder recording `stream`; returns the Blob handed to `onRecordingComplete`. */
    method OnStop(stream: nat) returns (completed: Blob)
      requires Valid() && env.mounted && stream in env.pendingStops
      modifies this
      ensures completed == Artifact(old(Snapshot()))
      ensures Valid() && Snapshot() == AfterStopEvent(old(Snapshot()), stream)
    {
      ghost var post := AfterStopEvent(Snapshot(), stream);
      completed := Blob(Concat(chunks), ArtifactMimeType);
      recordedAudio := Some(completed);
      var url := env.nextUrl;
      env := env.(nextUrl := url + 1, liveUrls := env.liveUrls + {url});  // a fresh object URL
      if audioUrl.ObjectUrl? {
        env := env.(liveUrls := env.liveUrls - {audioUrl.id});  // the effect cleanup revokes the old URL
      }
      audioUrl := ObjectUrl(url);
      // the tracks of the recorded stream are stopped
      env := env.(pendingStops := env.pendingStops - {stream}, liveStreams := env.liveStreams - {stream});
      assert env.liveUrls == post.env.liveUrls;
      assert Snapshot() == post;
    }

    /** `onresult`; returns the arguments of the `onTextUpdate` calls, in call order. */
    method OnResult(results: seq<SpeechResult>, resultIndex: nat) returns (forwarded: seq<string>)
      requires Valid() && env.mounted && hasRecognition && resultIndex <= |results|
      modifies this
      ensures forwarded == Finals(results[resultIndex..])
      ensures Valid() && Snapshot() == AfterResult(old(Snapshot()), results, resultIndex)
    {
      var interim;
      forwarded, interim := ReduceBatch(results, resultIndex);
      interimTranscript := interim;
    }

    /** `handleRetry`; returns the argument of its `onTextUpdate('')` call. */
    method HandleRetry() returns (update: string)
      requires Valid() && env.mounted
      modifies this
      ensures update == ""
      ensures Valid() && Snapshot() == AfterRetry(old(Snapshot()))
    {
      ghost var post := AfterRetry(Snapshot());
      recordedAudio := None;
      if audioUrl.ObjectUrl? {
        env := env.(liveUrls := env.liveUrls - {audioUrl.id});  // the effect cleanup revokes the old URL
      }
      audioUrl := NoUrl;
      update := "";
      assert Snapshot() == post;
    }

    /** The recognition session ends on the browser's initiative. */
    method RecognitionEnded()
      requires Valid() && env.mounted
      modifies this
      ensures Valid() && Snapshot() == AfterRecognitionEnd(old(Snapshot()))
    {
      env := env.(recognitionRunning := false);
    }

    /** Unmount: the cleanups of the two effects. */
    method Unmount()
      requires Valid() && env.mounted
      modifies this
      ensures Valid() && Snapshot() == AfterUnmount(old(Snapshot()))
    {
      ghost var post := AfterUnmount(Snapshot());
      if hasRecognition {
        env := env.(recognitionRunning := false);
      }
      if audioUrl.ObjectUrl? {
        env := env.(liveUrls := env.liveUrls - {audioUrl.id});  // the effect cleanup revokes the URL
      }
      env := env.(mounted := false);
      assert Snapshot() == post;
    }
  }
}
