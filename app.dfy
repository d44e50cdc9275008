/**
 * The App shell: the shared `transcribedText` and `isProcessing` state, the
 * two request handlers that talk to the backend, and the wiring of the two
 * components (the recorder's `onTextUpdate` is the raw `setTranscribedText`).
 *
 * A handler runs in two atomic steps: its synchronous part, up to the
 * `await fetch`, sends the request; the settlement of that request (ok,
 * not ok, or a thrown error) runs the rest, through the `finally` clause.
 * Requests in flight are kept in order of sending; any of them may settle
 * next.
 */
module AppShell {
  import opened Optional
  import opened Media
  import opened Recognition
  import VR = VoiceRecorderComponent
  import TTS = TextToSpeechComponent

  /** The backend origin the handlers call and prefix playback URLs with. */
  const Origin: string := "http://localhost:5000"
  const SpeechToTextUrl: string := Origin + "/api/speech-to-text"
  const TextToSpeechUrl: string := Origin + "/api/text-to-speech"

  /** A request body: multipart form data with one file field, or a JSON object with a `text` member. */
  datatype Body =
    | Multipart(field: string, file: Blob, fileName: string)
    | JsonText(text: string)

  /** What a request posts: the URL and the body. */
  datatype Post = Post(url: string, body: Body)

  /** A request in flight, tagged by the handler that sent it and so by the continuation that settles it. */
  datatype Request = SpeechToText(audio: Blob) | TextToSpeech(text: string)

  /** How a request settles: a response with `ok` and the payload read from its JSON, a response without `ok`, or a thrown error. */
  datatype Outcome = Ok(payload: string) | NotOk | Thrown

  /**
   * What a request posts: `handleRecordingComplete` sends the audio as form
   * field `audio` with file name `recording.wav` to the speech-to-text
   * endpoint, `handleTextSubmit` the text, unchanged, as JSON to the
   * text-to-speech endpoint.
   */
  function Wire(q: Request): (p: Post)
    ensures q.SpeechToText? ==> && p.url == SpeechToTextUrl && p.body.Multipart? && p.body.file == q.audio
                                && p.body.field == "audio" && p.body.fileName == "recording.wav"
    ensures q.TextToSpeech? ==> p.url == TextToSpeechUrl && p.body == JsonText(q.text)
  {
    match q
    case SpeechToText(audio) => Post(SpeechToTextUrl, Multipart("audio", audio, "recording.wav"))
    case TextToSpeech(text) => Post(TextToSpeechUrl, JsonText(text))
  }

  /** What is posted determines the request: two different requests never post the same thing. */
  lemma WireInjective(q1: Request, q2: Request)
    ensures Wire(q1) == Wire(q2) ==> q1 == q2
  {
  }

  /** The App's state, with the requests in flight and the URLs handed to `new Audio(...).play()`. */
  datatype Shell = Shell(transcribedText: string, isProcessing: bool, inFlight: seq<Request>, played: seq<string>)

  /** `isProcessing` is only on while some request is in flight. */
  predicate Inv(v: Shell) {
    v.isProcessing ==> v.inFlight != []
  }

  function Initial(): (r: Shell)
    ensures Inv(r) && r.transcribedText == "" && !r.isProcessing && r.inFlight == [] && r.played == []
  {
    Shell("", false, [], [])
  }

  /** The synchronous part of `handleRecordingComplete`: processing on, the audio sent, nothing else touched. */
  function AfterRecordingComplete(v: Shell, audio: Blob): (r: Shell)
    requires Inv(v)
    ensures Inv(r) && r.isProcessing
    ensures r.inFlight == v.inFlight + [SpeechToText(audio)]
    ensures r.transcribedText == v.transcribedText && r.played == v.played
  {
    v.(isProcessing := true, inFlight := v.inFlight + [SpeechToText(audio)])
  }

  /** The synchronous part of `handleTextSubmit`: processing on, the text sent, nothing else touched. */
  function AfterTextSubmit(v: Shell, text: string): (r: Shell)
    requires Inv(v)
    ensures Inv(r) && r.isProcessing
    ensures r.inFlight == v.inFlight + [TextToSpeech(text)]
    ensures r.transcribedText == v.transcribedText && r.played == v.played
  {
    v.(isProcessing := true, inFlight := v.inFlight + [TextToSpeech(text)])
  }

  /**
   * The rest of the handler whose request `k` settles with `o`. Processing
   * goes off on every path. A speech-to-text answer replaces the transcript
   * with its text only when ok; a text-to-speech answer never touches the
   * transcript and plays exactly one audio, at the origin plus its URL, only
   * when ok.
   */
  function AfterSettle(v: Shell, k: nat, o: Outcome): (r: Shell)
    requires Inv(v) && k < |v.inFlight|
    ensures Inv(r) && !r.isProcessing
    ensures r.inFlight == v.inFlight[..k] + v.inFlight[k + 1..]
    ensures v.inFlight[k].SpeechToText? ==>
              && r.transcribedText == (if o.Ok? then o.payload else v.transcribedText)
              && r.played == v.played
    ensures v.inFlight[k].TextToSpeech? ==>
              && r.transcribedText == v.transcribedText
              && r.played == v.played + (if o.Ok? then [Origin + o.payload] else [])
  {
    var q := v.inFlight[k];
    var rest := v.inFlight[..k] + v.inFlight[k + 1..];
    assert forall i :: 0 <= i < |rest| ==> rest[i] == v.inFlight[if i < k then i else i + 1];
    var r := v.(isProcessing := false, inFlight := rest);
    if o.Ok? then
      if q.SpeechToText? then r.(transcribedText := o.payload)
      else r.(played := v.played + [Origin + o.payload])
    else r
  }

  /**
   * One recording on an idle App, start to finish: processing is off again on
   * every outcome, and the transcript becomes the recognised text exactly
   * when the response is ok.
   */
  lemma RecordingRoundTrip(v: Shell, audio: Blob, o: Outcome)
    requires Inv(v) && v.inFlight == []
    ensures var r := AfterSettle(AfterRecordingComplete(v, audio), 0, o);
      && !r.isProcessing && r.inFlight == [] && r.played == v.played
      && r.transcribedText == (if o.Ok? then o.payload else v.transcribedText)
  {
  }

  /**
   * One conversion on an idle App, start to finish: processing is off again on
   * every outcome, the transcript is untouched, and one audio plays exactly
   * when the response is ok.
   */
  lemma TextRoundTrip(v: Shell, text: string, o: Outcome)
    requires Inv(v) && v.inFlight == []
    ensures var r := AfterSettle(AfterTextSubmit(v, text), 0, o);
      && !r.isProcessing && r.inFlight == [] && r.transcribedText == v.transcribedText
      && |r.played| == |v.played| + (if o.Ok? then 1 else 0)
      && (o.Ok? ==> r.played[|v.played|] == Origin + o.payload)
  {
  }

  /**
   * The two handlers share one flag: when two requests overlap, the first to
   * settle turns processing off while the other is still in flight, and the
   * guarded buttons come back early.
   */
  lemma SharedFlagClearsEarly(v: Shell, k: nat, o: Outcome)
    requires Inv(v) && |v.inFlight| >= 2 && k < |v.inFlight|
    ensures !AfterSettle(v, k, o).isProcessing && AfterSettle(v, k, o).inFlight != []
  {
  }

  class App {
    var transcribedText: string
    var isProcessing: bool
    /** The requests sent and not yet settled. */
    var inFlight: seq<Request>
    /** The URLs of the audio played, in order. */
    var played: seq<string>
    const recorder: VR.VoiceRecorder
    const speech: TTS.TextToSpeech

    ghost function Snapshot(): Shell
      reads this
    {
      Shell(transcribedText, isProcessing, inFlight, played)
    }

    ghost predicate Valid()
      reads this, recorder, speech
    {
      Inv(Snapshot()) && recorder.Valid() && recorder.env.mounted && speech.Valid()
    }

    /** The first render and the mount effects, in a browser that does or does not offer speech recognition. */
    constructor (recognitionSupported: bool)
      ensures Valid() && Snapshot() == Initial()
      ensures recorder.Snapshot() == VR.Mounted(recognitionSupported)
      ensures speech.Snapshot() == TTS.Initial()
      ensures fresh(recorder) && fresh(speech)
    {
      transcribedText, isProcessing, inFlight, played := "", false, [], [];
      recorder := new VR.VoiceRecorder(recognitionSupported);
      speech := new TTS.TextToSpeech();
    }

    /** `handleRecordingComplete(audioBlob)`, up to the request. */
    method HandleRecordingComplete(audio: Blob)
      requires Inv(Snapshot())
      modifies this
      ensures Inv(Snapshot()) && Snapshot() == AfterRecordingComplete(old(Snapshot()), audio)
    {
      isProcessing := true;
      inFlight := inFlight + [SpeechToText(audio)];
    }

    /** `handleTextSubmit(text)`, up to the request. */
    method HandleTextSubmit(text: string)
      requires Inv(Snapshot())
      modifies this
      ensures Inv(Snapshot()) && Snapshot() == AfterTextSubmit(old(Snapshot()), text)
    {
      isProcessing := true;
      inFlight := inFlight + [TextToSpeech(text)];
    }

    /** Request `k` settles with `o`: the rest of the handler that sent it, through `finally`. */
    method Settle(k: nat, o: Outcome)
      requires Valid() && k < |inFlight|
      modifies this
      ensures Valid() && Snapshot() == AfterSettle(old(Snapshot()), k, o)
    {
      ghost var post := AfterSettle(Snapshot(), k, o);
      var q := inFlight[k];
      inFlight := inFlight[..k] + inFlight[k + 1..];
      if o.Ok? {
        if q.SpeechToText? {
          transcribedText := o.payload;  // the recognised text becomes the transcript
        } else {
          played := played + [Origin + o.payload];  // an audio element plays the returned URL
        }
      }
      isProcessing := false;
      assert Snapshot() == post;
    }

    /** The Start Recording button (rendered when idle with no recording, enabled unless processing). */
    method StartRecording(acquired: bool)
      requires Valid() && !isProcessing && VR.StartVisible(recorder.Snapshot())
      modifies recorder
      ensures Valid() && recorder.Snapshot() == VR.AfterStart(old(recorder.Snapshot()), acquired)
    {
      recorder.StartRecording(acquired);
    }

    /** The Stop button (rendered while recording). */
    method StopRecording()
      requires Valid() && recorder.isRecording
      modifies recorder
      ensures Valid() && recorder.Snapshot() == VR.AfterStop(old(recorder.Snapshot()))
    {
      recorder.StopRecording();
    }

    /** The Pause / Resume button (rendered while recording). */
    method TogglePause()
      requires Valid() && recorder.isRecording
      modifies recorder
      ensures Valid() && recorder.Snapshot() == VR.AfterToggle(old(recorder.Snapshot()))
    {
      recorder.TogglePause();
    }

    /**
     * A recognition result batch: the recorder forwards its finals to the
     * transcript setter one by one, so the transcript ends as the batch's last
     * final, or stays as it was when the batch has none.
     */
    method OnRecognitionResult(results: seq<SpeechResult>, resultIndex: nat)
      requires Valid() && recorder.hasRecognition && resultIndex <= |results|
      modifies this, recorder
      ensures Valid() && recorder.Snapshot() == VR.AfterResult(old(recorder.Snapshot()), results, resultIndex)
      ensures transcribedText == LastFinal(results[resultIndex..], old(transcribedText))
      ensures Snapshot() == old(Snapshot()).(transcribedText := transcribedText)
    {
      var forwarded := recorder.OnResult(results, resultIndex);
      var i := 0;
      while i < |forwarded|
        modifies this
        invariant 0 <= i <= |forwarded|
        invariant transcribedText == if i == 0 then old(transcribedText) else forwarded[i - 1]
        invariant Snapshot() == old(Snapshot()).(transcribedText := transcribedText)
      {
        transcribedText := forwarded[i];  // the recorder's text callback is the transcript setter
        i := i + 1;
      }
      ReplayLast(old(transcribedText), forwarded);
      ReplayFinals(old(transcribedText), results[resultIndex..]);
    }

    /** The recorder's `stop` event for `stream`: the recording is kept and sent for transcription. */
    method OnRecorderStop(stream: nat)
      requires Valid() && stream in recorder.env.pendingStops
      modifies this, recorder
      ensures Valid() && recorder.Snapshot() == VR.AfterStopEvent(old(recorder.Snapshot()), stream)
      ensures Snapshot() == AfterRecordingComplete(old(Snapshot()), VR.Artifact(old(recorder.Snapshot())))
    {
      var audio := recorder.OnStop(stream);
      HandleRecordingComplete(audio);
    }

    /** The Retry button (rendered with a recording, enabled unless processing): the transcript is emptied too. */
    method Retry()
      requires Valid() && !isProcessing && VR.RetryVisible(recorder.Snapshot())
      modifies this, recorder
      ensures Valid() && recorder.Snapshot() == VR.AfterRetry(old(recorder.Snapshot()))
      ensures Snapshot() == old(Snapshot()).(transcribedText := "")
    {
      var update := recorder.HandleRetry();
      transcribedText := update;  // the retry empties the transcript
    }

    /** Typing in the textarea (disabled while processing). */
    method EditText(t: string)
      requires Valid() && !isProcessing
      modifies speech
      ensures Valid() && speech.Snapshot() == TTS.AfterEdit(old(speech.Snapshot()), t)
    {
      speech.Edit(t);
    }

    /** The Speak / Stop Speaking button (enabled on speakable text when not processing). */
    method Speak()
      requires Valid() && TTS.SpeakEnabled(speech.text, isProcessing)
      modifies speech
      ensures Valid() && speech.Snapshot() == TTS.AfterSpeak(old(speech.Snapshot()))
    {
      speech.SpeakText();
    }

    /** The Clear button (enabled on non-empty text when not processing). */
    method Clear()
      requires Valid() && TTS.ClearEnabled(speech.text, isProcessing)
      modifies speech
      ensures Valid() && speech.Snapshot() == TTS.AfterClear(old(speech.Snapshot()))
    {
      speech.HandleClear();
    }

    /** The Convert to Speech button: the form submits and the text goes to the backend. */
    method SubmitText()
      requires Valid() && TTS.SpeakEnabled(speech.text, isProcessing)
      modifies this
      ensures Valid() && Snapshot() == AfterTextSubmit(old(Snapshot()), speech.text)
    {
      var submitted := speech.HandleSubmit();
      TTS.Guards(speech.text, isProcessing);
      HandleTextSubmit(submitted.value);
    }

    /** The utterance `id` ends or fails. */
    method OnUtteranceEnd(id: nat)
      requires Valid() && id in speech.pendingEnds
      modifies speech
      ensures Valid() && speech.Snapshot() == TTS.AfterUtteranceEnd(old(speech.Snapshot()), id)
    {
      speech.OnUtteranceEnd(id);
    }

    /** The browser ends the recognition session. */
    method OnRecognitionEnd()
      requires Valid()
      modifies recorder
      ensures Valid() && recorder.Snapshot() == VR.AfterRecognitionEnd(old(recorder.Snapshot()))
    {
      recorder.RecognitionEnded();
    }

    /** The recorder stops on its own (its track ended, or a recording error). */
    method OnRecorderHalt()
      requires Valid() && VR.RecorderActive(recorder.Snapshot())
      modifies recorder
      ensures Valid() && recorder.Snapshot() == VR.AfterRecorderHalt(old(recorder.Snapshot()))
    {
      recorder.RecorderHalted();
    }

    /** A chunk of recorded audio arrives. */
    method OnDataAvailable(c: Chunk)
      requires Valid()
      modifies recorder
      ensures Valid() && recorder.Snapshot() == VR.AfterData(old(recorder.Snapshot()), c)
    {
      recorder.OnDataAvailable(c);
    }
  }
}
