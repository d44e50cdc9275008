# Voice AI front end: a Dafny model of its client-side state

The Voice AI System is a small web application: a React front end records
speech, shows a live transcript and asks a Flask backend to transcribe the
recording, and it reads typed text aloud, either locally through the browser's
speech synthesis or by asking the backend for generated audio. This project
models the front end's state handling:

- the recording component (`VoiceRecorder.tsx`): its state flags, the chunk
  buffer, the reducer over speech recognition result batches, the object URL of
  the recording, and the handlers and callbacks that drive them;
- the text-to-speech component (`TextToSpeech.tsx`): the text field, the local
  Speak/Stop toggle and the gate in front of submission;
- the App shell (`App.tsx`): the shared `transcribedText` and `isProcessing`
  state and the two request handlers.

Every handler and every browser callback is one atomic step. The browser sits
underneath as explicit state that the steps change: the microphone streams that
are held, the recorders whose `stop` event is still to come, whether the
recognition session runs, the object URLs not yet revoked, the speech engine's
queue and the utterances whose end event is pending. Outcomes the browser or the
network decide are parameters: whether `getUserMedia` grants the microphone, the
chunks and result batches delivered, and how a request settles (`Ok(payload)`,
`NotOk` or `Thrown`).

Each component is modelled in two layers:

- a datatype holding a snapshot of the whole state (`View`, `Speech`, `Shell`);
- a transition function per step on that snapshot. Each function proves that
  the step preserves the component invariant (`Inv`) and states what the
  handler promises.

Each component is also a class whose fields are the React state, the refs and
the browser objects. Its methods perform the steps in place. Each method is
specified by its transition function: `Snapshot() == AfterX(old(Snapshot()))`.
`AppShell.App` owns one recorder and one text-to-speech component. It wires
them the way the JSX does, so each button is a method whose precondition is its
visibility or `disabled` guard.

Modules: `Optional` (the nullable value), `JsText` (`String.prototype.trim`),
`Media` (bytes, chunks, blobs, object URLs), `Recognition` (result batches and
the `onresult` loop), `VoiceRecorderComponent`, `TextToSpeechComponent`,
`AppShell`.

Behaviours of the code that the model states and proves:

- A final recognition result replaces the whole transcript, since
  `onTextUpdate` is `setTranscribedText` (`App.tsx:91`). Finals are not
  appended to a growing confirmed transcript. After a batch, the transcript is
  the batch's last final (`Recognition.ReplayFinals`).
- The interim text is the concatenation of every non-final result of the
  batch from `resultIndex` on. It is not the latest non-final fragment.
- `stopRecording` stops only the MediaRecorder. The recognition session keeps
  running until the browser ends it or the component unmounts. If the session
  is still running when recording starts again, `recognition.start()` throws
  (InvalidStateError in the Web Speech API). The `catch` then shows the
  microphone-permission message although the microphone was granted. The
  stream acquired by that attempt is never released
  (`VoiceRecorderComponent.RestartWhileRecognitionRuns`).
- The two request handlers share one `isProcessing` flag. The first request to
  settle turns it off even while another is still in flight
  (`AppShell.SharedFlagClearsEarly`).
- A cancelled utterance that reports its `error` event late clears
  `isSpeaking` while a newer utterance is still being spoken
  (`TextToSpeechComponent.StaleEndHidesSpeech`).
- The recording is typed `audio/wav`, although the recorder produces
  `audio/webm;codecs=opus`.
- `handleRetry` clears the recording and its URL but not the chunk buffer. The
  buffer is emptied only when the next recording starts
  (`VoiceRecorderComponent.AfterRetry` keeps `chunks`).
- No handler watches the recorder itself. If it stops on its own while
  recording (its track ends, or a recording error), its `stop` event still
  delivers the recording, but `isRecording` stays true. Stop and Pause stay
  rendered, Pause does nothing, and Start comes back only after Stop
  (`VoiceRecorderComponent.HaltLeavesRecordingShown`).

## Model

| member | source | states |
|---|---|---|
| `JsText.TrimStartDropsLeading` | frontend/src/components/TextToSpeech.tsx:17 | leading trim removes exactly a whitespace prefix; what remains is a suffix of the input and starts with a non-whitespace character |
| `JsText.TrimEndDropsTrailing` | frontend/src/components/TextToSpeech.tsx:17 | trailing trim removes exactly a whitespace suffix; what remains is a prefix of the input and ends with a non-whitespace character |
| `JsText.TrimHasNoOuterWhitespace` | frontend/src/components/TextToSpeech.tsx:29 | `trim()` is no longer than its input, and a non-empty result neither starts nor ends with whitespace |
| `JsText.BlankIffAllWhitespace` | frontend/src/components/TextToSpeech.tsx:29 | `!text.trim()` holds exactly when every character of the text is ECMAScript whitespace (both directions) |
| `Media.NonEmptyPositive` | frontend/src/components/VoiceRecorder.tsx:86-87 | the size filter keeps exactly the delivered chunks of positive size: each kept chunk was delivered and is non-empty, and each non-empty delivered chunk is kept |
| `Media.ConcatNonEmpty` | frontend/src/components/VoiceRecorder.tsx:86-92 | dropping empty chunks never changes the bytes of the Blob built from the buffer |
| `Recognition.ReduceBatch` | frontend/src/components/VoiceRecorder.tsx:40-49 | the loop from `resultIndex` to the end forwards exactly the final transcripts in index order, and its interim text is the in-order concatenation of the non-final ones |
| `Recognition.FinalsInIndexOrder` | frontend/src/components/VoiceRecorder.tsx:42-47 | the forwarded texts are the transcripts of the final results, one per final result, at strictly increasing indices, and no non-final result is forwarded |
| `Recognition.AllFinalBatch` | frontend/src/components/VoiceRecorder.tsx:41-49 | a batch of finals only leaves the interim text empty and forwards every result, in order |
| `Recognition.NoFinalBatch` | frontend/src/components/VoiceRecorder.tsx:42-48 | a batch without finals forwards nothing, and its interim text is all of its text |
| `Recognition.ReplayLast` | frontend/src/App.tsx:91 | calling the transcript setter with a sequence of values leaves the last value, or the old transcript when there is none |
| `Recognition.ReplayFinals` | frontend/src/components/VoiceRecorder.tsx:43-44 | after a batch, the transcript is the batch's last final transcript, or the old transcript when the batch has no final |
| `VoiceRecorderComponent.Mounted` | frontend/src/components/VoiceRecorder.tsx:20-53 | the first render holds no recording, no recorder, no held stream, no live URL and no running recognition; a recognition object exists exactly when supported |
| `VoiceRecorderComponent.AfterStart` | frontend/src/components/VoiceRecorder.tsx:70-108 | error and interim text are cleared first. Recording starts exactly when the microphone is granted and no recognition session runs, and then unpaused and with recognition running iff it exists. A denial sets the fixed message and changes nothing else. A grant empties the buffer and installs a recorder on a fresh stream. A busy recognition session sets the message, leaves that recorder inactive and the session running, and the stream is held for good. Per branch, every other field (recording, URL, recognition support, the other streams and URLs) is stated unchanged |
| `VoiceRecorderComponent.AfterStop` | frontend/src/components/VoiceRecorder.tsx:110-116 | without `isRecording` nothing changes. Otherwise both flags end false, and an active recorder is stopped, its stream awaiting its stop event; a recorder already inactive is left alone. Nothing else changes |
| `VoiceRecorderComponent.AfterRecorderHalt` | frontend/src/components/VoiceRecorder.tsx:85-103 | a recorder stopping on its own goes inactive and its stream awaits its stop event, while `isRecording` and `isPaused` stay as they were; nothing else changes |
| `VoiceRecorderComponent.HaltLeavesRecordingShown` | frontend/src/components/VoiceRecorder.tsx:151-196 | after a self-stop and its stop event, the recording is shown for replay while Stop and Pause stay rendered and Pause does nothing; Retry alone does not bring Start back, Stop then Retry does |
| `VoiceRecorderComponent.StopTwice` | frontend/src/components/VoiceRecorder.tsx:110-116 | a second stop changes nothing |
| `VoiceRecorderComponent.AfterToggle` | frontend/src/components/VoiceRecorder.tsx:118-128 | with an active recorder, `isPaused` flips and only the recorder's state follows it (recognition untouched); without one (`pause()`/`resume()` throw on an inactive recorder) nothing changes |
| `VoiceRecorderComponent.ToggleTwice` | frontend/src/components/VoiceRecorder.tsx:118-128 | pause followed by resume restores the state exactly |
| `VoiceRecorderComponent.AfterData` | frontend/src/components/VoiceRecorder.tsx:85-89 | only the buffer and the delivered chunks change, and the buffer's bytes are all the bytes delivered since it was emptied, in order |
| `VoiceRecorderComponent.DataAppends` | frontend/src/components/VoiceRecorder.tsx:85-89 | a chunk of positive size is appended at the end, an empty one is dropped, and the chunks already buffered are neither reordered nor removed |
| `VoiceRecorderComponent.Artifact` | frontend/src/components/VoiceRecorder.tsx:92 | the Blob is typed `audio/wav` and its bytes are every delivered byte, in order |
| `VoiceRecorderComponent.AfterStopEvent` | frontend/src/components/VoiceRecorder.tsx:91-99 | the recording becomes the artifact under a fresh object URL. The previous URL is revoked, so exactly one URL is live. The stream's tracks are released. Nothing else changes: buffer, flags, recorder, recognition and the other streams |
| `VoiceRecorderComponent.AfterResult` | frontend/src/components/VoiceRecorder.tsx:40-50 | the interim text is replaced by the batch's non-final text, not accumulated, is empty after a batch of finals only, and nothing else changes |
| `VoiceRecorderComponent.AfterRetry` | frontend/src/components/VoiceRecorder.tsx:136-140 | the recording and its URL are cleared and that URL (never `''`) is revoked; nothing else changes |
| `VoiceRecorderComponent.RetryIdempotent` | frontend/src/components/VoiceRecorder.tsx:136-140 | retrying twice is retrying once |
| `VoiceRecorderComponent.RestartWhileRecognitionRuns` | frontend/src/components/VoiceRecorder.tsx:81-83 | record, stop, stop event, retry: Start comes back with recognition still running. A second granted start then fails with the permission message, does not record, and leaks its stream |
| `VoiceRecorderComponent.AfterRecognitionEnd` | frontend/src/components/VoiceRecorder.tsx:37-38 | the browser ending the continuous session only clears the running flag |
| `VoiceRecorderComponent.AfterUnmount` | frontend/src/components/VoiceRecorder.tsx:55-68 | after the cleanups no object URL is live and recognition is stopped; nothing else changes, so held streams stay held |
| `VoiceRecorderComponent.VoiceRecorder.constructor` | frontend/src/components/VoiceRecorder.tsx:20-53 | the mounted component is the state of `Mounted` |
| `VoiceRecorderComponent.VoiceRecorder.StartRecording` | frontend/src/components/VoiceRecorder.tsx:70-108 | performs `AfterStart` on the fields and keeps the invariant |
| `VoiceRecorderComponent.VoiceRecorder.StopRecording` | frontend/src/components/VoiceRecorder.tsx:110-116 | performs `AfterStop` on the fields and keeps the invariant |
| `VoiceRecorderComponent.VoiceRecorder.TogglePause` | frontend/src/components/VoiceRecorder.tsx:118-128 | performs `AfterToggle` on the fields and keeps the invariant |
| `VoiceRecorderComponent.VoiceRecorder.OnDataAvailable` | frontend/src/components/VoiceRecorder.tsx:85-89 | performs `AfterData` on the buffer and keeps the invariant |
| `VoiceRecorderComponent.VoiceRecorder.OnStop` | frontend/src/components/VoiceRecorder.tsx:91-99 | hands `Artifact` of the buffer to the completion callback once and performs `AfterStopEvent` |
| `VoiceRecorderComponent.VoiceRecorder.OnResult` | frontend/src/components/VoiceRecorder.tsx:40-50 | forwards exactly the batch's finals in index order and performs `AfterResult` |
| `VoiceRecorderComponent.VoiceRecorder.HandleRetry` | frontend/src/components/VoiceRecorder.tsx:136-140 | performs `AfterRetry` and passes `''` to the transcript callback |
| `VoiceRecorderComponent.VoiceRecorder.RecorderHalted` | frontend/src/components/VoiceRecorder.tsx:85-103 | performs `AfterRecorderHalt` |
| `VoiceRecorderComponent.VoiceRecorder.RecognitionEnded` | frontend/src/components/VoiceRecorder.tsx:37-38 | performs `AfterRecognitionEnd` |
| `VoiceRecorderComponent.VoiceRecorder.Unmount` | frontend/src/components/VoiceRecorder.tsx:55-68 | performs `AfterUnmount`: both effect cleanups |
| `TextToSpeechComponent.Initial` | frontend/src/components/TextToSpeech.tsx:10-12 | empty text, not speaking, no utterance, silent engine |
| `TextToSpeechComponent.Guards` | frontend/src/components/TextToSpeech.tsx:76-105 | Speak and Convert are enabled exactly on text that is not all whitespace while not processing, and then Clear is enabled too |
| `TextToSpeechComponent.AfterEdit` | frontend/src/components/TextToSpeech.tsx:66 | typing changes the text only: every other field, including the pending end events, is stated unchanged |
| `TextToSpeechComponent.Submission` | frontend/src/components/TextToSpeech.tsx:15-20 | the untrimmed text is submitted exactly when it is not all whitespace; otherwise nothing is submitted |
| `TextToSpeechComponent.AfterSpeak` | frontend/src/components/TextToSpeech.tsx:22-42 | while speaking: the engine is cancelled, `isSpeaking` ends false and no utterance is created. Otherwise blank text changes nothing. Other text queues a fresh utterance of the text as the only one in the engine, makes it current and sets `isSpeaking`. At most one utterance is ever queued |
| `TextToSpeechComponent.SpeakTwice` | frontend/src/components/TextToSpeech.tsx:23-40 | Speak then Stop Speaking leaves the engine silent, not speaking, with the new utterance current |
| `TextToSpeechComponent.AfterClear` | frontend/src/components/TextToSpeech.tsx:44-50 | the text is always emptied; engine cancel and `isSpeaking = false` happen exactly when an utterance was ever created; nothing else changes in either case |
| `TextToSpeechComponent.AfterUtteranceEnd` | frontend/src/components/TextToSpeech.tsx:35-36 | any utterance's end or error clears `isSpeaking`, whether or not it is current, and the engine drops that utterance only |
| `TextToSpeechComponent.StaleEndHidesSpeech` | frontend/src/components/TextToSpeech.tsx:35-36 | a late event of an older utterance clears `isSpeaking` while the current utterance is still queued |
| `TextToSpeechComponent.TextToSpeech.constructor` | frontend/src/components/TextToSpeech.tsx:10-12 | the mounted component is the state of `Initial` |
| `TextToSpeechComponent.TextToSpeech.Edit` | frontend/src/components/TextToSpeech.tsx:66 | performs `AfterEdit` |
| `TextToSpeechComponent.TextToSpeech.HandleSubmit` | frontend/src/components/TextToSpeech.tsx:15-20 | calls `onTextSubmit` with the value `Submission` prescribes, and changes no state |
| `TextToSpeechComponent.TextToSpeech.SpeakText` | frontend/src/components/TextToSpeech.tsx:22-42 | performs `AfterSpeak` and keeps the single-utterance invariant |
| `TextToSpeechComponent.TextToSpeech.HandleClear` | frontend/src/components/TextToSpeech.tsx:44-50 | performs `AfterClear` |
| `TextToSpeechComponent.TextToSpeech.OnUtteranceEnd` | frontend/src/components/TextToSpeech.tsx:35-36 | performs `AfterUtteranceEnd` |
| `AppShell.Wire` | frontend/src/App.tsx:13-48 | a speech-to-text request posts the recording to the speech-to-text URL as form field `audio` with file name `recording.wav`; a text-to-speech request posts the text unchanged, as JSON, to the text-to-speech URL |
| `AppShell.WireInjective` | frontend/src/App.tsx:13-48 | what is posted determines the request |
| `AppShell.Initial` | frontend/src/App.tsx:7-8 | empty transcript, not processing, nothing in flight, nothing played |
| `AppShell.AfterRecordingComplete` | frontend/src/App.tsx:10-24 | processing turns on before the request, the recording is sent, and the transcript and playback are untouched |
| `AppShell.AfterTextSubmit` | frontend/src/App.tsx:39-48 | processing turns on before the request, the text is sent, and the transcript and playback are untouched |
| `AppShell.AfterSettle` | frontend/src/App.tsx:26-62 | processing is off on every outcome. A speech-to-text answer replaces the transcript with its text only when ok, otherwise leaves it. A text-to-speech answer never touches the transcript and plays exactly one audio at `http://localhost:5000` + its URL only when ok |
| `AppShell.RecordingRoundTrip` | frontend/src/App.tsx:10-37 | one recording on an idle App ends with processing off and nothing in flight; the transcript is the recognised text exactly when the response is ok |
| `AppShell.TextRoundTrip` | frontend/src/App.tsx:39-63 | one conversion on an idle App ends with processing off and the transcript untouched; one audio plays, at the origin plus the returned URL, exactly when the response is ok |
| `AppShell.SharedFlagClearsEarly` | frontend/src/App.tsx:34-36 | with two requests in flight, the first to settle turns processing off while the other is still pending |
| `AppShell.App.constructor` | frontend/src/App.tsx:7-8 | the App starts in `Initial` with a freshly mounted recorder and text-to-speech component |
| `AppShell.App.HandleRecordingComplete` | frontend/src/App.tsx:10-24 | performs `AfterRecordingComplete` |
| `AppShell.App.HandleTextSubmit` | frontend/src/App.tsx:39-48 | performs `AfterTextSubmit` |
| `AppShell.App.Settle` | frontend/src/App.tsx:26-62 | performs `AfterSettle` for the request that settles |
| `AppShell.App.StartRecording` | frontend/src/components/VoiceRecorder.tsx:151-154 | Start Recording, available only when idle, without a recording and not processing, performs `AfterStart` |
| `AppShell.App.StopRecording` | frontend/src/components/VoiceRecorder.tsx:162-165 | Stop, available while recording, performs `AfterStop` |
| `AppShell.App.TogglePause` | frontend/src/components/VoiceRecorder.tsx:172-173 | Pause/Resume, available while recording, performs `AfterToggle` |
| `AppShell.App.OnRecognitionResult` | frontend/src/App.tsx:89-92 | each forwarded final overwrites the transcript in turn, so it ends as the batch's last final, or unchanged without one; the recorder performs `AfterResult` |
| `AppShell.App.OnRecorderStop` | frontend/src/components/VoiceRecorder.tsx:91-95 | the recorder performs `AfterStopEvent` and its artifact is sent exactly once for transcription |
| `AppShell.App.Retry` | frontend/src/components/VoiceRecorder.tsx:206-208 | Retry, available with a recording when not processing, performs `AfterRetry` and empties the transcript, nothing else of the App changes |
| `AppShell.App.EditText` | frontend/src/components/TextToSpeech.tsx:65-67 | typing, disabled while processing, performs `AfterEdit` |
| `AppShell.App.Speak` | frontend/src/components/TextToSpeech.tsx:82-85 | Speak / Stop Speaking, enabled on speakable text when not processing, performs `AfterSpeak` |
| `AppShell.App.Clear` | frontend/src/components/TextToSpeech.tsx:73-76 | Clear, enabled on non-empty text when not processing, performs `AfterClear` |
| `AppShell.App.SubmitText` | frontend/src/components/TextToSpeech.tsx:103-105 | Convert to Speech, enabled on speakable text when not processing, sends the untrimmed text via `AfterTextSubmit` |
| `AppShell.App.OnUtteranceEnd` | frontend/src/components/TextToSpeech.tsx:35-36 | an utterance's end or error performs `AfterUtteranceEnd` |
| `AppShell.App.OnRecognitionEnd` | frontend/src/components/VoiceRecorder.tsx:37-38 | the browser ending recognition performs `AfterRecognitionEnd` |
| `AppShell.App.OnRecorderHalt` | frontend/src/components/VoiceRecorder.tsx:85-103 | the recorder stopping on its own performs `AfterRecorderHalt` |
| `AppShell.App.OnDataAvailable` | frontend/src/components/VoiceRecorder.tsx:85-89 | a delivered chunk performs `AfterData` |

## Left out

- The backend (`backend/app/__init__.py`, `backend/run.py`). It is Flask routes over foreign speech libraries, temporary files and socket handlers. The model starts at the HTTP boundary: a settling request is an abstract `Ok(payload)`, `NotOk` or `Thrown`.
- Response parsing: `Thrown` also stands for a body that is not JSON. A JSON answer without `text` or `url` is not modelled; the payload is always a string.
- Request headers (`Accept`, `Content-Type`) and the JSON and multipart encodings are not modelled: a request posts its URL and its logical body (`Wire`).
- Audio content: chunks are opaque byte strings. Whether the bytes labelled `audio/wav` are really WAV is not modelled (they are WebM/Opus).
- `playRecordedAudio`, the `<audio>` element and `new Audio(...).play()`: playback is I/O. The App only records which URL it plays.
- Asynchronous interleaving inside a handler: `startRecording`'s `await getUserMedia` is collapsed into one step, so a second click while the permission prompt is open is not modelled. React's batching of `setState` and stale closures are not modelled either; each step sees and updates the current state.
- A browser without MediaRecorder support for `audio/webm;codecs=opus`: its NotSupportedError would take the same `catch` path as a busy recognition session. It is not modelled as a separate outcome of `StartRecording`.
- Why a recorder stops on its own (a track ending, a device unplugged, an error) is not modelled: only that it goes inactive and fires `stop` (`RecorderHalted`). `stop()` on a recorder that is already inactive is modelled as returning at once, as the MediaStream Recording specification prescribes.
- The recognition session's own `onerror`/`onend`: the component installs no handlers for them. Only their effect, the session no longer running, is modelled (`RecognitionEnded`).
- Only the first alternative (`[0]`) of each recognition result is read by the code. The model keeps just that transcript per result.
- A result event whose `resultIndex` exceeds the number of results is excluded by `ReduceBatch`'s precondition. The browser never delivers one.
- Events that arrive after unmount (a late `stop` event setting state on an unmounted component) are not modelled: every step requires a mounted component.
- Re-running the recognition effect when `onTextUpdate` changes identity is not modelled. The App passes the state setter, which is stable, so the effect runs once per mount.
- The App is never unmounted in the model. The recorder's unmount is modelled on the component itself (`VoiceRecorder.Unmount`).
