/**
 * The text-to-speech component: the text field, the local "Speak" toggle
 * driving the browser's speech synthesis engine, and the submit gate in front
 * of the server-side conversion.
 *
 * As for the recorder, each handler and each utterance callback is one
 * atomic step, defined on a `Speech` view by a transition function and
 * performed on the fields of the class `TextToSpeech`.
 */
module TextToSpeechComponent {
  import opened Optional
  import opened JsText

  /** A `SpeechSynthesisUtterance`, named by creation number, with the text it speaks. */
  datatype Utterance = Utterance(id: nat, text: string)

  /**
   * The component's state (`text`, `isSpeaking`, `utteranceRef.current`) and
   * the engine underneath: the utterances queued or being spoken, the
   * utterances whose `end` or `error` event is still to come (a cancelled
   * utterance still reports `error`), and the next utterance number.
   */
  datatype Speech = Speech(
    text: string, isSpeaking: bool, current: Option<Utterance>,
    queue: seq<Utterance>, pendingEnds: set<nat>, nextUtterance: nat)

  /**
   * At most one utterance is ever queued, and it is the current one; while the
   * component says it is speaking, the engine holds exactly that utterance;
   * every queued utterance still owes its end event.
   */
  predicate Inv(v: Speech) {
    && (v.queue == [] || (v.current.Some? && v.queue == [v.current.value]))
    && (v.isSpeaking ==> v.current.Some? && v.queue == [v.current.value])
    && (v.current.Some? ==> v.current.value.id < v.nextUtterance)
    && (forall u :: u in v.queue ==> u.id in v.pendingEnds)
    && (forall id :: id in v.pendingEnds ==> id < v.nextUtterance)
  }

  function Initial(): (r: Speech)
    ensures Inv(r) && r.text == "" && !r.isSpeaking && r.current.None? && r.queue == []
  {
    Speech("", false, None, [], {}, 0)
  }

  /** The Speak button and the Convert to Speech button are enabled. */
  predicate SpeakEnabled(text: string, isProcessing: bool) {
    !IsBlank(text) && !isProcessing
  }

  /** The Clear button is enabled. */
  predicate ClearEnabled(text: string, isProcessing: bool) {
    text != "" && !isProcessing
  }

  /** The Speak and Convert buttons are enabled exactly on text that is not all whitespace, and then Clear is too. */
  lemma Guards(text: string, isProcessing: bool)
    ensures SpeakEnabled(text, isProcessing) <==> !AllWhitespace(text) && !isProcessing
    ensures SpeakEnabled(text, isProcessing) ==> ClearEnabled(text, isProcessing)
  {
    BlankIffAllWhitespace(text);
  }

  /** The textarea's `onChange`. */
  function AfterEdit(v: Speech, t: string): (r: Speech)
    requires Inv(v)
    ensures Inv(r) && r.text == t
    ensures r.isSpeaking == v.isSpeaking && r.current == v.current && r.queue == v.queue
    ensures r == v.(text := t)
  {
    v.(text := t)
  }

  /**
   * What `handleSubmit` hands to `onTextSubmit`: the text as typed, untrimmed,
   * when it is not all whitespace, and nothing otherwise.
   */
  function Submission(v: Speech): (r: Option<string>)
    ensures r.Some? <==> !AllWhitespace(v.text)
    ensures r.Some? ==> r.value == v.text
  {
    BlankIffAllWhitespace(v.text);
    if !IsBlank(v.text) then Some(v.text) else None
  }

  /**
   * `speakText`. While speaking it cancels the engine and stops, creating no
   * utterance. Otherwise blank text changes nothing; any other text cancels
   * the engine if an utterance was ever created, queues a fresh utterance of
   * the text, makes it current and sets `isSpeaking`.
   */
  function AfterSpeak(v: Speech): (r: Speech)
    requires Inv(v)
    ensures Inv(r) && r.text == v.text
    ensures v.isSpeaking ==> && !r.isSpeaking && r.queue == [] && r.current == v.current
                             && r.nextUtterance == v.nextUtterance && r.pendingEnds == v.pendingEnds
    ensures !v.isSpeaking && IsBlank(v.text) ==> r == v
    ensures !v.isSpeaking && !IsBlank(v.text) ==>
              && r.isSpeaking && r.current == Some(Utterance(v.nextUtterance, v.text))
              && r.queue == [r.current.value]
              && v.nextUtterance !in v.pendingEnds && r.pendingEnds == v.pendingEnds + {v.nextUtterance}
  {
    if v.isSpeaking then
      v.(queue := [], isSpeaking := false)
    else if !IsBlank(v.text) then
      var u := Utterance(v.nextUtterance, v.text);
      v.(queue := [u], current := Some(u), pendingEnds := v.pendingEnds + {u.id},
         nextUtterance := v.nextUtterance + 1, isSpeaking := true)
    else
      v
  }

  /** Pressing Speak twice on speakable text starts an utterance and stops it again: the engine is silent. */
  lemma SpeakTwice(v: Speech)
    requires Inv(v) && !v.isSpeaking && !IsBlank(v.text)
    ensures !AfterSpeak(AfterSpeak(v)).isSpeaking && AfterSpeak(AfterSpeak(v)).queue == []
    ensures AfterSpeak(AfterSpeak(v)).current == Some(Utterance(v.nextUtterance, v.text))
  {
  }

  /**
   * `handleClear`: the text is always emptied; if an utterance was ever
   * created the engine is cancelled and `isSpeaking` cleared, otherwise
   * nothing else changes.
   */
  function AfterClear(v: Speech): (r: Speech)
    requires Inv(v)
    ensures Inv(r) && r.text == "" && r.current == v.current
    ensures v.current.Some? ==> !r.isSpeaking && r.queue == []
    ensures v.current.Some? ==> r == v.(text := "", queue := [], isSpeaking := false)
    ensures v.current.None? ==> r == v.(text := "")
  {
    if v.current.Some? then v.(text := "", queue := [], isSpeaking := false) else v.(text := "")
  }

  /**
   * The `end` or `error` event of utterance `id`: the engine drops it, and
   * `isSpeaking` is cleared whichever utterance it was, the current one or a
   * cancelled one reporting late.
   */
  function AfterUtteranceEnd(v: Speech, id: nat): (r: Speech)
    requires Inv(v) && id in v.pendingEnds
    ensures Inv(r) && !r.isSpeaking && r.text == v.text && r.current == v.current
    ensures id !in r.pendingEnds && r.pendingEnds == v.pendingEnds - {id}
    ensures forall u :: u in r.queue <==> u in v.queue && u.id != id
  {
    v.(isSpeaking := false, pendingEnds := v.pendingEnds - {id},
       queue := if v.queue != [] && v.queue[0].id == id then [] else v.queue)
  }

  /**
   * A cancelled utterance reporting late silences the toggle of a newer one
   * still being spoken: the Speak button then shows "Speak" over live speech.
   */
  lemma StaleEndHidesSpeech(v: Speech, id: nat)
    requires Inv(v) && v.isSpeaking && id in v.pendingEnds && id != v.current.value.id
    ensures !AfterUtteranceEnd(v, id).isSpeaking
    ensures AfterUtteranceEnd(v, id).queue == [v.current.value]
  {
  }

  class TextToSpeech {
    var text: string
    var isSpeaking: bool
    /** `utteranceRef.current`. */
    var current: Option<Utterance>
    /** The speech synthesis engine. */
    var queue: seq<Utterance>
    var pendingEnds: set<nat>
    var nextUtterance: nat

    ghost function Snapshot(): Speech
      reads this
    {
      Speech(text, isSpeaking, current, queue, pendingEnds, nextUtterance)
    }

    ghost predicate Valid()
      reads this
    {
      Inv(Snapshot())
    }

    constructor ()
      ensures Valid() && Snapshot() == Initial()
    {
      text, isSpeaking, current := "", false, None;
      queue, pendingEnds, nextUtterance := [], {}, 0;
    }

    /** The textarea's `onChange` with the new value. */
    method Edit(t: string)
      requires Valid()
      modifies this
      ensures Valid() && Snapshot() == AfterEdit(old(Snapshot()), t)
    {
      text := t;
    }

    /** `handleSubmit`; returns the argument of its `onTextSubmit` call, if it makes one. */
    method HandleSubmit() returns (submitted: Option<string>)
      requires Valid()
      ensures submitted == Submission(Snapshot())
    {
      if !IsBlank(text) {
        submitted := Some(text);
      } else {
        submitted := None;
      }
    }

    /** `speakText`. */
    method SpeakText()
      requires Valid()
      modifies this
      ensures Valid() && Snapshot() == AfterSpeak(old(Snapshot()))
    {
      ghost var post := AfterSpeak(Snapshot());
      if isSpeaking {
        queue := [];  // the engine cancels all speech
        isSpeaking := false;
        assert Snapshot() == post;
        return;
      }
      if !IsBlank(text) {
        if current.Some? {
          queue := [];  // the engine cancels all speech
        }
        var u := Utterance(nextUtterance, text);
        nextUtterance := nextUtterance + 1;
        current := Some(u);
        queue, pendingEnds := queue + [u], pendingEnds + {u.id};  // the engine queues the utterance
        isSpeaking := true;
      }
      assert Snapshot() == post;
    }

    /** `handleClear`. */
    method HandleClear()
      requires Valid()
      modifies this
      ensures Valid() && Snapshot() == AfterClear(old(Snapshot()))
    {
      text := "";
      if current.Some? {
        queue := [];  // the engine cancels all speech
        isSpeaking := false;
      }
    }

    /** `onend` / `onerror` of utterance `id`, delivered by the engine. */
    method OnUtteranceEnd(id: nat)
      requires Valid() && id in pendingEnds
      modifies this
      ensures Valid() && Snapshot() == AfterUtteranceEnd(old(Snapshot()), id)
    {
      if queue != [] && queue[0].id == id {
        queue := [];
      }
      pendingEnds := pendingEnds - {id};
      isSpeaking := false;
    }
  }
}
