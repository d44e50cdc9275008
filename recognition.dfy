/**
 * The `onresult` handler of the live speech recognition session: a batch of
 * results is scanned from `resultIndex`; each final result is forwarded to
 * `onTextUpdate`, the non-final ones are joined into the interim transcript.
 */
module Recognition {

  /** One entry of the result list: the transcript of its first alternative and its final flag. */
  datatype SpeechResult = SpeechResult(transcript: string, isFinal: bool)

  /** The transcripts of the final results of `b`, in index order. */
  function Finals(b: seq<SpeechResult>): seq<string> {
    if b == [] then []
    else Finals(b[..|b| - 1]) + (if b[|b| - 1].isFinal then [b[|b| - 1].transcript] else [])
  }

  /** The transcripts of the non-final results of `b`, concatenated in index order. */
  function Interim(b: seq<SpeechResult>): string {
    if b == [] then ""
    else Interim(b[..|b| - 1]) + (if b[|b| - 1].isFinal then "" else b[|b| - 1].transcript)
  }

  /** The positions of the final results of `b`, in increasing order. */
  function FinalIndices(b: seq<SpeechResult>): seq<nat> {
    if b == [] then []
    else FinalIndices(b[..|b| - 1]) + (if b[|b| - 1].isFinal then [|b| - 1] else [])
  }

  /** The concatenation of every transcript of `b`. */
  function AllText(b: seq<SpeechResult>): string {
    if b == [] then "" else AllText(b[..|b| - 1]) + b[|b| - 1].transcript
  }

  /**
   * The loop of the handler: visits `results[resultIndex..]` in order and
   * returns the texts handed to `onTextUpdate` (in call order) and the new
   * interim transcript.
   */
  method ReduceBatch(results: seq<SpeechResult>, resultIndex: nat) returns (forwarded: seq<string>, interim: string)
    requires resultIndex <= |results|
    ensures forwarded == Finals(results[resultIndex..])
    ensures interim == Interim(results[resultIndex..])
  {
    forwarded, interim := [], "";
    var i := resultIndex;
    while i < |results|
      invariant resultIndex <= i <= |results|
      invariant forwarded == Finals(results[resultIndex..i])
      invariant interim == Interim(results[resultIndex..i])
    {
      assert results[resultIndex..i + 1][..i - resultIndex] == results[resultIndex..i];
      if results[i].isFinal {
        forwarded := forwarded + [results[i].transcript];
      } else {
        interim := interim + results[i].transcript;
      }
      i := i + 1;
    }
    assert results[resultIndex..i] == results[resultIndex..];
  }

  /**
   * Every final result is forwarded exactly once and in index order: the
   * forwarded texts are the transcripts at the final positions, which are
   * strictly increasing and are exactly the positions whose result is final.
   */
  lemma {:induction false} FinalsInIndexOrder(b: seq<SpeechResult>)
    ensures |Finals(b)| == |FinalIndices(b)|
    ensures forall k :: 0 <= k < |FinalIndices(b)| ==>
              FinalIndices(b)[k] < |b| && Finals(b)[k] == b[FinalIndices(b)[k]].transcript
    ensures forall k, l :: 0 <= k < l < |FinalIndices(b)| ==> FinalIndices(b)[k] < FinalIndices(b)[l]
    ensures forall j :: 0 <= j < |b| ==> (b[j].isFinal <==> j in FinalIndices(b))
  {
    if b != [] {
      var init := b[..|b| - 1];
      FinalsInIndexOrder(init);
      forall j | 0 <= j < |init| ensures init[j] == b[j] { }
    }
  }

  /** A batch of finals only leaves the interim transcript empty and forwards every transcript. */
  lemma {:induction false} AllFinalBatch(b: seq<SpeechResult>)
    requires forall j :: 0 <= j < |b| ==> b[j].isFinal
    ensures Interim(b) == ""
    ensures |Finals(b)| == |b| && forall j :: 0 <= j < |b| ==> Finals(b)[j] == b[j].transcript
  {
    if b != [] {
      AllFinalBatch(b[..|b| - 1]);
    }
  }

  /** A batch without finals forwards nothing and its interim text is all of its transcripts. */
  lemma {:induction false} NoFinalBatch(b: seq<SpeechResult>)
    requires forall j :: 0 <= j < |b| ==> !b[j].isFinal
    ensures Finals(b) == []
    ensures Interim(b) == AllText(b)
  {
    if b != [] {
      NoFinalBatch(b[..|b| - 1]);
    }
  }

  /** The value a state cell holds after the setter is called with each of `updates`, in order. */
  function Replay(current: string, updates: seq<string>): string
    decreases updates
  {
    if updates == [] then current else Replay(updates[0], updates[1..])
  }

  /** The transcript of the last final result of `b`, or `current` when `b` has none. */
  function LastFinal(b: seq<SpeechResult>, current: string): string {
    if b == [] then current
    else if b[|b| - 1].isFinal then b[|b| - 1].transcript
    else LastFinal(b[..|b| - 1], current)
  }

  /** Replaying the setter leaves the last value it was given. */
  lemma {:induction false} ReplayLast(current: string, updates: seq<string>)
    ensures Replay(current, updates) == if updates == [] then current else updates[|updates| - 1]
    decreases updates
  {
    if updates != [] {
      ReplayLast(updates[0], updates[1..]);
    }
  }

  /**
   * When every forwarded final overwrites the transcript, a batch leaves the
   * transcript of its last final result, or the old transcript if it has none.
   */
  lemma {:induction false} ReplayFinals(current: string, b: seq<SpeechResult>)
    ensures Replay(current, Finals(b)) == LastFinal(b, current)
  {
    ReplayLast(current, Finals(b));
    if b != [] && !b[|b| - 1].isFinal {
      ReplayFinals(current, b[..|b| - 1]);
      ReplayLast(current, Finals(b[..|b| - 1]));
    }
  }
}
