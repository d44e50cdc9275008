/**
 * Audio data as the recorder sees it: opaque byte chunks delivered by the
 * MediaRecorder, the Blob built from them, and object URLs naming a Blob.
 */
module Media {

  newtype byte = x: int | 0 <= x < 256

  /** One `dataavailable` payload; its `size` is its length. */
  type Chunk = seq<byte>

  /** A Blob: its bytes and its declared MIME type. */
  datatype Blob = Blob(bytes: seq<byte>, mimeType: string)

  /** An `audioUrl` value: '' or a URL made by `URL.createObjectURL`, named by a creation number. */
  datatype Url = NoUrl | ObjectUrl(id: nat)

  /** The type the finished recording is labelled with. */
  const ArtifactMimeType: string := "audio/wav"

  /** The URLs a `audioUrl` value holds alive. */
  function UrlIds(u: Url): set<nat> {
    if u.ObjectUrl? then {u.id} else {}
  }

  /** The bytes of `new Blob(cs)`: the chunks' bytes, in order. */
  function Concat(cs: seq<Chunk>): seq<byte> {
    if cs == [] then [] else Concat(cs[..|cs| - 1]) + cs[|cs| - 1]
  }

  /** The chunks of `cs` whose size is positive, in their original order. */
  function NonEmpty(cs: seq<Chunk>): seq<Chunk> {
    if cs == [] then []
    else NonEmpty(cs[..|cs| - 1]) + (if |cs[|cs| - 1]| > 0 then [cs[|cs| - 1]] else [])
  }

  /** Appending a chunk appends its bytes. */
  lemma ConcatSnoc(cs: seq<Chunk>, c: Chunk)
    ensures Concat(cs + [c]) == Concat(cs) + c
  {
  }

  /** Filtering one more chunk filters the old ones the same way and keeps the new one only if it is non-empty. */
  lemma NonEmptySnoc(cs: seq<Chunk>, c: Chunk)
    ensures NonEmpty(cs + [c]) == NonEmpty(cs) + (if |c| > 0 then [c] else [])
  {
  }

  /** The filter keeps exactly the chunks of positive size: every kept chunk was delivered and is non-empty, and every non-empty delivered chunk is kept. */
  lemma {:induction false} NonEmptyPositive(cs: seq<Chunk>)
    ensures forall i :: 0 <= i < |NonEmpty(cs)| ==> |NonEmpty(cs)[i]| > 0
    ensures forall c :: c in NonEmpty(cs) <==> c in cs && |c| > 0
  {
    if cs != [] {
      var init, last := cs[..|cs| - 1], cs[|cs| - 1];
      NonEmptyPositive(init);
      assert cs == init + [last];
    }
  }

  /** Skipping empty chunks loses no byte: the filtered buffer carries exactly the delivered audio. */
  lemma {:induction false} ConcatNonEmpty(cs: seq<Chunk>)
    ensures Concat(NonEmpty(cs)) == Concat(cs)
  {
    if cs != [] {
      var init, last := cs[..|cs| - 1], cs[|cs| - 1];
      ConcatNonEmpty(init);
      if |last| > 0 {
        ConcatSnoc(NonEmpty(init), last);
      } else {
        assert NonEmpty(cs) == NonEmpty(init);
        assert Concat(cs) == Concat(init) + last == Concat(init);
      }
    }
  }
}
