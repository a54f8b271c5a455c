/**
 * Audio produced by speech synthesis: the in-memory byte buffer the assistant
 * fills, the stream of chunks the primary provider delivers, and which audio
 * the two-tier fallback ends up with.
 */
module Speech {
  import opened Outcomes

  type Bytes = seq<bv8>

  /** An in-memory byte stream (`io.BytesIO`): its contents and the current position. */
  class AudioBuffer {
    var data: Bytes
    var pos: nat

    ghost predicate Valid()
      reads this
    {
      pos <= |data|
    }

    /** A new, empty buffer positioned at its start. */
    constructor ()
      ensures Valid() && data == [] && pos == 0
    {
      data := [];
      pos := 0;
    }

    /** `write(b)`: overwrites from the current position on, extending the buffer as needed. */
    method Write(b: Bytes)
      requires Valid()
      modifies this
      ensures Valid()
      ensures pos == old(pos) + |b|
      ensures data == old(data[..pos]) + b
                      + old(if pos + |b| < |data| then data[pos + |b|..] else [])
    {
      var rest := if pos + |b| < |data| then data[pos + |b|..] else [];
      data := data[..pos] + b + rest;
      pos := pos + |b|;
    }

    /** `seek(0)`: moves back to the start; the contents do not change. */
    method Rewind()
      modifies this
      ensures Valid() && pos == 0 && data == old(data)
    {
      pos := 0;
    }
  }

  /**
   * What iterating the primary provider's response yields: the chunks that
   * arrive, and whether the iteration raises after the last of them.
   */
  datatype ChunkStream = ChunkStream(chunks: seq<Bytes>, raisesAfter: bool)

  /** The chunks written one after another. */
  function Flatten(chunks: seq<Bytes>): Bytes
    decreases |chunks|
  {
    if |chunks| == 0 then [] else Flatten(chunks[..|chunks| - 1]) + chunks[|chunks| - 1]
  }

  /** Flattening distributes over concatenation of chunk lists. */
  lemma {:induction false} FlattenConcat(a: seq<Bytes>, b: seq<Bytes>)
    ensures Flatten(a + b) == Flatten(a) + Flatten(b)
    decreases |b|
  {
    if |b| > 0 {
      var init := b[..|b| - 1];
      assert (a + b)[..|a + b| - 1] == a + init;
      FlattenConcat(a, init);
    } else {
      assert a + b == a;
    }
  }

  /** Chunk `i` sits, unchanged, right after all the chunks before it and right before all the chunks after it. */
  lemma {:induction false} FlattenSplit(chunks: seq<Bytes>, i: nat)
    requires i < |chunks|
    ensures Flatten(chunks) == Flatten(chunks[..i]) + chunks[i] + Flatten(chunks[i + 1..])
  {
    var before, here, after := chunks[..i], [chunks[i]], chunks[i + 1..];
    assert chunks == before + (here + after);
    FlattenConcat(before, here + after);
    FlattenConcat(here, after);
    assert here[..0] == [];
    assert Flatten(here) == chunks[i];
  }

  /** The primary tier serves the request: a client exists, the call returned, and the stream ran to its end. */
  predicate PrimaryServes(hasClient: bool, primary: Outcome<ChunkStream>)
  {
    hasClient && primary.Ok? && !primary.value.raisesAfter
  }

  /**
   * The audio the two-tier chain returns: the primary's chunks in order when
   * the primary serves, otherwise the secondary's bytes, and nothing when the
   * secondary raises too: there is no audio exactly when both tiers fail.
   */
  function SynthesizedAudio(hasClient: bool, primary: Outcome<ChunkStream>, secondary: Outcome<Bytes>): (audio: Option<Bytes>)
    ensures audio.None? <==> !PrimaryServes(hasClient, primary) && secondary.Raised?
    ensures PrimaryServes(hasClient, primary) ==> audio == Some(Flatten(primary.value.chunks))
  {
    if PrimaryServes(hasClient, primary) then Some(Flatten(primary.value.chunks))
    else if secondary.Ok? then Some(secondary.value)
    else None
  }

  /**
   * Any primary failure (no client, the call raising, the stream raising
   * part way) hands the request to the secondary, whose result is used as is.
   */
  lemma PrimaryFailureFallsBack(hasClient: bool, primary: Outcome<ChunkStream>, secondary: Outcome<Bytes>)
    requires !hasClient || primary.Raised? || (primary.Ok? && primary.value.raisesAfter)
    ensures SynthesizedAudio(hasClient, primary, secondary)
            == (if secondary.Ok? then Some(secondary.value) else None)
  {
  }

  /** When the primary serves, every chunk it streamed is in the audio, in stream order. */
  lemma PrimaryAudioKeepsChunkOrder(hasClient: bool, primary: Outcome<ChunkStream>, secondary: Outcome<Bytes>, i: nat)
    requires PrimaryServes(hasClient, primary) && i < |primary.value.chunks|
    ensures var chunks := primary.value.chunks;
      SynthesizedAudio(hasClient, primary, secondary)
        == Some(Flatten(chunks[..i]) + chunks[i] + Flatten(chunks[i + 1..]))
  {
    FlattenSplit(primary.value.chunks, i);
  }
}
