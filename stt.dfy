/** The speech-to-text buffer of the worker (apps/agent/src/stt-component.ts):
    a FIFO of PCM chunks under a 1 MiB cap, concatenated and handed to the
    Whisper model on `transcribe`.

    The eviction loop tests a `totalSize` computed once before it, never
    recomputed as chunks are shifted out. Whenever the pushed total is over
    the cap, the loop therefore runs until a single chunk, the newest, is
    left. The model follows that code. */
module SpeechToText {
  import opened Common

  const BYTES_PER_KB := 1024
  const KB_PER_MB := 1024
  const MAX_BUFFER_SIZE := KB_PER_MB * BYTES_PER_KB

  /** The Whisper call: it throws (with the error it propagates), resolves to
      `null` or `undefined`, or returns optional `text` and `transcription`
      fields. */
  datatype WhisperReply =
    | WhisperFailed(error: string)
    | WhisperNullish
    | WhisperResult(text: Option<string>, transcription: Option<string>)

  /** The `TypeError` that reading `text` of a nullish reply throws, by its
      name. */
  const NULLISH_REPLY := "TypeError"

  /** The buffer `addAudioChunk(chunk)` leaves behind. */
  function Pushed(buffer: seq<seq<byte>>, chunk: seq<byte>): (after: seq<seq<byte>>)
    ensures 0 < |after| && after[|after| - 1] == chunk
  {
    var grown := buffer + [chunk];
    if TotalLength(grown) > MAX_BUFFER_SIZE && |grown| > 1 then [chunk] else grown
  }

  /** The buffer after pushing each chunk in turn. */
  function PushAll(buffer: seq<seq<byte>>, chunks: seq<seq<byte>>): (after: seq<seq<byte>>)
    ensures chunks != [] ==> 0 < |after| && after[|after| - 1] == chunks[|chunks| - 1]
  {
    if chunks == [] then buffer else Pushed(PushAll(buffer, chunks[..|chunks| - 1]), chunks[|chunks| - 1])
  }

  /** The invariant the cap is meant to keep: at most 1 MiB, or one chunk
      that is larger than that on its own. */
  predicate WithinCap(buffer: seq<seq<byte>>)
  {
    TotalLength(buffer) <= MAX_BUFFER_SIZE || |buffer| == 1
  }

  predicate IsSuffix(s: seq<seq<byte>>, of: seq<seq<byte>>)
  {
    |s| <= |of| && s == of[|of| - |s|..]
  }

  lemma SuffixExtend(s: seq<seq<byte>>, of: seq<seq<byte>>, x: seq<byte>)
    requires IsSuffix(s, of)
    ensures IsSuffix(s + [x], of + [x])
  {
    assert (of + [x])[|of| - |s|..] == of[|of| - |s|..] + [x];
  }

  /** `result.text || result.transcription || ""`. */
  function TranscriptText(text: Option<string>, transcription: Option<string>): (r: string)
    ensures text.Some? && text.value != "" ==> r == text.value
    ensures (text.None? || text.value == "") && transcription.Some? ==> r == transcription.value
    ensures (text.None? || text.value == "") && transcription.None? ==> r == ""
  {
    if text.Some? && text.value != "" then text.value
    else if transcription.Some? then transcription.value
    else ""
  }

  lemma PushWithinCap(buffer: seq<seq<byte>>, chunk: seq<byte>)
    ensures var after := Pushed(buffer, chunk);
      && WithinCap(after)
      && (TotalLength(buffer) + |chunk| <= MAX_BUFFER_SIZE ==> after == buffer + [chunk])
      && (TotalLength(buffer) + |chunk| > MAX_BUFFER_SIZE ==> after == [chunk])
  {
    var grown := buffer + [chunk];
    assert grown[..|grown| - 1] == buffer;
    assert [chunk][..0] == [];
  }

  /** From an empty buffer, a non-empty series of pushes leaves a buffer
      within the cap that holds the last chunks pushed, in the order they
      were pushed. */
  lemma {:induction false} PushAllWithinCap(chunks: seq<seq<byte>>)
    requires chunks != []
    ensures WithinCap(PushAll([], chunks))
    ensures IsSuffix(PushAll([], chunks), chunks)
    ensures 0 < |PushAll([], chunks)|
  {
    var n := |chunks| - 1;
    var x := chunks[n];
    var before := PushAll([], chunks[..n]);
    var after := PushAll([], chunks);
    assert after == Pushed(before, x);
    PushWithinCap(before, x);
    assert chunks[..n] + [x] == chunks;
    if n == 0 {
      assert before == [];
    } else {
      PushAllWithinCap(chunks[..n]);
      if after == [x] {
        assert chunks[n..] == [x];
      } else {
        SuffixExtend(before, chunks[..n], x);
      }
    }
  }

  /** The stale total evicts more than the cap needs: with two one-byte chunks
      buffered, pushing 1,048,575 bytes leaves only the new chunk, although
      dropping the oldest chunk alone would already be under the cap. */
  lemma StaleTotalEvictsDownToOne(x: seq<byte>, y: seq<byte>, chunk: seq<byte>)
    requires |x| == 1 && |y| == 1 && |chunk| == MAX_BUFFER_SIZE - 1
    ensures Pushed([x, y], chunk) == [chunk]
    ensures TotalLength([y, chunk]) <= MAX_BUFFER_SIZE
  {
    assert MAX_BUFFER_SIZE == 1048576;
    assert [x][..0] == [] && [y][..0] == [];
    assert TotalLength([x]) == 1 && TotalLength([y]) == 1;
    assert [x, y][..1] == [x];
    assert TotalLength([x, y]) == 2;
    assert [x, y, chunk][..2] == [x, y];
    assert TotalLength([x, y, chunk]) == MAX_BUFFER_SIZE + 1;
    assert [y, chunk][..1] == [y];
    assert TotalLength([y, chunk]) == MAX_BUFFER_SIZE;
  }

  /** `WorkersAIWhisperSTT`. */
  class WhisperStt {
    var audioBuffer: seq<seq<byte>>

    constructor ()
      ensures audioBuffer == []
    {
      audioBuffer := [];
    }

    /** `addAudioChunk`. */
    method AddAudioChunk(audioData: seq<byte>)
      modifies this
      ensures audioBuffer == Pushed(old(audioBuffer), audioData)
    {
      audioBuffer := audioBuffer + [audioData];
      var totalSize := TotalLength(audioBuffer);
      if totalSize > MAX_BUFFER_SIZE && |audioBuffer| > 1 {
        while totalSize > MAX_BUFFER_SIZE && |audioBuffer| > 1
          invariant 0 < |audioBuffer| && audioBuffer[|audioBuffer| - 1] == audioData
          decreases |audioBuffer|
        {
          audioBuffer := audioBuffer[1..];
        }
        assert audioBuffer == [audioData];
      }
    }

    /** `transcribe` up to its `await`: the audio it sends to the model,
        `None` when the buffer is empty and the model is not called. */
    method SendAudio() returns (audio: Option<seq<byte>>)
      ensures audioBuffer == [] ==> audio == None
      ensures audioBuffer != [] ==> audio == Some(Flatten(audioBuffer))
      ensures audio.Some? ==> |audio.value| == TotalLength(audioBuffer)
    {
      if |audioBuffer| == 0 {
        return None;
      }
      var combinedAudio := Concat(audioBuffer);
      audio := Some(combinedAudio);
    }

    /** `transcribe` after its `await`, when the model's reply arrives. A
        reply, even a nullish one, empties the buffer, including any chunk
        added while the call was in flight; a nullish reply then throws. A
        failed call keeps the buffer. */
    method ReceiveReply(reply: WhisperReply) returns (r: Result<string, string>)
      modifies this
      ensures reply.WhisperFailed? ==> r == Err(reply.error) && audioBuffer == old(audioBuffer)
      ensures reply.WhisperNullish? ==> r == Err(NULLISH_REPLY) && audioBuffer == []
      ensures reply.WhisperResult? ==> r == Ok(TranscriptText(reply.text, reply.transcription)) && audioBuffer == []
    {
      match reply {
        case WhisperFailed(error) =>
          r := Err(error);
        case WhisperNullish =>
          audioBuffer := [];
          r := Err(NULLISH_REPLY);
        case WhisperResult(text, transcription) =>
          audioBuffer := [];
          r := Ok(TranscriptText(text, transcription));
      }
    }

    /** `transcribe` when no chunk arrives while the model runs. `audio` is
        what is sent to the model, `None` when the model is not called. */
    method Transcribe(reply: WhisperReply) returns (r: Result<string, string>, audio: Option<seq<byte>>)
      modifies this
      ensures old(audioBuffer) == [] ==> r == Ok("") && audio == None && audioBuffer == []
      ensures old(audioBuffer) != [] ==> audio == Some(Flatten(old(audioBuffer)))
      ensures old(audioBuffer) != [] && reply.WhisperFailed? ==> r == Err(reply.error) && audioBuffer == old(audioBuffer)
      ensures old(audioBuffer) != [] && reply.WhisperNullish? ==> r == Err(NULLISH_REPLY) && audioBuffer == []
      ensures old(audioBuffer) != [] && reply.WhisperResult? ==>
        r == Ok(TranscriptText(reply.text, reply.transcription)) && audioBuffer == []
    {
      audio := SendAudio();
      if audio.None? {
        return Ok(""), None;
      }
      r := ReceiveReply(reply);
    }

    /** `clearBuffer`. */
    method ClearBuffer()
      modifies this
      ensures audioBuffer == []
    {
      audioBuffer := [];
    }

    /** `getBufferSize`: the bytes buffered, which is also the length of the
        audio the next `transcribe` would send. */
    method GetBufferSize() returns (size: nat)
      ensures size == TotalLength(audioBuffer)
      ensures size == |Flatten(audioBuffer)|
    {
      size := TotalLength(audioBuffer);
      FlattenLength(audioBuffer);
    }
  }
}
