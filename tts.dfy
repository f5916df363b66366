/** The text-to-speech component of the worker
    (apps/agent/src/tts-component.ts): one call to the MeloTTS model, whose
    audio is cut into consecutive slices of at most 32 KiB, the largest a
    WebSocket message may carry. `WorkersAIMelottsTTS` keeps no state beyond
    its model binding, so its operations are methods of this module; the
    model and the platform's base64 decoder `atob` are parameters. */
module TextToSpeech {
  import opened Common

  const BYTES_PER_KB := 1024
  const CHUNK_SIZE_KB := 32
  const CHUNK_SIZE := CHUNK_SIZE_KB * BYTES_PER_KB

  /** The model's `audio` field: an `ArrayBuffer` or `Uint8Array` (both always
      truthy), a base64 string, or any other value with its truthiness. */
  datatype AudioValue = Binary(bytes: seq<byte>) | Base64(encoded: string) | Unknown(truthy: bool)

  /** The MeloTTS call: it throws, or returns `audio` and
      `result?.audio` (`nested`). */
  datatype MelottsReply = MelottsFailed(error: string) | MelottsResult(audio: Option<AudioValue>, nested: Option<AudioValue>)

  /** The platform `atob`: the decoded binary string, or the error it throws. */
  type Atob = string -> Result<string, string>

  /** The characters `String.prototype.trim` removes: white space and line
      terminators. */
  predicate IsJsWhitespace(c: char)
  {
    var code := c as int;
    code in {0x09, 0x0A, 0x0B, 0x0C, 0x0D, 0x20, 0xA0, 0x1680, 0x2028, 0x2029, 0x202F, 0x205F, 0x3000, 0xFEFF}
    || 0x2000 <= code <= 0x200A
  }

  /** `!text || text.trim().length === 0`. */
  predicate IsBlank(text: string): (blank: bool)
    ensures blank <==> TrimStart(text) == []
  {
    forall i | 0 <= i < |text| :: IsJsWhitespace(text[i])
  }

  function TrimStart(s: string): (t: string)
    ensures |t| <= |s| && t == s[|s| - |t|..]
    ensures forall i | 0 <= i < |s| - |t| :: IsJsWhitespace(s[i])
    ensures t != [] ==> !IsJsWhitespace(t[0])
  {
    if s != [] && IsJsWhitespace(s[0]) then TrimStart(s[1..]) else s
  }

  function TrimEnd(s: string): (t: string)
    ensures |t| <= |s| && t == s[..|t|]
    ensures forall i | |t| <= i < |s| :: IsJsWhitespace(s[i])
    ensures t != [] ==> !IsJsWhitespace(t[|t| - 1])
  {
    if s != [] && IsJsWhitespace(s[|s| - 1]) then TrimEnd(s[..|s| - 1]) else s
  }

  /** `text.trim()`: the prompt sent to the model. It is empty exactly when
      the text is blank, and otherwise starts and ends with a character that
      is not white space. */
  function Trim(s: string): (t: string)
    ensures |t| <= |s|
    ensures t == [] <==> IsBlank(s)
    ensures t != [] ==> !IsJsWhitespace(t[0]) && !IsJsWhitespace(t[|t| - 1])
  {
    TrimEnd(TrimStart(s))
  }

  predicate AudioTruthy(v: AudioValue)
  {
    match v
    case Binary(_) => true
    case Base64(encoded) => encoded != ""
    case Unknown(truthy) => truthy
  }

  /** `result.audio || result.result?.audio`, or `None` when that is falsy
      (lines 41-46 then return without yielding). */
  function SelectAudio(audio: Option<AudioValue>, nested: Option<AudioValue>): (picked: Option<AudioValue>)
    ensures picked.Some? ==> AudioTruthy(picked.value)
    ensures audio.Some? && AudioTruthy(audio.value) ==> picked == audio
    ensures !(audio.Some? && AudioTruthy(audio.value)) ==>
      picked == (if nested.Some? && AudioTruthy(nested.value) then nested else None)
  {
    var candidate := if audio.Some? && AudioTruthy(audio.value) then audio else nested;
    if candidate.Some? && AudioTruthy(candidate.value) then candidate else None
  }

  /** The bytes `new Uint8Array(length)` holds after `audioData[idx] =
      charCodeAt(idx)`: each code reduced modulo 256. */
  function CharCodeBytes(binary: string): (data: seq<byte>)
    ensures |data| == |binary|
  {
    seq(|binary|, i requires 0 <= i < |binary| => (binary[i] as int) % 256)
  }

  /** The audio bytes of a synthesis, `Ok([])` when nothing is yielded, or the
      error that propagates. */
  function SynthesisAudio(text: string, reply: MelottsReply, atob: Atob): (r: Result<seq<byte>, string>)
    ensures IsBlank(text) ==> r == Ok([])
    ensures !IsBlank(text) && reply.MelottsFailed? ==> r == Err(reply.error)
    ensures !IsBlank(text) && reply.MelottsResult? && SelectAudio(reply.audio, reply.nested).None? ==> r == Ok([])
    ensures r.Err? ==> reply.MelottsFailed? || SelectAudio(reply.audio, reply.nested).value.Base64?
    ensures !IsBlank(text) && reply.MelottsResult? ==>
      var picked := SelectAudio(reply.audio, reply.nested);
      && (picked.Some? && picked.value.Binary? ==> r == Ok(picked.value.bytes))
      && (picked.Some? && picked.value.Base64? && atob(picked.value.encoded).Ok? ==>
            r == Ok(CharCodeBytes(atob(picked.value.encoded).value)))
      && (picked.Some? && picked.value.Base64? && atob(picked.value.encoded).Err? ==>
            r == Err(atob(picked.value.encoded).error))
      && (picked.Some? && picked.value.Unknown? ==> r == Ok([]))
  {
    if IsBlank(text) then Ok([])
    else match reply
      case MelottsFailed(error) => Err(error)
      case MelottsResult(audio, nested) =>
        match SelectAudio(audio, nested)
        case None => Ok([])
        case Some(Binary(bytes)) => Ok(bytes)
        case Some(Base64(encoded)) =>
          (match atob(encoded)
           case Ok(binary) => Ok(CharCodeBytes(binary))
           case Err(error) => Err(error))
        case Some(Unknown(_)) => Ok([])
  }

  /** The slices `audioData.slice(i, i + CHUNK_SIZE)` for i = 0, CHUNK_SIZE, ... */
  function Chunks(data: seq<byte>): (slices: seq<seq<byte>>)
    ensures forall k | 0 <= k < |slices| :: 0 < |slices[k]| <= CHUNK_SIZE
    decreases |data|
  {
    if data == [] then []
    else
      var end := if |data| < CHUNK_SIZE then |data| else CHUNK_SIZE;
      [data[..end]] + Chunks(data[end..])
  }

  /** What `synthesize` yields, in order, or the error it throws. */
  function Synthesized(text: string, reply: MelottsReply, atob: Atob): Result<seq<seq<byte>>, string>
  {
    match SynthesisAudio(text, reply, atob)
    case Ok(data) => Ok(Chunks(data))
    case Err(error) => Err(error)
  }

  /** The slices laid end to end give the audio back. */
  lemma {:induction false} ChunksFlatten(data: seq<byte>)
    ensures Flatten(Chunks(data)) == data
    decreases |data|
  {
    if data != [] {
      var end := if |data| < CHUNK_SIZE then |data| else CHUNK_SIZE;
      ChunksFlatten(data[end..]);
      FlattenPrepend(data[..end], Chunks(data[end..]));
      assert data[..end] + data[end..] == data;
    }
  }

  /** Every slice is non-empty and at most 32 KiB, every slice but the last is
      exactly 32 KiB, and there are ceil(n / 32768) of them. */
  lemma {:induction false} ChunksShape(data: seq<byte>)
    ensures var chunks := Chunks(data);
      && |chunks| == (|data| + CHUNK_SIZE - 1) / CHUNK_SIZE
      && (forall k | 0 <= k < |chunks| :: 0 < |chunks[k]| <= CHUNK_SIZE)
      && (forall k | 0 <= k < |chunks| - 1 :: |chunks[k]| == CHUNK_SIZE)
    decreases |data|
  {
    if data != [] {
      var end := if |data| < CHUNK_SIZE then |data| else CHUNK_SIZE;
      ChunksShape(data[end..]);
      var chunks := Chunks(data);
      var rest := Chunks(data[end..]);
      assert chunks == [data[..end]] + rest;
      assert forall k | 1 <= k < |chunks| :: chunks[k] == rest[k - 1];
      if end < CHUNK_SIZE {
        assert rest == [];
      }
    }
  }

  /** The byte-copy loop of lines 57-64. */
  method CopyCharCodes(binaryString: string) returns (audioData: seq<byte>)
    ensures audioData == CharCodeBytes(binaryString)
  {
    var length := |binaryString|;
    var data := new byte[length];
    var idx := 0;
    while idx < length
      invariant 0 <= idx <= length
      invariant forall k | 0 <= k < idx :: data[k] == (binaryString[k] as int) % 256
    {
      data[idx] := (binaryString[idx] as int) % 256;
      idx := idx + 1;
    }
    audioData := data[..];
  }

  /** `atob` returns only codes below 256, so the copy keeps every character. */
  lemma CharCodesKept(binary: string)
    requires forall i | 0 <= i < |binary| :: binary[i] as int < 256
    ensures forall i | 0 <= i < |binary| :: CharCodeBytes(binary)[i] == binary[i] as int
  {
  }

  /** Where the slice starting at `i` ends: `slice` clamps to the length. */
  function SliceEnd(data: seq<byte>, i: nat): (end: nat)
    requires i < |data|
    ensures i < end <= |data| && end - i <= CHUNK_SIZE
  {
    if i + CHUNK_SIZE < |data| then i + CHUNK_SIZE else |data|
  }

  /** The slices from `i` on: the one starting at `i`, then the rest. */
  lemma ChunksFrom(data: seq<byte>, i: nat)
    requires i < |data|
    ensures Chunks(data[i..]) == [data[i..SliceEnd(data, i)]] + Chunks(data[SliceEnd(data, i)..])
  {
    var end := SliceEnd(data, i);
    assert data[i..][..end - i] == data[i..end];
    assert data[i..][end - i..] == data[end..];
  }

  /** One turn of the slicing loop: with the slices before `i` taken, taking
      the slice at `i` leaves the slices from `i + CHUNK_SIZE` to take, or
      none when that is past the end. */
  lemma SliceStep(data: seq<byte>, i: nat, taken: seq<seq<byte>>)
    requires i < |data| && taken + Chunks(data[i..]) == Chunks(data)
    ensures var next := taken + [data[i..SliceEnd(data, i)]];
      && (i + CHUNK_SIZE < |data| ==> next + Chunks(data[i + CHUNK_SIZE..]) == Chunks(data))
      && (|data| <= i + CHUNK_SIZE ==> next == Chunks(data))
  {
    ChunksFrom(data, i);
    var end := SliceEnd(data, i);
    var slice := data[i..end];
    var rest := Chunks(data[end..]);
    assert taken + [slice] + rest == taken + ([slice] + rest);
    if |data| <= i + CHUNK_SIZE {
      assert data[end..] == [];
      assert rest == [];
    } else {
      assert end == i + CHUNK_SIZE;
    }
  }

  /** The slicing loop of lines 76-79. */
  method SliceChunks(audioData: seq<byte>) returns (chunks: seq<seq<byte>>)
    ensures chunks == Chunks(audioData)
  {
    chunks := [];
    var i := 0;
    assert audioData[0..] == audioData;
    while i < |audioData|
      invariant i < |audioData| ==> chunks + Chunks(audioData[i..]) == Chunks(audioData)
      invariant |audioData| <= i ==> chunks == Chunks(audioData)
      decreases |audioData| - i
    {
      var chunk := audioData[i..SliceEnd(audioData, i)];
      SliceStep(audioData, i, chunks);
      chunks := chunks + [chunk];
      i := i + CHUNK_SIZE;
    }
    if audioData == [] {
      assert chunks == [];
    }
  }

  /** `synthesize`: the slices yielded, or the error thrown. `prompt` is the
      text sent to the model, `None` when the model is not called. */
  method Synthesize(text: string, reply: MelottsReply, atob: Atob) returns (r: Result<seq<seq<byte>>, string>, prompt: Option<string>)
    ensures r == Synthesized(text, reply, atob)
    ensures prompt == if IsBlank(text) then None else Some(Trim(text))
  {
    if IsBlank(text) {
      return Ok([]), None;
    }
    prompt := Some(Trim(text));
    match reply {
      case MelottsFailed(error) =>
        return Err(error), prompt;
      case MelottsResult(audio, nested) =>
        var audioResult := SelectAudio(audio, nested);
        if audioResult.None? {
          return Ok([]), prompt;
        }
        var audioData: seq<byte>;
        match audioResult.value {
          case Binary(bytes) =>
            audioData := bytes;
          case Base64(encoded) =>
            match atob(encoded) {
              case Err(error) =>
                return Err(error), prompt;
              case Ok(binaryString) =>
                audioData := CopyCharCodes(binaryString);
            }
          case Unknown(_) =>
            return Ok([]), prompt;
        }
        var chunks := SliceChunks(audioData);
        r := Ok(chunks);
    }
  }

  /** `synthesizeToBuffer`: the yielded slices copied back together, which is
      the model's audio itself. */
  method SynthesizeToBuffer(text: string, reply: MelottsReply, atob: Atob) returns (r: Result<seq<byte>, string>)
    ensures r == SynthesisAudio(text, reply, atob)
  {
    var yielded, _ := Synthesize(text, reply, atob);
    match yielded {
      case Err(error) =>
        r := Err(error);
      case Ok(chunks) =>
        var combined := Concat(chunks);
        ChunksFlatten(SynthesisAudio(text, reply, atob).value);
        r := Ok(combined);
    }
  }
}
