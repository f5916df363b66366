/** The browser-side audio handler (apps/web/src/lib/audio-handler.ts): the
    recording flags and chunk list of `AudioHandler`, and the packing of
    stereo 16-bit samples into little-endian PCM and back. Samples are the
    integers the float math produces; the browser's media APIs become flags
    and oracle parameters. */
module AudioHandling {
  import opened Common

  const NOT_INITIALIZED := "Audio not initialized. Call initialize() first."
  const MICROPHONE_FAILED := "Failed to access microphone"
  const NO_CONTEXT := "Audio context not initialized"
  const NO_CHANNELS := "Unsupported channel count: 0"
  /** What `createBuffer` throws for a length of zero frames. */
  const EMPTY_BUFFER := "NotSupportedError"

  /** A signed 16-bit sample. */
  type Sample = s: int | -32768 <= s <= 32767

  /** `s & 0xff` on the two's-complement value. */
  function Low(s: Sample): (lo: byte)
    ensures (s - lo) % 256 == 0
  {
    s % 256
  }

  /** `(s >> 8) & 0xff`: an arithmetic shift floors, as Dafny's `/` does for
      a positive divisor. */
  function High(s: Sample): (hi: byte)
    ensures 256 * hi + Low(s) == if s < 0 then s + 0x10000 else s
  {
    (s / 256) % 256
  }

  /** `lo | (hi << 8)`, read back as signed when it exceeds 0x7fff. */
  function DecodeSample(lo: byte, hi: byte): (s: Sample)
    ensures 0 <= s ==> s == lo + 256 * hi
    ensures s < 0 ==> s == lo + 256 * hi - 0x10000
  {
    var v := lo + 256 * hi;
    if v > 0x7fff then v - 0x10000 else v
  }

  /** Decoding inverts encoding for every sample. */
  lemma DecodeEncode(s: Sample)
    ensures DecodeSample(Low(s), High(s)) == s
  {
    var q := s / 256;
    assert s == 256 * q + Low(s);
    if s >= 0 {
      assert 0 <= q < 128;
      assert High(s) == q;
    } else {
      assert -128 <= q < 0;
      assert High(s) == q + 256;
    }
  }

  /** Encoding inverts decoding for every byte pair: the two-byte encoding is
      a bijection between samples and byte pairs. */
  lemma EncodeDecode(lo: byte, hi: byte)
    ensures Low(DecodeSample(lo, hi)) == lo && High(DecodeSample(lo, hi)) == hi
  {
    var s := DecodeSample(lo, hi);
    if s >= 0 {
      assert s == hi * 256 + lo;
      assert s / 256 == hi;
    } else {
      assert s == (hi - 256) * 256 + lo;
      assert s / 256 == hi - 256;
    }
  }

  /** An `AudioBuffer` as `decodeAudioData` returns it: one sample series per
      channel, `length` frames, and the rate. */
  datatype SampleBuffer = SampleBuffer(channels: seq<seq<Sample>>, length: nat, sampleRate: int)

  /** The shape the Web Audio API guarantees: every channel holds `length`
      samples. */
  predicate WellFormed(buffer: SampleBuffer)
  {
    forall c | 0 <= c < |buffer.channels| :: |buffer.channels[c]| == buffer.length
  }

  /** Lines 134-147: mono is duplicated, two or more channels give channels 0
      and 1, none is an error. */
  function StereoChannels(buffer: SampleBuffer): (r: Result<(seq<Sample>, seq<Sample>), string>)
    ensures |buffer.channels| == 0 <==> r == Err(NO_CHANNELS)
    ensures |buffer.channels| == 1 ==> r == Ok((buffer.channels[0], buffer.channels[0]))
    ensures |buffer.channels| >= 2 ==> r == Ok((buffer.channels[0], buffer.channels[1]))
  {
    if |buffer.channels| == 1 then Ok((buffer.channels[0], buffer.channels[0]))
    else if |buffer.channels| >= 2 then Ok((buffer.channels[0], buffer.channels[1]))
    else Err(NO_CHANNELS)
  }

  /** Byte `j` of the interleaved stream: frame `j / 4`, in the order left
      low, left high, right low, right high. */
  function ByteAt(left: seq<Sample>, right: seq<Sample>, j: nat): byte
    requires j / 4 < |left| && j / 4 < |right|
  {
    var i := j / 4;
    var k := j % 4;
    if k == 0 then Low(left[i])
    else if k == 1 then High(left[i])
    else if k == 2 then Low(right[i])
    else High(right[i])
  }

  /** The PCM stream of two equally long channels: four bytes per frame. */
  function Interleave(left: seq<Sample>, right: seq<Sample>): (pcm: seq<byte>)
    requires |left| == |right|
    ensures |pcm| == 4 * |left|
  {
    seq(4 * |left|, j requires 0 <= j < 4 * |left| => ByteAt(left, right, j))
  }

  lemma FrameOffset(i: nat, k: nat)
    requires k < 4
    ensures (4 * i + k) / 4 == i && (4 * i + k) % 4 == k
  {
  }

  /** Frame `i` occupies bytes `4i` to `4i + 3`: left low, left high, right
      low, right high. */
  lemma InterleaveLayout(left: seq<Sample>, right: seq<Sample>)
    requires |left| == |right|
    ensures var pcm := Interleave(left, right);
      forall i | 0 <= i < |left| ::
        && pcm[4 * i] == Low(left[i]) && pcm[4 * i + 1] == High(left[i])
        && pcm[4 * i + 2] == Low(right[i]) && pcm[4 * i + 3] == High(right[i])
  {
    var pcm := Interleave(left, right);
    forall i | 0 <= i < |left|
      ensures && pcm[4 * i] == Low(left[i]) && pcm[4 * i + 1] == High(left[i])
              && pcm[4 * i + 2] == Low(right[i]) && pcm[4 * i + 3] == High(right[i])
    {
      FrameOffset(i, 0);
      FrameOffset(i, 1);
      FrameOffset(i, 2);
      FrameOffset(i, 3);
    }
  }

  /** Channel `c` (0 left, 1 right) read back from a PCM stream: one sample
      per whole frame, from bytes `4i + 2c` and `4i + 2c + 1`. */
  function Channel(pcm: seq<byte>, c: nat): (samples: seq<Sample>)
    requires c < 2
    ensures |samples| == |pcm| / 4
    ensures forall i | 0 <= i < |samples| :: samples[i] == DecodeSample(pcm[4 * i + 2 * c], pcm[4 * i + 2 * c + 1])
  {
    seq(|pcm| / 4, i requires 0 <= i < |pcm| / 4 => DecodeSample(pcm[4 * i + 2 * c], pcm[4 * i + 2 * c + 1]))
  }

  /** Playing back what was recorded gives the recorded channels. */
  lemma PcmRoundTrip(left: seq<Sample>, right: seq<Sample>)
    requires |left| == |right|
    ensures Channel(Interleave(left, right), 0) == left
    ensures Channel(Interleave(left, right), 1) == right
  {
    var pcm := Interleave(left, right);
    InterleaveLayout(left, right);
    forall i | 0 <= i < |left|
      ensures Channel(pcm, 0)[i] == left[i] && Channel(pcm, 1)[i] == right[i]
    {
      DecodeEncode(left[i]);
      DecodeEncode(right[i]);
    }
  }

  /** A recorded mono buffer comes back with the same samples on both
      channels. */
  lemma MonoPlaysOnBoth(buffer: SampleBuffer)
    requires WellFormed(buffer) && |buffer.channels| == 1
    ensures StereoChannels(buffer).Ok?
    ensures var pcm := Interleave(buffer.channels[0], buffer.channels[0]);
      Channel(pcm, 0) == buffer.channels[0] && Channel(pcm, 1) == buffer.channels[0]
  {
    PcmRoundTrip(buffer.channels[0], buffer.channels[0]);
  }

  /** `audioBufferToPCM`: the channel choice, then the packing loop of lines
      153-166 with its running `offset`. Resampling is the identity in the
      source, so the rate plays no part. */
  method AudioBufferToPcm(buffer: SampleBuffer) returns (r: Result<seq<byte>, string>)
    requires WellFormed(buffer)
    ensures StereoChannels(buffer).Err? ==> r == Err(NO_CHANNELS)
    ensures StereoChannels(buffer).Ok? ==>
      r == Ok(Interleave(StereoChannels(buffer).value.0, StereoChannels(buffer).value.1))
  {
    var stereo := StereoChannels(buffer);
    if stereo.Err? {
      return Err(stereo.error);
    }
    var (left, right) := stereo.value;
    var pcmData := new byte[buffer.length * 2 * 2];
    var offset := 0;
    for i := 0 to buffer.length
      invariant offset == 4 * i
      invariant forall j | 0 <= j < offset :: pcmData[j] == ByteAt(left, right, j)
    {
      FrameOffset(i, 0);
      FrameOffset(i, 1);
      FrameOffset(i, 2);
      FrameOffset(i, 3);
      pcmData[offset] := Low(left[i]);
      offset := offset + 1;
      pcmData[offset] := High(left[i]);
      offset := offset + 1;
      pcmData[offset] := Low(right[i]);
      offset := offset + 1;
      pcmData[offset] := High(right[i]);
      offset := offset + 1;
    }
    assert forall j | 0 <= j < pcmData.Length :: pcmData[..][j] == Interleave(left, right)[j];
    assert pcmData[..] == Interleave(left, right);
    assert stereo.value == (left, right);
    r := Ok(pcmData[..]);
  }

  /** What the decoder produced from the recorded bytes: `None` when
      `decodeAudioData` rejects. */
  type Decoder = seq<byte> -> Option<SampleBuffer>

  /** The handler installed as `ondataavailable`: none yet, collect for
      `stopRecording`, or convert and forward for `startStreaming`. */
  datatype DataMode = NoHandler | Collect | Forward

  /** How `new MediaRecorder(...)` and `start(100)` turn out: both succeed,
      the constructor throws, or `start` throws on the new recorder. */
  datatype RecorderStart = Started | ConstructorThrew(error: string) | StartThrew(error: string)

  /** What a `stop` event settles: nothing (no `onstop` handler waits), the
      `stopRecording` promise resolved with PCM bytes, or that promise left
      pending for good because the conversion threw. */
  datatype StopSettlement = NoOnstop | Resolved(bytes: seq<byte>) | NeverSettles(error: string)

  /** `AudioHandler`. The media stream, audio context, recorder and audio
      element are present or absent; `recorderRunning` is whether the current
      recorder records. `stopEventDue` says that `stop()` stopped a running
      recorder and its `stop` event has not fired yet; `onstopWaiting` says
      that an `onstop` handler installed by `stopRecording` has not run yet.
      Blobs are their bytes. */
  class AudioHandler {
    var hasStream: bool
    var hasContext: bool
    var hasRecorder: bool
    var recorderRunning: bool
    var stopEventDue: bool
    var onstopWaiting: bool
    var mode: DataMode
    var audioChunks: seq<seq<byte>>
    var isRecording: bool
    var hasAudioElement: bool

    /** Only a recorder that exists runs or fires, and only non-empty blobs
        are collected. The recording flag is not tied to the recorder: a
        failed start leaves it set with nothing running, and it stays set
        between `stop()` and the `stop` event. */
    predicate Valid()
      reads this
    {
      && (recorderRunning ==> hasRecorder)
      && (stopEventDue ==> hasRecorder)
      && (forall k | 0 <= k < |audioChunks| :: |audioChunks[k]| > 0)
    }

    constructor ()
      ensures Valid()
      ensures !hasStream && !hasContext && !hasRecorder && !recorderRunning && !isRecording
      ensures !stopEventDue && !onstopWaiting
      ensures mode == NoHandler && audioChunks == [] && !hasAudioElement
    {
      hasStream, hasContext, hasRecorder, recorderRunning := false, false, false, false;
      stopEventDue, onstopWaiting := false, false;
      mode, audioChunks, isRecording, hasAudioElement := NoHandler, [], false, false;
    }

    /** `initialize`: `granted` is whether `getUserMedia` resolved. */
    method Initialize(granted: bool) returns (r: Result<(), string>)
      requires Valid()
      modifies this
      ensures Valid()
      ensures granted ==> r == Ok(()) && hasStream && hasContext
      ensures !granted ==> r == Err(MICROPHONE_FAILED) && hasStream == old(hasStream) && hasContext == old(hasContext)
      ensures hasRecorder == old(hasRecorder) && recorderRunning == old(recorderRunning) && isRecording == old(isRecording)
      ensures stopEventDue == old(stopEventDue) && onstopWaiting == old(onstopWaiting)
      ensures mode == old(mode) && audioChunks == old(audioChunks) && hasAudioElement == old(hasAudioElement)
    {
      if !granted {
        return Err(MICROPHONE_FAILED);
      }
      hasStream := true;
      hasContext := true;
      r := Ok(());
    }

    /** The recorder set-up shared by both start methods, after the flag is
        set: a new recorder with the `dataavailable` handler `handler`, then
        `start(100)`. */
    method NewRecorder(handler: DataMode, start: RecorderStart) returns (r: Result<(), string>)
      requires Valid()
      modifies this
      ensures Valid()
      ensures start.Started? ==> r == Ok(()) && hasRecorder && recorderRunning && mode == handler
      ensures start.ConstructorThrew? ==>
        && r == Err(start.error) && hasRecorder == old(hasRecorder)
        && recorderRunning == old(recorderRunning) && mode == old(mode)
      ensures start.StartThrew? ==> r == Err(start.error) && hasRecorder && !recorderRunning && mode == handler
      ensures hasStream == old(hasStream) && hasContext == old(hasContext) && hasAudioElement == old(hasAudioElement)
      ensures isRecording == old(isRecording) && audioChunks == old(audioChunks)
      ensures stopEventDue == old(stopEventDue) && onstopWaiting == old(onstopWaiting)
    {
      if start.ConstructorThrew? {
        return Err(start.error);
      }
      hasRecorder := true;
      mode := handler;
      if start.StartThrew? {
        recorderRunning := false;
        return Err(start.error);
      }
      recorderRunning := true;
      r := Ok(());
    }

    /** `startRecording`. The flag is set and the chunk list emptied before
        the recorder is made, so a throwing constructor or `start` leaves the
        flag set with no recorder running. */
    method StartRecording(start: RecorderStart) returns (r: Result<(), string>)
      requires Valid()
      modifies this
      ensures Valid()
      ensures !old(hasStream) ==> r == Err(NOT_INITIALIZED)
      ensures old(hasStream) && old(isRecording) ==> r == Ok(())
      ensures !old(hasStream) || old(isRecording) ==>
        && hasRecorder == old(hasRecorder) && recorderRunning == old(recorderRunning)
        && isRecording == old(isRecording) && mode == old(mode) && audioChunks == old(audioChunks)
      ensures old(hasStream) && !old(isRecording) ==>
        && audioChunks == [] && isRecording
        && (start.Started? ==> r == Ok(()) && hasRecorder && recorderRunning && mode == Collect)
        && (start.ConstructorThrew? ==>
              && r == Err(start.error) && hasRecorder == old(hasRecorder)
              && recorderRunning == old(recorderRunning) && mode == old(mode))
        && (start.StartThrew? ==> r == Err(start.error) && hasRecorder && !recorderRunning && mode == Collect)
      ensures hasStream == old(hasStream) && hasContext == old(hasContext) && hasAudioElement == old(hasAudioElement)
      ensures stopEventDue == old(stopEventDue) && onstopWaiting == old(onstopWaiting)
    {
      if !hasStream {
        return Err(NOT_INITIALIZED);
      }
      if isRecording {
        return Ok(());
      }
      audioChunks := [];
      isRecording := true;
      r := NewRecorder(Collect, start);
    }

    /** The recorder's `dataavailable` event with blob `data`. Collecting
        keeps the blob when it is non-empty. Forwarding converts a non-empty
        blob to PCM and hands it to the `onChunk` callback, returned here as
        `sent`; when the conversion rejects, the callback is not reached. */
    method OnDataAvailable(data: seq<byte>, decode: Decoder) returns (sent: Option<seq<byte>>)
      requires Valid()
      modifies this
      ensures Valid()
      ensures mode == Collect && |data| > 0 ==> audioChunks == old(audioChunks) + [data]
      ensures !(mode == Collect && |data| > 0) ==> audioChunks == old(audioChunks)
      ensures sent.Some? <==> mode == Forward && |data| > 0 && ConvertedPcm(hasContext, data, decode).Ok?
      ensures sent.Some? ==> sent.value == ConvertedPcm(hasContext, data, decode).value
      ensures hasStream == old(hasStream) && hasContext == old(hasContext) && hasRecorder == old(hasRecorder)
      ensures recorderRunning == old(recorderRunning) && isRecording == old(isRecording)
      ensures stopEventDue == old(stopEventDue) && onstopWaiting == old(onstopWaiting)
      ensures mode == old(mode) && hasAudioElement == old(hasAudioElement)
    {
      sent := None;
      if |data| > 0 {
        if mode == Collect {
          audioChunks := audioChunks + [data];
        } else if mode == Forward {
          var pcm := ConvertToPcm(hasContext, data, decode);
          if pcm.Ok? {
            sent := Some(pcm.value);
          }
        }
      }
    }

    /** `MediaRecorder.stop()`: a running recorder stops and owes a `stop`
        event; an inactive one ignores the call. */
    method StopRecorder()
      requires Valid() && hasRecorder
      modifies this
      ensures Valid()
      ensures !recorderRunning && stopEventDue == (old(stopEventDue) || old(recorderRunning))
      ensures hasStream == old(hasStream) && hasContext == old(hasContext) && hasRecorder == old(hasRecorder)
      ensures isRecording == old(isRecording) && onstopWaiting == old(onstopWaiting)
      ensures mode == old(mode) && audioChunks == old(audioChunks) && hasAudioElement == old(hasAudioElement)
    {
      if recorderRunning {
        recorderRunning := false;
        stopEventDue := true;
      }
    }

    /** `stopRecording`, up to the point where it returns its promise:
        without a recorder or the flag it resolves to `null` at once
        (`awaiting` is false); otherwise it installs its `onstop` handler,
        replacing any earlier one whose promise then never settles, and stops
        the recorder. The flag stays set until the `stop` event, so a second
        call before then passes the guard again. */
    method StopRecording() returns (awaiting: bool)
      requires Valid()
      modifies this
      ensures Valid()
      ensures awaiting <==> old(hasRecorder) && old(isRecording)
      ensures !awaiting ==>
        && recorderRunning == old(recorderRunning) && stopEventDue == old(stopEventDue)
        && onstopWaiting == old(onstopWaiting)
      ensures awaiting ==>
        && onstopWaiting && !recorderRunning
        && stopEventDue == (old(stopEventDue) || old(recorderRunning))
      ensures isRecording == old(isRecording)
      ensures hasStream == old(hasStream) && hasContext == old(hasContext) && hasRecorder == old(hasRecorder)
      ensures mode == old(mode) && audioChunks == old(audioChunks) && hasAudioElement == old(hasAudioElement)
    {
      if !hasRecorder || !isRecording {
        return false;
      }
      onstopWaiting := true;
      StopRecorder();
      awaiting := true;
    }

    /** The recorder's `stop` event. When a `stopRecording` handler waits,
        it clears the flag and converts the collected blobs, joined, to PCM:
        the promise resolves with the bytes, or never settles when the
        conversion throws. */
    method OnStop(decode: Decoder) returns (settled: StopSettlement)
      requires Valid()
      modifies this
      ensures Valid()
      ensures !old(stopEventDue) ==>
        && settled == NoOnstop && stopEventDue == old(stopEventDue)
        && onstopWaiting == old(onstopWaiting) && isRecording == old(isRecording)
      ensures old(stopEventDue) ==> !stopEventDue && !onstopWaiting
      ensures old(stopEventDue) && !old(onstopWaiting) ==> settled == NoOnstop && isRecording == old(isRecording)
      ensures old(stopEventDue) && old(onstopWaiting) ==>
        && !isRecording
        && settled == match ConvertedPcm(hasContext, Flatten(audioChunks), decode)
          case Ok(bytes) => Resolved(bytes)
          case Err(error) => NeverSettles(error)
      ensures hasStream == old(hasStream) && hasContext == old(hasContext) && hasRecorder == old(hasRecorder)
      ensures recorderRunning == old(recorderRunning)
      ensures mode == old(mode) && audioChunks == old(audioChunks) && hasAudioElement == old(hasAudioElement)
    {
      if !stopEventDue {
        return NoOnstop;
      }
      stopEventDue := false;
      if !onstopWaiting {
        return NoOnstop;
      }
      onstopWaiting := false;
      isRecording := false;
      var audioBlob := Concat(audioChunks);
      var pcm := ConvertToPcm(hasContext, audioBlob, decode);
      match pcm {
        case Ok(bytes) => settled := Resolved(bytes);
        case Err(error) => settled := NeverSettles(error);
      }
    }

    /** `startStreaming`: like `startRecording`, but the chunk list is left
        alone and every chunk is forwarded. */
    method StartStreaming(start: RecorderStart) returns (r: Result<(), string>)
      requires Valid()
      modifies this
      ensures Valid()
      ensures !old(hasStream) ==> r == Err(NOT_INITIALIZED)
      ensures old(hasStream) && old(isRecording) ==> r == Ok(())
      ensures !old(hasStream) || old(isRecording) ==>
        && hasRecorder == old(hasRecorder) && recorderRunning == old(recorderRunning)
        && isRecording == old(isRecording) && mode == old(mode)
      ensures old(hasStream) && !old(isRecording) ==>
        && isRecording
        && (start.Started? ==> r == Ok(()) && hasRecorder && recorderRunning && mode == Forward)
        && (start.ConstructorThrew? ==>
              && r == Err(start.error) && hasRecorder == old(hasRecorder)
              && recorderRunning == old(recorderRunning) && mode == old(mode))
        && (start.StartThrew? ==> r == Err(start.error) && hasRecorder && !recorderRunning && mode == Forward)
      ensures audioChunks == old(audioChunks)
      ensures hasStream == old(hasStream) && hasContext == old(hasContext) && hasAudioElement == old(hasAudioElement)
      ensures stopEventDue == old(stopEventDue) && onstopWaiting == old(onstopWaiting)
    {
      if !hasStream {
        return Err(NOT_INITIALIZED);
      }
      if isRecording {
        return Ok(());
      }
      isRecording := true;
      r := NewRecorder(Forward, start);
    }

    /** `stopStreaming`: with a recorder and the flag set, stop the recorder
        and clear the flag at once. */
    method StopStreaming()
      requires Valid()
      modifies this
      ensures Valid()
      ensures old(hasRecorder) && old(isRecording) ==>
        && !isRecording && !recorderRunning
        && stopEventDue == (old(stopEventDue) || old(recorderRunning))
      ensures !(old(hasRecorder) && old(isRecording)) ==>
        && isRecording == old(isRecording) && recorderRunning == old(recorderRunning)
        && stopEventDue == old(stopEventDue)
      ensures hasStream == old(hasStream) && hasContext == old(hasContext) && hasRecorder == old(hasRecorder)
      ensures onstopWaiting == old(onstopWaiting)
      ensures mode == old(mode) && audioChunks == old(audioChunks) && hasAudioElement == old(hasAudioElement)
    {
      if hasRecorder && isRecording {
        StopRecorder();
        isRecording := false;
      }
    }

    /** `cleanup`: stop the recorder as `stopStreaming` does, then release
        the stream, the context and the audio element. */
    method Cleanup()
      requires Valid()
      modifies this
      ensures Valid()
      ensures old(hasRecorder) && old(isRecording) ==>
        && !isRecording && !recorderRunning
        && stopEventDue == (old(stopEventDue) || old(recorderRunning))
      ensures !(old(hasRecorder) && old(isRecording)) ==>
        && isRecording == old(isRecording) && recorderRunning == old(recorderRunning)
        && stopEventDue == old(stopEventDue)
      ensures !hasStream && !hasContext && !hasAudioElement
      ensures hasRecorder == old(hasRecorder) && onstopWaiting == old(onstopWaiting)
      ensures mode == old(mode) && audioChunks == old(audioChunks)
    {
      StopStreaming();
      hasStream := false;
      hasContext := false;
      hasAudioElement := false;
    }

    /** `getIsRecording`. */
    function GetIsRecording(): (recording: bool)
      reads this
      ensures recording == isRecording
    {
      isRecording
    }

    /** `pcmToAudioBuffer`: two channels of `|pcm| / 4` frames, frame `i`
        read from offset `4i`. */
    method PcmToAudioBuffer(pcmData: seq<byte>) returns (r: Result<SampleBuffer, string>)
      ensures !hasContext ==> r == Err(NO_CONTEXT)
      ensures hasContext && |pcmData| / 4 == 0 ==> r == Err(EMPTY_BUFFER)
      ensures hasContext && |pcmData| / 4 > 0 ==>
        r == Ok(SampleBuffer([Channel(pcmData, 0), Channel(pcmData, 1)], |pcmData| / 4, 48000))
    {
      if !hasContext {
        return Err(NO_CONTEXT);
      }
      var sampleCount := |pcmData| / 4;
      if sampleCount == 0 {
        return Err(EMPTY_BUFFER);
      }
      var leftChannel := new Sample[sampleCount];
      var rightChannel := new Sample[sampleCount];
      for i := 0 to sampleCount
        invariant forall k | 0 <= k < i :: leftChannel[k] == DecodeSample(pcmData[4 * k], pcmData[4 * k + 1])
        invariant forall k | 0 <= k < i :: rightChannel[k] == DecodeSample(pcmData[4 * k + 2], pcmData[4 * k + 3])
      {
        var offset := i * 4;
        leftChannel[i] := DecodeSample(pcmData[offset], pcmData[offset + 1]);
        rightChannel[i] := DecodeSample(pcmData[offset + 2], pcmData[offset + 3]);
      }
      assert leftChannel[..] == Channel(pcmData, 0);
      assert forall k | 0 <= k < sampleCount :: rightChannel[k] == Channel(pcmData, 1)[k];
      assert rightChannel[..] == Channel(pcmData, 1);
      r := Ok(SampleBuffer([leftChannel[..], rightChannel[..]], sampleCount, 48000));
    }
  }

  /** `convertToPCM`: no context throws; a rejected decode or a buffer with
      no channels is caught and gives no bytes; otherwise the bytes hold four
      per frame and play back as the first channel on the left and the
      second (the first again, for mono) on the right. */
  function ConvertedPcm(hasContext: bool, blob: seq<byte>, decode: Decoder): (r: Result<seq<byte>, string>)
    ensures !hasContext <==> r == Err(NO_CONTEXT)
    ensures hasContext && decode(blob).None? ==> r == Ok([])
    ensures hasContext && decode(blob).Some? && |decode(blob).value.channels| == 0 ==> r == Ok([])
    ensures hasContext && decode(blob).Some? && WellFormed(decode(blob).value) && |decode(blob).value.channels| > 0 ==>
      var buffer := decode(blob).value;
      && r.Ok? && |r.value| == 4 * buffer.length
      && Channel(r.value, 0) == buffer.channels[0]
      && Channel(r.value, 1) == buffer.channels[if |buffer.channels| == 1 then 0 else 1]
  {
    if !hasContext then Err(NO_CONTEXT)
    else match decode(blob)
      case None => Ok([])
      case Some(buffer) =>
        if !WellFormed(buffer) then Ok([])
        else match StereoChannels(buffer)
          case Err(_) => Ok([])
          case Ok((left, right)) =>
            PcmRoundTrip(left, right);
            Ok(Interleave(left, right))
  }

  /** The steps of `convertToPCM`. A decoded buffer that breaks the Web Audio
      shape is treated as a failed decode. */
  method ConvertToPcm(hasContext: bool, blob: seq<byte>, decode: Decoder) returns (r: Result<seq<byte>, string>)
    ensures r == ConvertedPcm(hasContext, blob, decode)
  {
    if !hasContext {
      return Err(NO_CONTEXT);
    }
    var audioBuffer := decode(blob);
    if audioBuffer.None? || !WellFormed(audioBuffer.value) {
      return Ok([]);
    }
    var pcm := AudioBufferToPcm(audioBuffer.value);
    if pcm.Err? {
      return Ok([]);
    }
    r := pcm;
  }
}
