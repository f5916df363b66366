# Disagreement bot: a Dafny model of its core

This project models the core of a voice and text chat service whose agent
disagrees with whatever the user says. The service has two halves. The
worker (`apps/agent`) has three parts:

- a conversation agent with an append-only memory of messages;
- a speech-to-text buffer, capped at 1 MiB, that feeds a Whisper model;
- a text-to-speech component that cuts MeloTTS audio into 32 KiB slices,
  and a handler that creates and closes real-time media adapters.

The web client (`apps/web`) has two parts:

- a reducer that folds streamed assistant events into the visible message
  list;
- an audio handler that records, packs stereo 16-bit samples into
  little-endian PCM, and unpacks it again.

There is one Dafny module per source file, plus `Common`:

- `ChatAgent` models `apps/agent/src/index.ts`.
- `WebSocketHandler` models `apps/web/src/lib/websocket-handler.ts`.
- `SpeechToText` models `apps/agent/src/stt-component.ts`.
- `TextToSpeech` models `apps/agent/src/tts-component.ts`.
- `RealtimeHandler` models `apps/agent/src/realtime-handler.ts`.
- `AudioHandling` models `apps/web/src/lib/audio-handler.ts`.
- `Common` holds the message record, byte chunks, and the copy loop that
  joins chunks.

Classes whose fields the source updates in place are Dafny classes whose
methods carry `modifies` clauses. A method that computes something (the
chunk push, the copy loops, the slicing and send loops, the PCM packing) is
proved against a specification function, and the properties are proved as
lemmas about that function. A method that only sets fields states its new
state directly in its postcondition.

Everything outside the program is a parameter of the operation that uses it:

- the language-model run, the Whisper reply and the MeloTTS reply;
- `atob` and the HTTP replies of the media service;
- whether a socket is open when a chunk is sent;
- `decodeAudioData`;
- fresh ids and clock readings.

The speech-to-text buffer follows the loop as written. The program's own
comments say that the push prevents buffer overflow
(apps/agent/src/stt-component.ts:28) and that it keeps only the most recent
chunks (apps/agent/src/stt-component.ts:34). The loop at lines 35-37,
however, tests a total that it computes once before the loop. So whenever a
push takes the total over 1 MiB and more than one chunk is buffered, only
the newest chunk is kept. `SpeechToText.StaleTotalEvictsDownToOne` exhibits
an input where this differs from dropping the oldest chunks one at a time
until the total fits.

Browser and worker callbacks are steps of their own. `onstop` and the
recorder's `dataavailable` event are methods called when the event fires.
Whisper's reply is a method called when the awaited call resolves, so a
chunk can be pushed between sending the audio and receiving the reply.

## Model

| member | source | states |
|---|---|---|
| Common.Concat | apps/agent/src/stt-component.ts:52-61 | Copying the chunks one after the other into a buffer of the summed length at a running offset yields their concatenation, of exactly the summed length |
| Common.CopyInto | apps/agent/src/stt-component.ts:59 | `set(chunk, offset)` places the chunk at the offset and leaves the bytes before it and after it unchanged |
| Common.TotalLength | apps/agent/src/stt-component.ts:29-32 | The summed length is at least the length of every chunk |
| Common.FlattenLength | apps/agent/src/stt-component.ts:52-56 | The summed chunk lengths are the length of the concatenated audio |
| WebSocketHandler.FindIndex | apps/web/src/lib/websocket-handler.ts:42-44 | `findIndex`: the result is -1 or a position holding the id, and no earlier position (none at all when -1) holds it |
| WebSocketHandler.HandleWebSocketMessage | apps/web/src/lib/websocket-handler.ts:18-81 | One event grows the list by at most one message, and leaves every position other than the first match of the event's id unchanged |
| WebSocketHandler.StartOpensMessage | apps/web/src/lib/websocket-handler.ts:27-36 | A start event with a non-empty id appends an empty assistant message with that id and stops loading; without an id nothing changes and nothing scrolls |
| WebSocketHandler.ChunkExtendsFirstMatch | apps/web/src/lib/websocket-handler.ts:37-51 | A chunk with a non-empty id and text extends the content of the first message with that id and leaves the rest alone; otherwise, or with no such message, the list is unchanged; the length never changes |
| WebSocketHandler.CompleteReplacesOrAppends | apps/web/src/lib/websocket-handler.ts:52-67 | A complete event replaces the first message with the same id, or appends the message when there is none |
| WebSocketHandler.ErrorAppendsMessage | apps/web/src/lib/websocket-handler.ts:68-77 | An error event keeps the list as a prefix, appends one assistant message with the fresh id whose text is the error or "An error occurred", and stops loading |
| WebSocketHandler.OtherEventsIgnored | apps/web/src/lib/websocket-handler.ts:78-80 | Any other event type returns the list unchanged and invokes no callback |
| WebSocketHandler.ChunkGrowsLast | apps/web/src/lib/websocket-handler.ts:42-50 | A chunk for the id of the last message, when no earlier message has that id, appends the chunk text to that message |
| WebSocketHandler.ChunksAccumulate | apps/web/src/lib/websocket-handler.ts:27-51 | A start event for a new non-empty id followed by chunk events for it yields the old list plus one assistant message holding the chunks joined in order |
| WebSocketHandler.StreamedReplyAssembles | apps/web/src/lib/websocket-handler.ts:27-51 | The same stream adds exactly one message, keeps the old list as a prefix, and the new message has the id, the assistant role and the joined chunks as content |
| WebSocketHandler.CompletedStreamReplaces | apps/web/src/lib/websocket-handler.ts:27-67 | Start, chunks and then the complete event for the same id leave the old list followed by the completed message alone |
| ChatAgent.FrameText | apps/agent/src/index.ts:65-71 | The user's text is the parsed frame's truthy `content`, else its truthy `message`, else the raw frame text, which is also used when parsing fails |
| ChatAgent.ReplyText | apps/agent/src/index.ts:153-155 | The reply is the run's non-empty `finalOutput`, else the fixed fallback sentence; it is never empty |
| ChatAgent.AgentName | apps/agent/src/index.ts:165-171 | The reported agent name is the name of a non-null agent object that has one, else "Disagreement Bot" |
| ChatAgent.AssistantMessage | apps/agent/src/index.ts:151-158 | The stored reply is an assistant message with the second fresh id and non-empty text |
| ChatAgent.TurnEntries | apps/agent/src/index.ts:74-161 | A turn stores the user message first; a failed run stores nothing else, a successful one stores exactly one assistant message with the reply text and the second fresh id |
| ChatAgent.TurnReply | apps/agent/src/index.ts:174-199 | A failed run sends the apology error frame; a successful one sends the reply text with the agent name |
| ChatAgent.TurnKeepsPairing | apps/agent/src/index.ts:160-161 | Appending a turn keeps every assistant message directly after a user message |
| ChatAgent.TurnAddsOneUser | apps/agent/src/index.ts:74-82 | Every turn stores exactly one user message |
| ChatAgent.ReplayAppendsOnly | apps/agent/src/index.ts:81-161 | Over any series of turns handled one after another, from any memory, memory keeps its old contents as a prefix, grows by one to two messages per turn, and gains exactly one user message per turn |
| ChatAgent.ReplayKeepsPairing | apps/agent/src/index.ts:81-161 | A memory in which every assistant message follows a user message stays so over any series of turns |
| ChatAgent.Agent.constructor | apps/agent/src/index.ts:29-31 | Memory starts empty |
| ChatAgent.Agent.ReceiveFrame | apps/agent/src/index.ts:58-82 | The user message is stored; the run is given the user's text alone, and the handler keeps the stored memory as its local copy |
| ChatAgent.Agent.FinishRun | apps/agent/src/index.ts:148-199 | A successful run sets memory to the local copy plus the reply, overwriting whatever was stored meanwhile; a failed run leaves memory alone; the frame is the turn's reply |
| ChatAgent.Agent.OnMessage | apps/agent/src/index.ts:54-201 | With nothing else touching memory during the run: the run is given the user's text alone while memory holds the old memory plus the user message; afterwards memory is the old memory plus the turn's entries, and the frame sent is the turn's reply |
| ChatAgent.OverlappingTurns | apps/agent/src/index.ts:81-161 | When a second frame arrives during the first run, the first run's write drops the second user message, and the second run's write drops the first reply |
| ChatAgent.ClearDuringRun | apps/agent/src/index.ts:81-161 | A `clearMemory` during a run is undone when the run writes back its local copy and the reply |
| ChatAgent.Agent.GetMemory | apps/agent/src/index.ts:235-237 | Returns the memory as stored |
| ChatAgent.Agent.ClearMemory | apps/agent/src/index.ts:240-243 | Memory becomes empty |
| SpeechToText.Pushed | apps/agent/src/stt-component.ts:25-39 | After a push the buffer is non-empty and ends with the pushed chunk |
| SpeechToText.PushAll | apps/agent/src/stt-component.ts:25-39 | After a non-empty series of pushes the buffer ends with the last chunk pushed |
| SpeechToText.PushWithinCap | apps/agent/src/stt-component.ts:33-38 | A push keeps the buffer within 1 MiB or down to one chunk; it appends when the new total fits, and leaves only the new chunk when it does not |
| SpeechToText.PushAllWithinCap | apps/agent/src/stt-component.ts:25-39 | Any non-empty series of pushes leaves a non-empty buffer within the cap that is a suffix, in order, of the chunks pushed |
| SpeechToText.StaleTotalEvictsDownToOne | apps/agent/src/stt-component.ts:33-38 | With two one-byte chunks buffered, pushing 1,048,575 bytes leaves only the new chunk, although dropping the oldest chunk alone would have been within the cap |
| SpeechToText.TranscriptText | apps/agent/src/stt-component.ts:76 | The transcript is the reply's non-empty `text`, else its `transcription`, else "" |
| SpeechToText.WhisperStt.constructor | apps/agent/src/stt-component.ts:15 | The buffer starts empty |
| SpeechToText.WhisperStt.AddAudioChunk | apps/agent/src/stt-component.ts:25-39 | The eviction loop leaves exactly the buffer `Pushed` describes |
| SpeechToText.WhisperStt.SendAudio | apps/agent/src/stt-component.ts:46-70 | An empty buffer sends nothing; otherwise the audio sent is the buffered chunks joined, of the buffered length |
| SpeechToText.WhisperStt.ReceiveReply | apps/agent/src/stt-component.ts:68-81 | A model error propagates and keeps the buffer; any reply empties the buffer, including chunks added while the call was in flight; a nullish reply then throws a `TypeError`, and a reply gives its transcript |
| SpeechToText.WhisperStt.Transcribe | apps/agent/src/stt-component.ts:45-82 | With no chunk added during the call: an empty buffer gives "" without calling the model; otherwise the joined audio is sent, a model error propagates and keeps the buffer, a nullish reply empties it and throws, and a reply empties it and gives its transcript |
| SpeechToText.WhisperStt.ClearBuffer | apps/agent/src/stt-component.ts:87-89 | The buffer becomes empty |
| SpeechToText.WhisperStt.GetBufferSize | apps/agent/src/stt-component.ts:94-96 | The size is the summed chunk lengths, which is the length of the audio the next transcription sends |
| TextToSpeech.IsBlank | apps/agent/src/tts-component.ts:26 | The text counts as blank exactly when trimming its leading white space leaves nothing |
| TextToSpeech.TrimStart | apps/agent/src/tts-component.ts:34 | Drops exactly the leading white space: what remains is a suffix that does not start with white space |
| TextToSpeech.TrimEnd | apps/agent/src/tts-component.ts:34 | Drops exactly the trailing white space: what remains is a prefix that does not end with white space |
| TextToSpeech.Trim | apps/agent/src/tts-component.ts:26-34 | The trimmed prompt is empty exactly when the text is blank, and otherwise starts and ends with a character that is not white space |
| TextToSpeech.SelectAudio | apps/agent/src/tts-component.ts:41-46 | The audio used is the truthy top-level `audio`, else the truthy nested one, else none |
| TextToSpeech.SynthesisAudio | apps/agent/src/tts-component.ts:25-85 | Blank text gives no audio; a failed model call gives its error; no truthy audio gives no audio; binary audio is used as it is; base64 audio gives the `atob` result's character codes modulo 256, or the `atob` error; audio of any other kind gives no audio; an error comes only from the model or from decoding base64 |
| TextToSpeech.CharCodeBytes | apps/agent/src/tts-component.ts:57-64 | One byte per character of the decoded string |
| TextToSpeech.CharCodesKept | apps/agent/src/tts-component.ts:57-64 | For a binary string (every code below 256) each byte is the character's code |
| TextToSpeech.CopyCharCodes | apps/agent/src/tts-component.ts:57-64 | The copy loop stores each character code reduced modulo 256, as a `Uint8Array` does |
| TextToSpeech.Chunks | apps/agent/src/tts-component.ts:76-79 | Every slice is non-empty and at most 32 KiB |
| TextToSpeech.ChunksFlatten | apps/agent/src/tts-component.ts:76-79 | The slices laid end to end give back the audio |
| TextToSpeech.ChunksShape | apps/agent/src/tts-component.ts:76-79 | There are ceil(n / 32768) slices, each non-empty and at most 32 KiB, and all but the last exactly 32 KiB |
| TextToSpeech.SliceEnd | apps/agent/src/tts-component.ts:77 | A slice starting inside the audio is non-empty, at most 32 KiB, and ends within the audio |
| TextToSpeech.ChunksFrom | apps/agent/src/tts-component.ts:76-79 | The slices from any position are the slice starting there followed by the slices after it |
| TextToSpeech.SliceChunks | apps/agent/src/tts-component.ts:76-79 | The slicing loop yields exactly the slices `Chunks` describes |
| TextToSpeech.Synthesize | apps/agent/src/tts-component.ts:25-85 | Blank text yields nothing without calling the model; otherwise the trimmed text is the prompt, a model or `atob` error propagates, missing or unknown audio yields nothing, and the audio is yielded in slices |
| TextToSpeech.SynthesizeToBuffer | apps/agent/src/tts-component.ts:92-108 | Joining the yielded slices gives back the model's audio, or the synthesis error |
| RealtimeHandler.GetConfig | apps/agent/src/realtime-handler.ts:52-74 | Succeeds exactly when all three secrets are non-empty; otherwise it reports the first one missing, in the order app id, API token, account id, with its exact message |
| RealtimeHandler.AdapterFromReply | apps/agent/src/realtime-handler.ts:105-133 | An adapter results exactly when the response is ok and carries at least one track, and it is the first track; a failed response reports its status and body |
| RealtimeHandler.Delivered | apps/agent/src/realtime-handler.ts:235-239 | No more chunks are sent than were synthesized, and every chunk sent is one of them |
| RealtimeHandler.OpenIndices | apps/agent/src/realtime-handler.ts:235-239 | The indices at which the socket is open, increasing, all of them and no other |
| RealtimeHandler.DeliveredAtOpenIndices | apps/agent/src/realtime-handler.ts:235-239 | The chunks sent are exactly the chunks at the open indices, in order |
| RealtimeHandler.OpenSocketGetsAll | apps/agent/src/realtime-handler.ts:235-239 | While the socket stays open every chunk is sent, in order |
| RealtimeHandler.StreamedAudioComplete | apps/agent/src/realtime-handler.ts:233-245 | A socket that stays open receives slices that join to exactly the synthesized audio |
| RealtimeHandler.CloseRequests | apps/agent/src/realtime-handler.ts:200-214 | One close request per adapter id, in order, each under the configuration |
| RealtimeHandler.SendWhileOpen | apps/agent/src/realtime-handler.ts:235-239 | The send loop sends exactly the chunks `Delivered` describes |
| RealtimeHandler.SynthesizeAndStream | apps/agent/src/realtime-handler.ts:233-245 | The chunks sent are the synthesized slices that find the socket open, in order, or the synthesis error propagates |
| RealtimeHandler.Handler.constructor | apps/agent/src/realtime-handler.ts:33-47 | No adapters and no sockets, an empty speech buffer, and no requests made |
| RealtimeHandler.Handler.RequestIngest | apps/agent/src/realtime-handler.ts:79-104 | Without a complete configuration the call throws before any request; otherwise exactly the ingest request goes out, and no slot changes |
| RealtimeHandler.Handler.RequestStream | apps/agent/src/realtime-handler.ts:139-165 | As for ingest, with the session id in the request |
| RealtimeHandler.Handler.ReceiveAdapterReply | apps/agent/src/realtime-handler.ts:106-133 | On the service's reply the slot of that kind is filled exactly when the reply yields an adapter, whatever the slot held meanwhile; the other slot and the requests are untouched |
| RealtimeHandler.CleanupDuringIngestLeaks | apps/agent/src/realtime-handler.ts:79-133 | A cleanup while an ingest request is in flight closes nothing; the reply then fills the slot, and no close request names that adapter |
| RealtimeHandler.Handler.CreateIngestAdapter | apps/agent/src/realtime-handler.ts:79-134 | With nothing else running while the request is in flight: a missing secret fails before any request; otherwise one ingest request goes out, and the ingest slot is set exactly when the reply yields an adapter; nothing else changes |
| RealtimeHandler.Handler.CreateStreamAdapter | apps/agent/src/realtime-handler.ts:139-195 | As for ingest, on the stream slot, with the session id in the request |
| RealtimeHandler.Handler.PendingCloses | apps/agent/src/realtime-handler.ts:253-261 | One close per adapter held |
| RealtimeHandler.Handler.Cleanup | apps/agent/src/realtime-handler.ts:250-276 | Both adapter slots are emptied whatever happens; close requests go out only under a complete configuration; on success the sockets are closed and the speech buffer cleared, on failure they are left as they were |
| RealtimeHandler.Handler.AddAudioChunk | apps/agent/src/realtime-handler.ts:219-221 | The chunk is pushed into the speech buffer |
| RealtimeHandler.Handler.Transcribe | apps/agent/src/realtime-handler.ts:226-228 | The speech component's transcript, error and buffer effect, unchanged |
| RealtimeHandler.Handler.GetIngestAdapter | apps/agent/src/realtime-handler.ts:278-280 | Returns the ingest slot as stored |
| RealtimeHandler.Handler.GetStreamAdapter | apps/agent/src/realtime-handler.ts:282-284 | Returns the stream slot as stored |
| AudioHandling.Low | apps/web/src/lib/audio-handler.ts:158 | The low byte agrees with the sample modulo 256 |
| AudioHandling.High | apps/web/src/lib/audio-handler.ts:159 | High and low byte together are the 16-bit two's-complement form of the sample |
| AudioHandling.DecodeSample | apps/web/src/lib/audio-handler.ts:242-244 | The decoded sample is the little-endian value, less 0x10000 when it is negative |
| AudioHandling.DecodeEncode | apps/web/src/lib/audio-handler.ts:242-252 | Decoding the low and high bytes of any 16-bit sample gives the sample back |
| AudioHandling.EncodeDecode | apps/web/src/lib/audio-handler.ts:158-165 | Encoding the decoded value of any byte pair gives the pair back |
| AudioHandling.StereoChannels | apps/web/src/lib/audio-handler.ts:134-147 | Mono is copied to both channels, two or more channels give channels 0 and 1, and zero channels is the "Unsupported channel count: 0" error |
| AudioHandling.Interleave | apps/web/src/lib/audio-handler.ts:150-151 | The PCM stream is four bytes per frame |
| AudioHandling.InterleaveLayout | apps/web/src/lib/audio-handler.ts:153-166 | Frame i occupies bytes 4i to 4i+3 as left low, left high, right low, right high |
| AudioHandling.Channel | apps/web/src/lib/audio-handler.ts:232-253 | A channel read back has one sample per whole frame, sample i decoded from bytes 4i+2c and 4i+2c+1 |
| AudioHandling.PcmRoundTrip | apps/web/src/lib/audio-handler.ts:238-253 | Unpacking packed stereo samples gives back both channels |
| AudioHandling.MonoPlaysOnBoth | apps/web/src/lib/audio-handler.ts:136-139 | A mono recording comes back with its samples on both channels |
| AudioHandling.AudioBufferToPcm | apps/web/src/lib/audio-handler.ts:123-169 | The packing loop with its running offset produces exactly the interleaved stream of the chosen channels, or the channel-count error |
| AudioHandling.ConvertedPcm | apps/web/src/lib/audio-handler.ts:99-118 | Without a context the conversion fails; a rejected decode or a buffer without channels gives no bytes; otherwise the bytes are four per frame and play back as the first channel on the left and the second (the first again, for mono) on the right |
| AudioHandling.ConvertToPcm | apps/web/src/lib/audio-handler.ts:99-118 | The conversion steps produce what `ConvertedPcm` describes |
| AudioHandling.AudioHandler.constructor | apps/web/src/lib/audio-handler.ts:6-11 | Nothing is acquired, nothing records, and the chunk list is empty |
| AudioHandling.AudioHandler.Initialize | apps/web/src/lib/audio-handler.ts:16-33 | With microphone access the stream and context exist; without it the "Failed to access microphone" error is raised and nothing changes |
| AudioHandling.AudioHandler.NewRecorder | apps/web/src/lib/audio-handler.ts:61-69 | A recorder that is made and started runs with the given handler; a throwing constructor changes nothing; a throwing `start` leaves the new recorder with its handler but not running |
| AudioHandling.AudioHandler.StartRecording | apps/web/src/lib/audio-handler.ts:38-70 | It fails when uninitialised and does nothing when already recording; otherwise it empties the chunk list and sets the flag, then starts a collecting recorder or, when making or starting it throws, raises that error with the flag still set |
| AudioHandling.AudioHandler.OnDataAvailable | apps/web/src/lib/audio-handler.ts:63-67 | A recording collects only non-empty blobs; a stream forwards the PCM of each non-empty blob that converts |
| AudioHandling.AudioHandler.StopRecorder | apps/web/src/lib/audio-handler.ts:92 | `stop()` on a running recorder stops it and makes a `stop` event due; on an inactive one it does nothing |
| AudioHandling.AudioHandler.StopRecording | apps/web/src/lib/audio-handler.ts:75-94 | It resolves to null without a recorder or the flag; otherwise it installs a waiting `onstop` handler and stops the recorder, leaving the flag set, so a second call before the event passes the guard again |
| AudioHandling.AudioHandler.OnStop | apps/web/src/lib/audio-handler.ts:81-90 | The `stop` event runs the waiting handler, if any: it clears the flag and resolves with the PCM of the joined chunks, or never settles when the conversion throws |
| AudioHandling.AudioHandler.StartStreaming | apps/web/src/lib/audio-handler.ts:261-288 | Like starting a recording, but the chunk list is left alone and the recorder forwards; a throwing constructor or `start` leaves the flag set |
| AudioHandling.AudioHandler.StopStreaming | apps/web/src/lib/audio-handler.ts:293-298 | With a recorder and the flag set, the recorder is stopped and the flag cleared at once; otherwise nothing changes |
| AudioHandling.AudioHandler.Cleanup | apps/web/src/lib/audio-handler.ts:303-323 | The recorder is stopped as by `stopStreaming`, and the stream, context and audio element are released |
| AudioHandling.AudioHandler.GetIsRecording | apps/web/src/lib/audio-handler.ts:328-330 | Returns the recording flag as stored |
| AudioHandling.AudioHandler.PcmToAudioBuffer | apps/web/src/lib/audio-handler.ts:226-256 | Without a context it fails, and a stream shorter than one frame is refused by `createBuffer`; otherwise two channels of length/4 frames are decoded, frame i from offset 4i |

## Left out

- The language-model run and its agents, the Whisper and MeloTTS calls, the media service's HTTP API and `atob` are foreign calls. Each is a parameter giving its reply or its failure. The personality prompts and the triage set-up (apps/agent/src/index.ts:84-145) only configure the model run, so they are not modelled.
- The `finally` block at apps/agent/src/index.ts:182-189 is not modelled. It reads `originalApiKey`, which is declared nowhere, so it would throw after memory has been updated. The outer handler would then also send the apology frame, even after a successful reply.
- The decoding of binary frames with `TextDecoder` (apps/agent/src/index.ts:60-63) is not modelled. A frame is modelled as its text.
- ChatAgent.FrameText: a JSON value that is not a string is represented by its truthiness and the text it is stored as; JSON parsing itself is not modelled.
- Persistence by `setState`, `onConnect`, `onError` and `onClose` are not modelled. They do nothing beyond logging or storing.
- Timestamps are integers. The client's `new Date(...)` conversion of the completed message's timestamp is not modelled.
- The `setMessages` callback is not modelled because the reducer never calls it. The `setIsLoading(false)` and `scrollToBottom()` calls are the two flags of `Reduction`.
- All float audio math is left out: clamping, scaling by 0x7fff, the division back to [-1, 1], and resampling. Samples are the 16-bit integers the scaling produces. `resampleAudioBuffer` returns its input, so the sample rate has no effect.
- The browser media objects (`getUserMedia`, `MediaRecorder`, `AudioContext`, the audio element and playback with `playPCMAudio`) are not modelled. They are flags and the `decodeAudioData` oracle. Console logging is not modelled.
- AudioHandling.ConvertToPcm: a decoded buffer whose channels differ in length from its `length` cannot come from the Web Audio API. It is treated like a failed decode.
- AudioHandling.AudioHandler.PcmToAudioBuffer: when the byte count is not a multiple of 4, the source loops once more at a fractional frame count. That extra write falls outside the channel arrays and is dropped. The model decodes the whole frames only.
- The WebSocket objects of the real-time handler are only identities. `ingestWs` and `streamWs` are never assigned by the source, so `cleanup` closes them only in principle.
- RealtimeHandler.Handler.Cleanup: a single flag says whether the close requests that went out resolved. Which of the two failed is not distinguished, because `Promise.all` rejects either way.
- AudioHandling.AudioHandler: one recorder is tracked. A recorder replaced while it still runs, or whose `stop` event is still due when a new one is made, is not tracked on its own. Its pending event is attributed to the handler as a whole. The final `dataavailable` event that `stop()` triggers is one more `OnDataAvailable` call.
- AudioHandling.AudioHandler.OnDataAvailable: when forwarding, the conversion is awaited before `onChunk` is called. Conversions of successive blobs may finish out of order, so the order of the forwarded chunks is not promised. Each call is modelled as finishing before the next event.
- RealtimeHandler.Handler.Cleanup: the method is one step. It does not model the `await Promise.all` at apps/agent/src/realtime-handler.ts:263, during which other calls could add adapters or push audio before the sockets are closed and the speech buffer cleared.
- SpeechToText.WhisperStt.Transcribe: it composes `SendAudio` and `ReceiveReply` with nothing in between. The interleaving of a chunk pushed during the model call is captured by calling the two steps separately.
- RealtimeHandler.Handler.Transcribe: it delegates to the one-step `Transcribe` of the speech component, so a chunk pushed through the handler while the model call is in flight is not modelled at this level.
- ChatAgent.Agent.OnMessage: it composes `ReceiveFrame` and `FinishRun` with nothing in between. Interleaved frames and a `clearMemory` during the `await` at apps/agent/src/index.ts:148 are captured by calling the two steps separately (`OverlappingTurns`, `ClearDuringRun`). `ChatAgent.ReplayAppendsOnly` and `ChatAgent.ReplayKeepsPairing` hold only for turns handled one after another.
- RealtimeHandler.Handler.CreateIngestAdapter and RealtimeHandler.Handler.CreateStreamAdapter: each composes its request step and `ReceiveAdapterReply` with nothing in between. The three awaits of each (the fetch, then reading the error text or the JSON body) are one reply step.
- apps/web/src/lib/realtime-client.ts is not part of this model. It is browser WebSocket and fetch plumbing.
- The SvelteKit route handlers, authentication, database schemas and build configuration are not part of this model. They are thin wrappers around libraries or declarations.
