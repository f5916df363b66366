/** The real-time voice adapter bookkeeping of the worker
    (apps/agent/src/realtime-handler.ts). The HTTP calls to the media
    service become a log of requests plus a reply given as a parameter. What
    remains is configuration checking, two optional adapter slots, cleanup,
    and forwarding synthesized audio to an open socket. */
module RealtimeHandler {
  import opened Common
  import SpeechToText
  import TextToSpeech

  const MISSING_APP_ID := "Realtime SFU configuration missing. Set REALTIME_APP_ID secret."
  const MISSING_API_TOKEN := "Realtime SFU configuration missing. Set REALTIME_API_TOKEN secret."
  const MISSING_ACCOUNT_ID := "Realtime SFU configuration missing. Set ACCOUNT_ID secret."

  /** The optional secrets of the worker's environment. */
  datatype Env = Env(appId: Option<string>, apiToken: Option<string>, accountId: Option<string>)

  datatype Config = Config(appId: string, apiToken: string, accountId: string)

  datatype AdapterInfo = AdapterInfo(adapterId: string, sessionId: string, trackName: string, endpoint: string)

  /** One entry of the `tracks` array the service returns. */
  datatype Track = Track(trackName: string, adapterId: string, sessionId: string, endpoint: string)

  /** The service's answer to a creation request: the `fetch` rejects, or a
      response with its `ok` flag, status, body text and optional `tracks`. */
  datatype HttpReply = FetchRejected(reason: string) | HttpResponse(ok: bool, status: int, body: string, tracks: Option<seq<Track>>)

  datatype AdapterKind = Ingest | Stream

  /** The requests sent to the media service, each with the account, app and
      bearer token of the configuration it was sent under. */
  datatype Request =
    | NewIngest(config: Config, trackName: string, endpoint: string)
    | NewStream(config: Config, sessionId: string, trackName: string, endpoint: string)
    | CloseAdapter(config: Config, adapterId: string)

  datatype AdapterError =
    | ConfigMissing(message: string)
    | FetchFailed(reason: string)
    | CreateFailed(kind: AdapterKind, status: int, body: string)
    | NoTracks

  /** A WebSocket the handler may hold; never assigned in the source. */
  datatype SocketId = SocketId(id: nat)

  predicate Present(s: Option<string>)
  {
    s.Some? && s.value != ""
  }

  /** `getConfig`: the first missing secret, in the order app id, API token,
      account id, with the empty string counting as missing. */
  function GetConfig(env: Env): (r: Result<Config, AdapterError>)
    ensures r.Ok? <==> Present(env.appId) && Present(env.apiToken) && Present(env.accountId)
    ensures r.Ok? ==> r.value == Config(env.appId.value, env.apiToken.value, env.accountId.value)
    ensures !Present(env.appId) ==> r == Err(ConfigMissing(MISSING_APP_ID))
    ensures Present(env.appId) && !Present(env.apiToken) ==> r == Err(ConfigMissing(MISSING_API_TOKEN))
    ensures Present(env.appId) && Present(env.apiToken) && !Present(env.accountId) ==> r == Err(ConfigMissing(MISSING_ACCOUNT_ID))
  {
    if !Present(env.appId) then Err(ConfigMissing(MISSING_APP_ID))
    else if !Present(env.apiToken) then Err(ConfigMissing(MISSING_API_TOKEN))
    else if !Present(env.accountId) then Err(ConfigMissing(MISSING_ACCOUNT_ID))
    else Ok(Config(env.appId.value, env.apiToken.value, env.accountId.value))
  }

  /** The response handling shared by `createIngestAdapter` and
      `createStreamAdapter`: the adapter is the first returned track. */
  function AdapterFromReply(kind: AdapterKind, reply: HttpReply): (r: Result<AdapterInfo, AdapterError>)
    ensures r.Ok? <==> reply.HttpResponse? && reply.ok && reply.tracks.Some? && reply.tracks.value != []
    ensures r.Ok? ==> var track := reply.tracks.value[0];
      r.value == AdapterInfo(track.adapterId, track.sessionId, track.trackName, track.endpoint)
    ensures reply.HttpResponse? && !reply.ok ==> r == Err(CreateFailed(kind, reply.status, reply.body))
  {
    match reply
    case FetchRejected(reason) => Err(FetchFailed(reason))
    case HttpResponse(ok, status, body, tracks) =>
      if !ok then Err(CreateFailed(kind, status, body))
      else if tracks.None? || tracks.value == [] then Err(NoTracks)
      else
        var track := tracks.value[0];
        Ok(AdapterInfo(track.adapterId, track.sessionId, track.trackName, track.endpoint))
  }

  /** The chunks `ws.send` is called with: chunk `k` goes out when the socket
      is open at that point, and the order is kept. */
  function Delivered(chunks: seq<seq<byte>>, open: nat -> bool): (sent: seq<seq<byte>>)
    ensures |sent| <= |chunks|
    ensures forall k | 0 <= k < |sent| :: sent[k] in chunks
  {
    if chunks == [] then []
    else Delivered(chunks[..|chunks| - 1], open) + (if open(|chunks| - 1) then [chunks[|chunks| - 1]] else [])
  }

  /** The indices below `n` at which the socket is open, in increasing order:
      every such index, and no other. */
  function OpenIndices(n: nat, open: nat -> bool): (picks: seq<nat>)
    ensures forall j | 0 <= j < |picks| :: picks[j] < n && open(picks[j])
    ensures forall j, k | 0 <= j < k < |picks| :: picks[j] < picks[k]
    ensures forall k: nat | k < n && open(k) :: k in picks
  {
    if n == 0 then [] else OpenIndices(n - 1, open) + (if open(n - 1) then [n - 1] else [])
  }

  /** Delivery skips the chunks that find the socket closed and keeps the
      others in order: the delivered chunks are the chunks at the open
      indices. */
  lemma {:induction false} DeliveredAtOpenIndices(chunks: seq<seq<byte>>, open: nat -> bool)
    ensures var picks := OpenIndices(|chunks|, open);
      && |Delivered(chunks, open)| == |picks|
      && forall j | 0 <= j < |picks| :: Delivered(chunks, open)[j] == chunks[picks[j]]
  {
    if chunks != [] {
      var n := |chunks| - 1;
      var prefix := chunks[..n];
      DeliveredAtOpenIndices(prefix, open);
      var before := Delivered(prefix, open);
      var picksBefore := OpenIndices(n, open);
      var delivered := Delivered(chunks, open);
      var picks := OpenIndices(|chunks|, open);
      assert delivered == before + (if open(n) then [chunks[n]] else []);
      assert picks == picksBefore + (if open(n) then [n] else []);
      forall j | 0 <= j < |picks|
        ensures delivered[j] == chunks[picks[j]]
      {
        if j < |picksBefore| {
          assert delivered[j] == before[j] == prefix[picksBefore[j]];
        }
      }
    }
  }

  /** While the socket stays open every chunk is delivered, so the receiver
      gets the synthesized audio byte for byte. */
  lemma {:induction false} OpenSocketGetsAll(chunks: seq<seq<byte>>, open: nat -> bool)
    requires forall k: nat | k < |chunks| :: open(k)
    ensures Delivered(chunks, open) == chunks
  {
    if chunks != [] {
      var n := |chunks| - 1;
      OpenSocketGetsAll(chunks[..n], open);
      assert chunks[..n] + [chunks[n]] == chunks;
    }
  }

  /** A receiver whose socket stays open reassembles exactly the audio the
      model produced. */
  lemma StreamedAudioComplete(text: string, reply: TextToSpeech.MelottsReply, atob: TextToSpeech.Atob, open: nat -> bool)
    requires TextToSpeech.Synthesized(text, reply, atob).Ok?
    requires forall k: nat | k < |TextToSpeech.Synthesized(text, reply, atob).value| :: open(k)
    ensures Flatten(Delivered(TextToSpeech.Synthesized(text, reply, atob).value, open))
      == TextToSpeech.SynthesisAudio(text, reply, atob).value
  {
    var chunks := TextToSpeech.Synthesized(text, reply, atob).value;
    OpenSocketGetsAll(chunks, open);
    TextToSpeech.ChunksFlatten(TextToSpeech.SynthesisAudio(text, reply, atob).value);
  }

  /** `RealtimeAdapterHandler`. `requests` records the calls made to the
      media service, `closedSockets` the sockets closed by `cleanup`. */
  class Handler {
    const env: Env
    const stt: SpeechToText.WhisperStt
    var ingestAdapter: Option<AdapterInfo>
    var streamAdapter: Option<AdapterInfo>
    var ingestWs: Option<SocketId>
    var streamWs: Option<SocketId>
    var requests: seq<Request>
    var closedSockets: seq<SocketId>

    constructor (env: Env)
      ensures this.env == env && fresh(stt) && stt.audioBuffer == []
      ensures ingestAdapter == None && streamAdapter == None
      ensures ingestWs == None && streamWs == None
      ensures requests == [] && closedSockets == []
    {
      this.env := env;
      stt := new SpeechToText.WhisperStt();
      ingestAdapter, streamAdapter := None, None;
      ingestWs, streamWs := None, None;
      requests, closedSockets := [], [];
    }

    /** `createIngestAdapter` up to its first `await`: with a complete
        configuration the ingest request goes out; without one the call
        throws before any request. */
    method RequestIngest(endpoint: string, trackName: string) returns (sent: Result<Config, AdapterError>)
      modifies this
      ensures sent == GetConfig(env)
      ensures sent.Err? ==> requests == old(requests)
      ensures sent.Ok? ==> requests == old(requests) + [NewIngest(sent.value, trackName, endpoint)]
      ensures ingestAdapter == old(ingestAdapter) && streamAdapter == old(streamAdapter)
      ensures ingestWs == old(ingestWs) && streamWs == old(streamWs) && closedSockets == old(closedSockets)
    {
      sent := GetConfig(env);
      if sent.Ok? {
        requests := requests + [NewIngest(sent.value, trackName, endpoint)];
      }
    }

    /** `createStreamAdapter` up to its first `await`, as for ingest. */
    method RequestStream(sessionId: string, trackName: string, endpoint: string) returns (sent: Result<Config, AdapterError>)
      modifies this
      ensures sent == GetConfig(env)
      ensures sent.Err? ==> requests == old(requests)
      ensures sent.Ok? ==> requests == old(requests) + [NewStream(sent.value, sessionId, trackName, endpoint)]
      ensures ingestAdapter == old(ingestAdapter) && streamAdapter == old(streamAdapter)
      ensures ingestWs == old(ingestWs) && streamWs == old(streamWs) && closedSockets == old(closedSockets)
    {
      sent := GetConfig(env);
      if sent.Ok? {
        requests := requests + [NewStream(sent.value, sessionId, trackName, endpoint)];
      }
    }

    /** The rest of `createIngestAdapter` or `createStreamAdapter`, once the
        service replies: the slot of `kind` is filled when the reply yields
        an adapter, whatever happened to the slot while the request was in
        flight. */
    method ReceiveAdapterReply(kind: AdapterKind, reply: HttpReply) returns (r: Result<AdapterInfo, AdapterError>)
      modifies this
      ensures r == AdapterFromReply(kind, reply)
      ensures kind == Ingest ==>
        && ingestAdapter == (if r.Ok? then Some(r.value) else old(ingestAdapter))
        && streamAdapter == old(streamAdapter)
      ensures kind == Stream ==>
        && streamAdapter == (if r.Ok? then Some(r.value) else old(streamAdapter))
        && ingestAdapter == old(ingestAdapter)
      ensures requests == old(requests)
      ensures ingestWs == old(ingestWs) && streamWs == old(streamWs) && closedSockets == old(closedSockets)
    {
      r := AdapterFromReply(kind, reply);
      if r.Ok? {
        if kind == Ingest {
          ingestAdapter := Some(r.value);
        } else {
          streamAdapter := Some(r.value);
        }
      }
    }

    /** `createIngestAdapter` when nothing else runs while the request is in
        flight: no request without a complete configuration; the ingest slot
        changes only on success. */
    method CreateIngestAdapter(endpoint: string, trackName: string, reply: HttpReply) returns (r: Result<AdapterInfo, AdapterError>)
      modifies this
      ensures streamAdapter == old(streamAdapter) && ingestWs == old(ingestWs) && streamWs == old(streamWs)
      ensures closedSockets == old(closedSockets)
      ensures GetConfig(env).Err? ==> r == Err(GetConfig(env).error) && requests == old(requests)
      ensures GetConfig(env).Ok? ==>
        && requests == old(requests) + [NewIngest(GetConfig(env).value, trackName, endpoint)]
        && r == AdapterFromReply(Ingest, reply)
      ensures ingestAdapter == if r.Ok? then Some(r.value) else old(ingestAdapter)
    {
      var sent := RequestIngest(endpoint, trackName);
      if sent.Err? {
        return Err(sent.error);
      }
      r := ReceiveAdapterReply(Ingest, reply);
    }

    /** `createStreamAdapter`: as for ingest, on the stream slot. */
    method CreateStreamAdapter(sessionId: string, trackName: string, endpoint: string, reply: HttpReply) returns (r: Result<AdapterInfo, AdapterError>)
      modifies this
      ensures ingestAdapter == old(ingestAdapter) && ingestWs == old(ingestWs) && streamWs == old(streamWs)
      ensures closedSockets == old(closedSockets)
      ensures GetConfig(env).Err? ==> r == Err(GetConfig(env).error) && requests == old(requests)
      ensures GetConfig(env).Ok? ==>
        && requests == old(requests) + [NewStream(GetConfig(env).value, sessionId, trackName, endpoint)]
        && r == AdapterFromReply(Stream, reply)
      ensures streamAdapter == if r.Ok? then Some(r.value) else old(streamAdapter)
    {
      var sent := RequestStream(sessionId, trackName, endpoint);
      if sent.Err? {
        return Err(sent.error);
      }
      r := ReceiveAdapterReply(Stream, reply);
    }

    /** The ids `cleanup` asks the service to close, in order. */
    function PendingCloses(): (ids: seq<string>)
      reads this
      ensures |ids| == (if ingestAdapter.Some? then 1 else 0) + (if streamAdapter.Some? then 1 else 0)
    {
      (if ingestAdapter.Some? then [ingestAdapter.value.adapterId] else []) +
      (if streamAdapter.Some? then [streamAdapter.value.adapterId] else [])
    }

    /** `cleanup`. Each `closeAdapter` first reads the configuration, so with
        none no close request goes out and its promise rejects; `fetchesResolve`
        says whether the close requests that did go out resolved.
        `Promise.all` succeeds when every close did; only then are the sockets
        closed and the speech buffer cleared. */
    method Cleanup(fetchesResolve: bool) returns (ok: bool)
      modifies this, stt
      ensures ingestAdapter == None && streamAdapter == None
      ensures var ids := old(PendingCloses());
        && requests == old(requests) + (if GetConfig(env).Ok? then CloseRequests(GetConfig(env).value, ids) else [])
        && ok == (ids == [] || (GetConfig(env).Ok? && fetchesResolve))
      ensures ok ==>
        && ingestWs == None && streamWs == None && stt.audioBuffer == []
        && closedSockets == old(closedSockets)
          + (if old(ingestWs).Some? then [old(ingestWs).value] else [])
          + (if old(streamWs).Some? then [old(streamWs).value] else [])
      ensures !ok ==>
        && ingestWs == old(ingestWs) && streamWs == old(streamWs)
        && stt.audioBuffer == old(stt.audioBuffer) && closedSockets == old(closedSockets)
    {
      var config := GetConfig(env);
      var pending: seq<string> := [];
      if ingestAdapter.Some? {
        pending := pending + [ingestAdapter.value.adapterId];
        if config.Ok? {
          requests := requests + [CloseAdapter(config.value, ingestAdapter.value.adapterId)];
        }
        ingestAdapter := None;
      }
      if streamAdapter.Some? {
        pending := pending + [streamAdapter.value.adapterId];
        if config.Ok? {
          requests := requests + [CloseAdapter(config.value, streamAdapter.value.adapterId)];
        }
        streamAdapter := None;
      }
      ok := pending == [] || (config.Ok? && fetchesResolve);
      if !ok {
        return;
      }
      if ingestWs.Some? {
        closedSockets := closedSockets + [ingestWs.value];
        ingestWs := None;
      }
      if streamWs.Some? {
        closedSockets := closedSockets + [streamWs.value];
        streamWs := None;
      }
      stt.ClearBuffer();
    }

    /** `addAudioChunk`: handed to the speech-to-text buffer unchanged. */
    method AddAudioChunk(audioData: seq<byte>)
      modifies stt
      ensures stt.audioBuffer == SpeechToText.Pushed(old(stt.audioBuffer), audioData)
    {
      stt.AddAudioChunk(audioData);
    }

    /** `transcribe`: the speech-to-text component's answer, unchanged. */
    method Transcribe(reply: SpeechToText.WhisperReply) returns (r: Result<string, string>)
      modifies stt
      ensures old(stt.audioBuffer) == [] ==> r == Ok("") && stt.audioBuffer == []
      ensures old(stt.audioBuffer) != [] && reply.WhisperFailed? ==> r == Err(reply.error) && stt.audioBuffer == old(stt.audioBuffer)
      ensures old(stt.audioBuffer) != [] && reply.WhisperNullish? ==> r == Err(SpeechToText.NULLISH_REPLY) && stt.audioBuffer == []
      ensures old(stt.audioBuffer) != [] && reply.WhisperResult? ==>
        r == Ok(SpeechToText.TranscriptText(reply.text, reply.transcription)) && stt.audioBuffer == []
    {
      var sent;
      r, sent := stt.Transcribe(reply);
    }

    /** `getIngestAdapter`. */
    function GetIngestAdapter(): (adapter: Option<AdapterInfo>)
      reads this
      ensures adapter == ingestAdapter
    {
      ingestAdapter
    }

    /** `getStreamAdapter`. */
    function GetStreamAdapter(): (adapter: Option<AdapterInfo>)
      reads this
      ensures adapter == streamAdapter
    {
      streamAdapter
    }
  }

  function CloseRequests(config: Config, ids: seq<string>): (rs: seq<Request>)
    ensures |rs| == |ids|
    ensures forall k | 0 <= k < |ids| :: rs[k] == CloseAdapter(config, ids[k])
  {
    if ids == [] then [] else [CloseAdapter(config, ids[0])] + CloseRequests(config, ids[1..])
  }

  /** The send loop of `synthesizeAndStream`: chunk `k` is sent when the
      socket is open at that point. */
  method SendWhileOpen(chunks: seq<seq<byte>>, open: nat -> bool) returns (sent: seq<seq<byte>>)
    ensures sent == Delivered(chunks, open)
  {
    sent := [];
    for k := 0 to |chunks|
      invariant sent == Delivered(chunks[..k], open)
    {
      assert chunks[..k + 1][..k] == chunks[..k];
      if open(k) {
        sent := sent + [chunks[k]];
      }
    }
    assert chunks[..|chunks|] == chunks;
  }

  /** `synthesizeAndStream`: the chunks sent, in the order they were
      synthesized; `open(k)` is whether the socket is OPEN when chunk `k`
      arrives. A synthesis error propagates. */
  method SynthesizeAndStream(text: string, reply: TextToSpeech.MelottsReply, atob: TextToSpeech.Atob, open: nat -> bool)
    returns (r: Result<seq<seq<byte>>, string>)
    ensures TextToSpeech.Synthesized(text, reply, atob).Ok? ==>
      r == Ok(Delivered(TextToSpeech.Synthesized(text, reply, atob).value, open))
    ensures TextToSpeech.Synthesized(text, reply, atob).Err? ==>
      r == Err(TextToSpeech.Synthesized(text, reply, atob).error)
  {
    var synthesized, _ := TextToSpeech.Synthesize(text, reply, atob);
    if synthesized.Err? {
      return Err(synthesized.error);
    }
    var sent := SendWhileOpen(synthesized.value, open);
    r := Ok(sent);
  }

  /** A `cleanup` that runs while an ingest request is in flight finds the
      slot empty and closes nothing; the reply then fills the slot, and no
      close request ever names that adapter. */
  method CleanupDuringIngestLeaks(env: Env, endpoint: string, trackName: string, reply: HttpReply)
    returns (leaked: Option<AdapterInfo>, sent: seq<Request>)
    requires GetConfig(env).Ok? && AdapterFromReply(Ingest, reply).Ok?
    ensures leaked == Some(AdapterFromReply(Ingest, reply).value)
    ensures sent == [NewIngest(GetConfig(env).value, trackName, endpoint)]
  {
    var handler := new Handler(env);
    var config := handler.RequestIngest(endpoint, trackName);
    var ok := handler.Cleanup(true);
    var r := handler.ReceiveAdapterReply(Ingest, reply);
    leaked := handler.GetIngestAdapter();
    sent := handler.requests;
  }
}
