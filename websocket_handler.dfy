/** The web client's reducer for the agent's streamed events
    (apps/web/src/lib/websocket-handler.ts). It copies the message list, edits
    the copy for one event and returns it. The input list is a value here, so
    it is never modified. */
module WebSocketHandler {
  import opened Common

  const START := "assistant_message_start"
  const CHUNK := "assistant_message_chunk"
  const COMPLETE := "assistant_message_complete"
  const ERROR := "error"
  const DEFAULT_ERROR := "An error occurred"

  /** One inbound frame: `type` and the optional fields. */
  datatype WebSocketMessageData = WebSocketMessageData(
    kind: string,
    message: Option<Message>,
    messageId: Option<string>,
    chunk: Option<string>,
    error: Option<string>)

  /** The new list, and whether the `setIsLoading(false)` and
      `scrollToBottom()` callbacks were invoked. */
  datatype Reduction = Reduction(messages: seq<Message>, stopsLoading: bool, scrolls: bool)

  /** JavaScript truthiness of an optional string field. */
  predicate Truthy(s: Option<string>)
  {
    s.Some? && s.value != ""
  }

  /** `findIndex(m => m.id === id)`: the first position holding `id`, or -1. */
  function FindIndex(messages: seq<Message>, id: string): (i: int)
    ensures -1 <= i < |messages|
    ensures 0 <= i ==> messages[i].id == id
    ensures forall j | 0 <= j < |messages| && (i < 0 || j < i) :: messages[j].id != id
  {
    if messages == [] then -1
    else if messages[0].id == id then 0
    else
      var rest := FindIndex(messages[1..], id);
      if rest < 0 then -1 else rest + 1
  }

  /** `handleWebSocketMessage`. `freshId` stands for `crypto.randomUUID()` and
      `now` for `new Date()`. */
  function HandleWebSocketMessage(data: WebSocketMessageData, messages: seq<Message>, freshId: string, now: int): (r: Reduction)
    ensures |messages| <= |r.messages| <= |messages| + 1
    ensures forall j | 0 <= j < |messages| && j != FindIndex(messages, IdOf(data)) :: r.messages[j] == messages[j]
  {
    if data.kind == START && Truthy(data.messageId) then
      Reduction(messages + [Message(data.messageId.value, "", Assistant, now)], true, true)
    else if data.kind == CHUNK && Truthy(data.messageId) && Truthy(data.chunk) then
      var i := FindIndex(messages, data.messageId.value);
      if i >= 0 then
        var m := messages[i];
        Reduction(messages[i := m.(content := m.content + data.chunk.value)], false, true)
      else
        Reduction(messages, false, false)
    else if data.kind == COMPLETE && data.message.Some? then
      var msg := data.message.value;
      var i := FindIndex(messages, msg.id);
      if i >= 0 then Reduction(messages[i := msg], false, true)
      else Reduction(messages + [msg], false, true)
    else if data.kind == ERROR then
      var text := if Truthy(data.error) then data.error.value else DEFAULT_ERROR;
      Reduction(messages + [Message(freshId, text, Assistant, now)], true, true)
    else
      Reduction(messages, false, false)
  }

  /** The id an event may overwrite in place: the chunk's `messageId`, or the
      completed message's `id`; "" for events that only append. */
  function IdOf(data: WebSocketMessageData): string
  {
    if data.kind == CHUNK && data.messageId.Some? then data.messageId.value
    else if data.kind == COMPLETE && data.message.Some? then data.message.value.id
    else ""
  }

  function Start(id: string): WebSocketMessageData
  {
    WebSocketMessageData(START, None, Some(id), None, None)
  }

  function Chunk(id: string, chunk: string): WebSocketMessageData
  {
    WebSocketMessageData(CHUNK, None, Some(id), Some(chunk), None)
  }

  function Complete(message: Message): WebSocketMessageData
  {
    WebSocketMessageData(COMPLETE, Some(message), None, None, None)
  }

  /** The events fed to the reducer one after the other, as the page does
      with each frame it receives. */
  function Replay(events: seq<WebSocketMessageData>, messages: seq<Message>, freshId: string, now: int): seq<Message>
  {
    if events == [] then messages
    else
      var before := Replay(events[..|events| - 1], messages, freshId, now);
      HandleWebSocketMessage(events[|events| - 1], before, freshId, now).messages
  }

  function ChunkEvents(id: string, chunks: seq<string>): (events: seq<WebSocketMessageData>)
    ensures |events| == |chunks|
  {
    if chunks == [] then [] else ChunkEvents(id, chunks[..|chunks| - 1]) + [Chunk(id, chunks[|chunks| - 1])]
  }

  function Joined(chunks: seq<string>): string
  {
    if chunks == [] then "" else Joined(chunks[..|chunks| - 1]) + chunks[|chunks| - 1]
  }

  // ---- one lemma per event kind ----

  lemma StartOpensMessage(data: WebSocketMessageData, messages: seq<Message>, freshId: string, now: int)
    requires data.kind == START
    ensures var r := HandleWebSocketMessage(data, messages, freshId, now);
      if Truthy(data.messageId)
      then r.messages == messages + [Message(data.messageId.value, "", Assistant, now)] && r.stopsLoading
      else r.messages == messages && !r.scrolls
  {
  }

  lemma ChunkExtendsFirstMatch(data: WebSocketMessageData, messages: seq<Message>, freshId: string, now: int)
    requires data.kind == CHUNK
    ensures var r := HandleWebSocketMessage(data, messages, freshId, now);
      |r.messages| == |messages| &&
      if Truthy(data.messageId) && Truthy(data.chunk) && exists j | 0 <= j < |messages| :: messages[j].id == data.messageId.value
      then
        var i := FindIndex(messages, data.messageId.value);
        && r.messages[i] == messages[i].(content := messages[i].content + data.chunk.value)
        && (forall j | 0 <= j < i :: messages[j].id != data.messageId.value)
        && (forall j | 0 <= j < |messages| && j != i :: r.messages[j] == messages[j])
      else r.messages == messages
  {
  }

  lemma CompleteReplacesOrAppends(data: WebSocketMessageData, messages: seq<Message>, freshId: string, now: int)
    requires data.kind == COMPLETE && data.message.Some?
    ensures var r := HandleWebSocketMessage(data, messages, freshId, now);
      var msg := data.message.value;
      if exists j | 0 <= j < |messages| :: messages[j].id == msg.id
      then
        var i := FindIndex(messages, msg.id);
        && |r.messages| == |messages|
        && r.messages == messages[i := msg]
        && (forall j | 0 <= j < i :: messages[j].id != msg.id)
      else r.messages == messages + [msg]
  {
  }

  lemma ErrorAppendsMessage(data: WebSocketMessageData, messages: seq<Message>, freshId: string, now: int)
    requires data.kind == ERROR
    ensures var r := HandleWebSocketMessage(data, messages, freshId, now);
      && r.messages[..|messages|] == messages
      && |r.messages| == |messages| + 1
      && r.messages[|messages|].role == Assistant
      && r.messages[|messages|].id == freshId
      && r.messages[|messages|].content == (if data.error.Some? && data.error.value != "" then data.error.value else "An error occurred")
      && r.stopsLoading
  {
  }

  lemma OtherEventsIgnored(data: WebSocketMessageData, messages: seq<Message>, freshId: string, now: int)
    requires data.kind !in {START, CHUNK, COMPLETE, ERROR}
    ensures HandleWebSocketMessage(data, messages, freshId, now) == Reduction(messages, false, false)
  {
  }

  // ---- reassembly of a streamed reply ----

  /** One chunk event grows the open message at the end of the list. */
  lemma ChunkGrowsLast(messages: seq<Message>, id: string, sofar: string, chunk: string, freshId: string, now: int)
    requires id != ""
    requires forall j | 0 <= j < |messages| :: messages[j].id != id
    ensures HandleWebSocketMessage(Chunk(id, chunk), messages + [Message(id, sofar, Assistant, now)], freshId, now).messages
      == messages + [Message(id, sofar + chunk, Assistant, now)]
  {
    var before := messages + [Message(id, sofar, Assistant, now)];
    assert before[|messages|].id == id;
    assert FindIndex(before, id) == |messages|;
    if chunk == "" {
      assert sofar + chunk == sofar;
    } else {
      assert before[|messages| := Message(id, sofar + chunk, Assistant, now)] == messages + [Message(id, sofar + chunk, Assistant, now)];
    }
  }

  /** The first `n` chunk events leave everything before the opened message
      alone and give it the first `n` chunks joined. */
  lemma {:induction false} ChunksAccumulate(messages: seq<Message>, id: string, chunks: seq<string>, freshId: string, now: int)
    requires id != ""
    requires forall j | 0 <= j < |messages| :: messages[j].id != id
    ensures Replay([Start(id)] + ChunkEvents(id, chunks), messages, freshId, now)
      == messages + [Message(id, Joined(chunks), Assistant, now)]
  {
    if chunks == [] {
      assert [Start(id)] + ChunkEvents(id, chunks) == [Start(id)];
      assert [Start(id)][..0] == [];
    } else {
      var n := |chunks| - 1;
      var events := [Start(id)] + ChunkEvents(id, chunks);
      assert events[..|events| - 1] == [Start(id)] + ChunkEvents(id, chunks[..n]);
      assert events[|events| - 1] == Chunk(id, chunks[n]);
      ChunksAccumulate(messages, id, chunks[..n], freshId, now);
      ChunkGrowsLast(messages, id, Joined(chunks[..n]), chunks[n], freshId, now);
    }
  }

  /** A start event followed by chunk events c1..cn for the same id appends
      one assistant message whose content is c1 + ... + cn. */
  lemma StreamedReplyAssembles(messages: seq<Message>, id: string, chunks: seq<string>, freshId: string, now: int)
    requires id != ""
    requires forall j | 0 <= j < |messages| :: messages[j].id != id
    ensures var r := Replay([Start(id)] + ChunkEvents(id, chunks), messages, freshId, now);
      && |r| == |messages| + 1
      && r[..|messages|] == messages
      && r[|messages|].id == id
      && r[|messages|].role == Assistant
      && r[|messages|].content == Joined(chunks)
  {
    ChunksAccumulate(messages, id, chunks, freshId, now);
  }

  /** The final `assistant_message_complete` for the streamed id overwrites the
      assembled message in place: the list ends with the completed message. */
  lemma {:induction false} CompletedStreamReplaces(messages: seq<Message>, final: Message, chunks: seq<string>, freshId: string, now: int)
    requires final.id != ""
    requires forall j | 0 <= j < |messages| :: messages[j].id != final.id
    ensures Replay([Start(final.id)] + ChunkEvents(final.id, chunks) + [Complete(final)], messages, freshId, now)
      == messages + [final]
  {
    var events := [Start(final.id)] + ChunkEvents(final.id, chunks) + [Complete(final)];
    assert events[..|events| - 1] == [Start(final.id)] + ChunkEvents(final.id, chunks);
    ChunksAccumulate(messages, final.id, chunks, freshId, now);
    var before := messages + [Message(final.id, Joined(chunks), Assistant, now)];
    assert before[|messages|].id == final.id;
    assert FindIndex(before, final.id) == |messages|;
    assert before[|messages| := final] == messages + [final];
  }
}
