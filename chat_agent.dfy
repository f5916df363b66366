/** The conversation agent of the worker (apps/agent/src/index.ts): an
    append-only memory of messages, extended by one user turn per inbound
    frame and by one assistant turn per successful model run. */
module ChatAgent {
  import opened Common

  const FALLBACK_REPLY := "I disagree, but I'm having trouble articulating why right now."
  const DEFAULT_AGENT_NAME := "Disagreement Bot"
  const APOLOGY := "Oops, I wanted to disagree with you but something went wrong. Try again?"

  /** A property of the parsed frame as JavaScript reads it: missing, a string,
      or some other value (number, boolean, object, null) with its truthiness
      and the text it is stored as. */
  datatype JsonField = Absent | Str(s: string) | NonString(truthy: bool, text: string)

  /** The outcome of `JSON.parse` on the frame text. `JsonNull` is the literal
      `null`, whose property access throws; a number, string or boolean
      parses to a value whose fields are both `Absent`. */
  datatype ParsedFrame = NotJson | JsonNull | JsonValue(content: JsonField, message: JsonField)

  /** What `result.agent` is, as far as lines 165-171 look at it; `name` is
      `String(result.agent.name)` when the object has a `name` property. */
  datatype AgentField = NoAgent | NotAnObject | NullAgent | AgentObject(name: Option<string>)

  /** The model run: it throws, or it returns `finalOutput` and `agent`. */
  datatype RunOutcome = RunThrew | RunResult(finalOutput: Option<string>, agent: AgentField)

  /** The frames sent back on the connection. */
  datatype OutFrame = Reply(content: string, agent: string) | ErrorFrame(content: string)

  predicate Truthy(f: JsonField)
  {
    match f
    case Absent => false
    case Str(s) => s != ""
    case NonString(truthy, _) => truthy
  }

  function TextOf(f: JsonField): string
  {
    match f
    case Absent => ""
    case Str(s) => s
    case NonString(_, text) => text
  }

  /** `parsed.content || parsed.message || messageText`, with a parse failure
      (or a throwing property access) falling back to the raw text. */
  function FrameText(raw: string, parsed: ParsedFrame): (text: string)
    ensures parsed.JsonValue? && Truthy(parsed.content) ==> text == TextOf(parsed.content)
    ensures parsed.JsonValue? && !Truthy(parsed.content) && Truthy(parsed.message) ==> text == TextOf(parsed.message)
    ensures !(parsed.JsonValue? && (Truthy(parsed.content) || Truthy(parsed.message))) ==> text == raw
  {
    match parsed
    case JsonValue(content, message) =>
      if Truthy(content) then TextOf(content)
      else if Truthy(message) then TextOf(message)
      else raw
    case _ => raw
  }

  /** `result.finalOutput || FALLBACK_REPLY`. */
  function ReplyText(finalOutput: Option<string>): (text: string)
    ensures text != ""
    ensures finalOutput.Some? && finalOutput.value != "" ==> text == finalOutput.value
    ensures (finalOutput.None? || finalOutput.value == "") ==> text == FALLBACK_REPLY
  {
    if finalOutput.Some? && finalOutput.value != "" then finalOutput.value else FALLBACK_REPLY
  }

  /** The name reported with the reply: the agent's `name` when the result
      carries a non-null agent object that has one. */
  function AgentName(agent: AgentField): (name: string)
    ensures agent.AgentObject? && agent.name.Some? ==> name == agent.name.value
    ensures !(agent.AgentObject? && agent.name.Some?) ==> name == DEFAULT_AGENT_NAME
  {
    match agent
    case AgentObject(Some(n)) => n
    case _ => DEFAULT_AGENT_NAME
  }

  /** One inbound frame with everything the worker takes from outside: the
      fresh ids (`crypto.randomUUID()`), the clock (`Date.now()`) and the
      model run. */
  datatype Turn = Turn(raw: string, parsed: ParsedFrame, userId: string, userTime: int,
                       run: RunOutcome, assistantId: string, assistantTime: int)

  function UserMessage(t: Turn): Message
  {
    Message(t.userId, FrameText(t.raw, t.parsed), User, t.userTime)
  }

  /** The assistant message a successful run stores. */
  function AssistantMessage(t: Turn): (m: Message)
    requires t.run.RunResult?
    ensures m.role == Assistant && m.id == t.assistantId && m.content != ""
  {
    Message(t.assistantId, ReplyText(t.run.finalOutput), Assistant, t.assistantTime)
  }

  /** The messages one turn appends to memory. */
  function TurnEntries(t: Turn): (entries: seq<Message>)
    ensures 0 < |entries| && entries[0] == UserMessage(t)
    ensures t.run.RunThrew? ==> entries == [UserMessage(t)]
    ensures t.run.RunResult? ==>
      && |entries| == 2 && entries[1].role == Assistant
      && entries[1].content == ReplyText(t.run.finalOutput) && entries[1].id == t.assistantId
  {
    match t.run
    case RunThrew => [UserMessage(t)]
    case RunResult(_, _) => [UserMessage(t), AssistantMessage(t)]
  }

  /** The frame a turn sends back. */
  function TurnReply(t: Turn): (frame: OutFrame)
    ensures t.run.RunThrew? ==> frame == ErrorFrame(APOLOGY)
    ensures t.run.RunResult? ==> frame == Reply(ReplyText(t.run.finalOutput), AgentName(t.run.agent))
  {
    match t.run
    case RunThrew => ErrorFrame(APOLOGY)
    case RunResult(output, agent) => Reply(ReplyText(output), AgentName(agent))
  }

  /** Memory after a series of turns. */
  function Replay(memory: seq<Message>, turns: seq<Turn>): seq<Message>
  {
    if turns == [] then memory else Replay(memory, turns[..|turns| - 1]) + TurnEntries(turns[|turns| - 1])
  }

  /** Every assistant message directly follows a user message. */
  predicate Paired(memory: seq<Message>)
  {
    forall i | 0 <= i < |memory| && memory[i].role == Assistant :: 0 < i && memory[i - 1].role == User
  }

  function UserCount(memory: seq<Message>): nat
  {
    if memory == [] then 0
    else UserCount(memory[..|memory| - 1]) + (if memory[|memory| - 1].role == User then 1 else 0)
  }

  lemma {:induction false} UserCountAppend(a: seq<Message>, b: seq<Message>)
    ensures UserCount(a + b) == UserCount(a) + UserCount(b)
  {
    if b == [] {
      assert a + b == a;
    } else {
      var n := |b| - 1;
      assert (a + b)[..|a + b| - 1] == a + b[..n];
      UserCountAppend(a, b[..n]);
    }
  }

  lemma TurnKeepsPairing(memory: seq<Message>, t: Turn)
    requires Paired(memory)
    ensures Paired(memory + TurnEntries(t))
  {
  }

  lemma TurnAddsOneUser(t: Turn)
    ensures UserCount(TurnEntries(t)) == 1
  {
    var u := UserMessage(t);
    assert [u][..0] == [];
    assert UserCount([u]) == 1;
    if t.run.RunResult? {
      var e := TurnEntries(t);
      assert e[..1] == [u];
    }
  }

  /** After any series of turns handled one after another, memory starts
      with what it held before and holds exactly one user message per turn
      more. */
  lemma {:induction false} ReplayAppendsOnly(memory: seq<Message>, turns: seq<Turn>)
    ensures var after := Replay(memory, turns);
      && |memory| + |turns| <= |after| <= |memory| + 2 * |turns|
      && after[..|memory|] == memory
      && UserCount(after) == UserCount(memory) + |turns|
  {
    if turns != [] {
      var n := |turns| - 1;
      var before := Replay(memory, turns[..n]);
      ReplayAppendsOnly(memory, turns[..n]);
      UserCountAppend(before, TurnEntries(turns[n]));
      var e := TurnEntries(turns[n]);
      TurnAddsOneUser(turns[n]);
      assert (before + e)[..|memory|] == before[..|memory|];
    }
  }

  /** A paired memory stays paired over any series of turns. */
  lemma {:induction false} ReplayKeepsPairing(memory: seq<Message>, turns: seq<Turn>)
    requires Paired(memory)
    ensures Paired(Replay(memory, turns))
  {
    if turns != [] {
      var n := |turns| - 1;
      ReplayKeepsPairing(memory, turns[..n]);
      TurnKeepsPairing(Replay(memory, turns[..n]), turns[n]);
    }
  }

  /** The agent's state; `memory` is what `setState` persists. */
  class Agent {
    var memory: seq<Message>

    /** `initialState`. */
    constructor ()
      ensures memory == []
    {
      memory := [];
    }

    /** `onMessage` up to the `await` of the model run: the user message is
        stored. `runInput` is what the run is given, the user's text alone;
        `updatedMemory` is the local copy of memory the rest of the handler
        builds on. */
    method ReceiveFrame(t: Turn) returns (runInput: string, updatedMemory: seq<Message>)
      modifies this
      ensures runInput == FrameText(t.raw, t.parsed)
      ensures updatedMemory == old(memory) + [UserMessage(t)]
      ensures memory == updatedMemory
    {
      var userMessage := FrameText(t.raw, t.parsed);
      var userMsg := Message(t.userId, userMessage, User, t.userTime);
      updatedMemory := memory + [userMsg];
      memory := updatedMemory;
      runInput := userMessage;
    }

    /** `onMessage` after the run settles. A successful run overwrites memory
        with the copy taken before the `await` plus the reply, whatever
        memory holds by then; a failed run leaves memory alone. */
    method FinishRun(t: Turn, updatedMemory: seq<Message>) returns (frame: OutFrame)
      modifies this
      ensures t.run.RunThrew? ==> memory == old(memory)
      ensures t.run.RunResult? ==> memory == updatedMemory + [AssistantMessage(t)]
      ensures frame == TurnReply(t)
    {
      match t.run {
        case RunThrew =>
          frame := ErrorFrame(APOLOGY);
        case RunResult(finalOutput, agent) =>
          var assistantMsg := Message(t.assistantId, ReplyText(finalOutput), Assistant, t.assistantTime);
          memory := updatedMemory + [assistantMsg];
          frame := Reply(assistantMsg.content, AgentName(agent));
      }
    }

    /** `onMessage` when nothing else touches memory while the model runs.
        `runInput` is what the run is given; `memoryAtRun` is what memory
        holds while the run is in flight. `frame` is the frame sent back. */
    method OnMessage(t: Turn) returns (frame: OutFrame, runInput: string, ghost memoryAtRun: seq<Message>)
      modifies this
      ensures runInput == FrameText(t.raw, t.parsed)
      ensures memoryAtRun == old(memory) + [UserMessage(t)]
      ensures memory == old(memory) + TurnEntries(t)
      ensures t.run.RunThrew? ==> memory == memoryAtRun
      ensures t.run.RunResult? ==> memory == memoryAtRun + [AssistantMessage(t)]
      ensures frame == TurnReply(t)
    {
      var updatedMemory;
      runInput, updatedMemory := ReceiveFrame(t);
      memoryAtRun := updatedMemory;
      frame := FinishRun(t, updatedMemory);
    }

    /** `getMemory`. */
    method GetMemory() returns (m: seq<Message>)
      ensures m == memory
    {
      m := memory;
    }

    /** `clearMemory`: whatever memory held, it is now empty, so a second
        call changes nothing. */
    method ClearMemory()
      modifies this
      ensures memory == []
    {
      memory := [];
    }
  }

  /** Two frames whose runs overlap: the second frame arrives while the
      first run is in flight. When the first run finishes it writes back its
      own copy, so the second user message is lost; when the second finishes,
      the first reply is lost. */
  method OverlappingTurns(t1: Turn, t2: Turn) returns (afterFirst: seq<Message>, afterSecond: seq<Message>)
    requires t1.run.RunResult? && t2.run.RunResult?
    ensures afterFirst == [UserMessage(t1), AssistantMessage(t1)]
    ensures afterSecond == [UserMessage(t1), UserMessage(t2), AssistantMessage(t2)]
  {
    var agent := new Agent();
    var input1, copy1 := agent.ReceiveFrame(t1);
    var input2, copy2 := agent.ReceiveFrame(t2);
    var frame1 := agent.FinishRun(t1, copy1);
    afterFirst := agent.memory;
    var frame2 := agent.FinishRun(t2, copy2);
    afterSecond := agent.memory;
  }

  /** `clearMemory` while a run is in flight is undone when the run
      finishes: memory again holds the user message and the reply. */
  method ClearDuringRun(t: Turn) returns (after: seq<Message>)
    requires t.run.RunResult?
    ensures after == [UserMessage(t), AssistantMessage(t)]
  {
    var agent := new Agent();
    var input, copy := agent.ReceiveFrame(t);
    agent.ClearMemory();
    var frame := agent.FinishRun(t, copy);
    after := agent.memory;
  }
}
