/** Translating engine messages into session updates (`updates.rs`): a stateful
    mapper that numbers messages and remembers which message id each streamed
    block was given. */
module UpdateMapper {
  import opened Wrappers
  import opened Decimal

  datatype MessageId = UserMsg(n: nat) | AgentMsg(n: nat) | ThoughtMsg(n: nat) | BriefMsg(n: nat)
  {
    function Stem(): (s: string)
      ensures s != ""
      ensures s[0] ==
        match this case UserMsg(_) => 'u' case AgentMsg(_) => 'a' case ThoughtMsg(_) => 't' case BriefMsg(_) => 'b'
    {
      match this
      case UserMsg(_) => "user-msg"
      case AgentMsg(_) => "agent-msg"
      case ThoughtMsg(_) => "thought"
      case BriefMsg(_) => "brief-msg"
    }

    function Text(): string { Stem() + "-" + Show(n) }
  }

  // Ids of different kinds never collide as text, nor do two of one kind.
  lemma TextInjective(a: MessageId, b: MessageId)
    ensures a.Text() == b.Text() <==> a == b
  {
    DashedInjective(a.Stem(), a.n, b.Stem(), b.n);
    assert a.Stem() == b.Stem() ==> a.Stem()[0] == b.Stem()[0];
  }

  datatype Block =
    | Text(text: string)
    | ConnectorText(text: string)
    | Thinking(text: string)
    | RedactedThinking(data: string)
    | ToolUse(toolId: string)  // a server-side tool use maps the same way
    | ToolResult(toolId: string, output: string, isError: bool)
    | Image

  // The string fields of a delta object; absent and non-string are alike.
  datatype Delta = Delta(text: Option<string>, thinking: Option<string>, data: Option<string>)

  datatype StreamEvent =
    | MessageStart
    | BlockStart(index: nat, block: Block)
    | BlockDelta(index: nat, delta: Delta)
    | BlockStop(index: nat)
    | MessageDelta
    | MessageStop

  datatype StopReason = Cancelled | MaxTurnRequests | Refusal | MaxTokens | EndTurn

  datatype TurnResult = TurnResult(subtype: ResultSubtype, hitMaxTokens: bool)
  datatype ResultSubtype = ErrorMaxTurns | ErrorDuringExecution | OtherSubtype

  datatype SdkMessage =
    | UserReplay(blocks: Option<seq<Block>>, content: string)
    | Assistant(content_: seq<Block>)
    | Brief(message: string)
    | Stream(event: StreamEvent)
    | Result(result: TurnResult)
    | SystemInit
    | CompactBoundary(note: string)
    | ApiRetry(note: string)
    | ToolUseSummary(note: string)
    | GoalUpdated(hasEntries: bool, note: string)
    | Tombstone(note: string)

  datatype Update =
    | UserMessage(id: MessageId, content: seq<string>)
    | AgentMessage(id: MessageId, content: seq<string>)
    | AgentThought(id: MessageId, content: seq<string>)
    | StructuredBrief(id: MessageId, message: string)
    | AgentChunk(id: MessageId, text: string)
    | ThoughtChunk(id: MessageId, text: string)
    | ToolCall(toolId: string)
    | ToolOutcome(toolId: string, output: string, isError: bool)
    | Plan
    | Usage
    | RequiresAction
    | Running
    | Idle(reason: StopReason)
  {
    predicate HasId() {
      UserMessage? || AgentMessage? || AgentThought? || StructuredBrief? || AgentChunk? || ThoughtChunk?
    }

    predicate IsChunk() { AgentChunk? || ThoughtChunk? }
  }

  datatype State = State(
    user: nat, agent: nat, thought: nat, brief: nat,
    agentByBlock: map<nat, MessageId>,
    thoughtByBlock: map<nat, MessageId>)

  const FRESH := State(0, 0, 0, 0, map[], map[])

  type Mapped = (seq<Update>, State)

  // ------------------------------------------------------------- specification

  function WithAgentBlock(s: State, index: nat): State {
    if index in s.agentByBlock then s
    else s.(agent := s.agent + 1, agentByBlock := s.agentByBlock[index := AgentMsg(s.agent + 1)])
  }

  function WithThoughtBlock(s: State, index: nat): State {
    if index in s.thoughtByBlock then s
    else s.(thought := s.thought + 1, thoughtByBlock := s.thoughtByBlock[index := ThoughtMsg(s.thought + 1)])
  }

  function AgentChunkAt(s: State, index: nat, text: string): Mapped {
    var t := WithAgentBlock(s, index);
    ([AgentChunk(t.agentByBlock[index], text)], t)
  }

  function ThoughtChunkAt(s: State, index: nat, text: string): Mapped {
    var t := WithThoughtBlock(s, index);
    ([ThoughtChunk(t.thoughtByBlock[index], text)], t)
  }

  predicate NonEmpty(text: Option<string>) {
    text.Some? && text.value != ""
  }

  function MapBlockStart(s: State, index: nat, block: Block): Mapped {
    match block
    case Text(text) => if text != "" then AgentChunkAt(s, index, text) else ([], WithAgentBlock(s, index))
    case ConnectorText(_) => ([], WithAgentBlock(s, index))
    case Thinking(text) => if text != "" then ThoughtChunkAt(s, index, text) else ([], WithThoughtBlock(s, index))
    case RedactedThinking(_) => ([], WithThoughtBlock(s, index))
    case ToolUse(id) => ([ToolCall(id)], s)
    case ToolResult(id, output, isError) => ([ToolOutcome(id, output, isError)], s)
    case Image => ([], s)
  }

  function MapBlockDelta(s: State, index: nat, d: Delta): Mapped {
    if NonEmpty(d.text) then AgentChunkAt(s, index, d.text.value)
    else if NonEmpty(d.thinking) then ThoughtChunkAt(s, index, d.thinking.value)
    else if NonEmpty(d.data) then ThoughtChunkAt(s, index, d.data.value)
    else ([], s)
  }

  function MapStream(s: State, event: StreamEvent): Mapped {
    match event
    case MessageStart => ([Running], s)
    case BlockStart(index, block) => MapBlockStart(s, index, block)
    case BlockDelta(index, delta) => MapBlockDelta(s, index, delta)
    case _ => ([], s)
  }

  function AgentTexts(blocks: seq<Block>): seq<string> {
    if blocks == [] then []
    else
      AgentTexts(blocks[..|blocks| - 1]) + AgentTextOf(blocks[|blocks| - 1])
  }

  function AgentTextOf(block: Block): seq<string> {
    match block
    case Text(text) => if text != "" then [text] else []
    case ConnectorText(text) => if text != "" then [text] else []
    case _ => []
  }

  function ThoughtTexts(blocks: seq<Block>): seq<string> {
    if blocks == [] then []
    else
      ThoughtTexts(blocks[..|blocks| - 1]) + ThoughtTextOf(blocks[|blocks| - 1])
  }

  function ThoughtTextOf(block: Block): seq<string> {
    match block
    case Thinking(text) => if text != "" then [text] else []
    case RedactedThinking(data) => if data != "" then [data] else []
    case _ => []
  }

  function ToolUpdates(blocks: seq<Block>): seq<Update> {
    if blocks == [] then []
    else
      ToolUpdates(blocks[..|blocks| - 1]) + ToolUpdateOf(blocks[|blocks| - 1])
  }

  function ToolUpdateOf(block: Block): seq<Update> {
    match block
    case ToolUse(id) => [ToolCall(id)]
    case ToolResult(id, output, isError) => [ToolOutcome(id, output, isError)]
    case _ => []
  }

  lemma NextBlock(blocks: seq<Block>, i: nat)
    requires i < |blocks|
    ensures AgentTexts(blocks[..i + 1]) == AgentTexts(blocks[..i]) + AgentTextOf(blocks[i])
    ensures ThoughtTexts(blocks[..i + 1]) == ThoughtTexts(blocks[..i]) + ThoughtTextOf(blocks[i])
    ensures ToolUpdates(blocks[..i + 1]) == ToolUpdates(blocks[..i]) + ToolUpdateOf(blocks[i])
  {
    assert blocks[..i + 1][..i] == blocks[..i];
  }

  // All text of an assistant message goes into one message before its tool
  // updates, all its thinking into one thought after them.
  function MapAssistant(s: State, blocks: seq<Block>): Mapped {
    Assembled(s, AgentTexts(blocks), ToolUpdates(blocks), ThoughtTexts(blocks))
  }

  function Assembled(s: State, agent: seq<string>, tools: seq<Update>, thought: seq<string>): Mapped {
    var t := if agent != [] then s.(agent := s.agent + 1) else s;
    var u := if thought != [] then t.(thought := t.thought + 1) else t;
    ((if agent != [] then [AgentMessage(AgentMsg(t.agent), agent)] else [])
     + tools
     + (if thought != [] then [AgentThought(ThoughtMsg(u.thought), thought)] else []), u)
  }

  function MapReplayBlocks(s: State, blocks: seq<Block>): Mapped {
    if blocks == [] then ([], s)
    else
      var front := MapReplayBlocks(s, blocks[..|blocks| - 1]);
      match blocks[|blocks| - 1]
      case ToolResult(id, output, isError) => (front.0 + [ToolOutcome(id, output, isError)], front.1)
      case Text(text) =>
        if text == "" then front
        else (front.0 + [UserMessage(UserMsg(front.1.user + 1), [text])], front.1.(user := front.1.user + 1))
      case _ => front
  }

  function MapReplay(s: State, blocks: Option<seq<Block>>, content: string): Mapped {
    var mapped := if blocks.Some? then MapReplayBlocks(s, blocks.value) else ([], s);
    if mapped.0 == [] && content != "" then
      ([UserMessage(UserMsg(mapped.1.user + 1), [content])], mapped.1.(user := mapped.1.user + 1))
    else mapped
  }

  function StopReasonOf(r: TurnResult, forced: Option<StopReason>): StopReason {
    if forced.Some? then forced.value
    else match r.subtype
      case ErrorMaxTurns => MaxTurnRequests
      case ErrorDuringExecution => Refusal
      case OtherSubtype => if r.hitMaxTokens then MaxTokens else EndTurn
  }

  function MapResult(r: TurnResult, forced: Option<StopReason>): seq<Update> {
    [Usage, Idle(StopReasonOf(r, forced))]
  }

  function MapThought(s: State, note: string): Mapped {
    ([AgentThought(ThoughtMsg(s.thought + 1), [note])], s.(thought := s.thought + 1))
  }

  function MapMessage(s: State, msg: SdkMessage, structuredBrief: bool): Mapped {
    match msg
    case UserReplay(blocks, content) => MapReplay(s, blocks, content)
    case Assistant(blocks) => MapAssistant(s, blocks)
    case Brief(message) =>
      if structuredBrief then ([StructuredBrief(BriefMsg(s.brief + 1), message)], s.(brief := s.brief + 1))
      else ([AgentMessage(AgentMsg(s.agent + 1), [message])], s.(agent := s.agent + 1))
    case Stream(event) => MapStream(s, event)
    case Result(result) => (MapResult(result, None), s)
    case SystemInit => ([], s)
    case CompactBoundary(note) => MapThought(s, note)
    case ApiRetry(note) => MapThought(s, note)
    case ToolUseSummary(note) => MapThought(s, note)
    case GoalUpdated(hasEntries, note) => if hasEntries then ([Plan], s) else MapThought(s, note)
    case Tombstone(note) => MapThought(s, note)
  }

  // Only a result makes a session idle.
  lemma OnlyResultIsIdle(s: State, msg: SdkMessage, structuredBrief: bool)
    requires !msg.Result?
    ensures forall a :: 0 <= a < |MapMessage(s, msg, structuredBrief).0| ==>
      !MapMessage(s, msg, structuredBrief).0[a].Idle?
  {
    match msg {
      case UserReplay(blocks, _) => if blocks.Some? { ReplayShape(s, blocks.value); }
      case Assistant(blocks) => ToolUpdatesShape(blocks);
      case _ =>
    }
  }

  lemma {:induction false} ToolUpdatesShape(blocks: seq<Block>)
    ensures forall a :: 0 <= a < |ToolUpdates(blocks)| ==>
      ToolUpdates(blocks)[a].ToolCall? || ToolUpdates(blocks)[a].ToolOutcome?
  {
    if blocks != [] {
      ToolUpdatesShape(blocks[..|blocks| - 1]);
    }
  }

  // A replay numbers its user messages consecutively and changes nothing else.
  lemma {:induction false} ReplayShape(s: State, blocks: seq<Block>)
    ensures var (updates, t) := MapReplayBlocks(s, blocks);
      && t == s.(user := t.user) && s.user <= t.user
      && (forall a :: 0 <= a < |updates| ==>
           || updates[a].ToolOutcome?
           || (updates[a].UserMessage? && updates[a].id.UserMsg? && s.user < updates[a].id.n <= t.user))
      && (forall a, b :: 0 <= a < b < |updates| && updates[a].UserMessage? && updates[b].UserMessage? ==>
           updates[a].id.n < updates[b].id.n)
  {
    if blocks != [] {
      ReplayShape(s, blocks[..|blocks| - 1]);
    }
  }

  // ------------------------------------------------------------------- machine

  // The loop over an assistant message's blocks.
  method SplitBlocks(blocks: seq<Block>)
    returns (agentContent: seq<string>, thoughtContent: seq<string>, tools: seq<Update>)
    ensures agentContent == AgentTexts(blocks) && thoughtContent == ThoughtTexts(blocks)
    ensures tools == ToolUpdates(blocks)
  {
    agentContent, thoughtContent, tools := [], [], [];
    for i := 0 to |blocks|
      invariant agentContent == AgentTexts(blocks[..i])
      invariant thoughtContent == ThoughtTexts(blocks[..i])
      invariant tools == ToolUpdates(blocks[..i])
    {
      NextBlock(blocks, i);
      match blocks[i] {
        case Text(text) => if text != "" { agentContent := agentContent + [text]; }
        case ConnectorText(text) => if text != "" { agentContent := agentContent + [text]; }
        case Thinking(text) => if text != "" { thoughtContent := thoughtContent + [text]; }
        case RedactedThinking(data) => if data != "" { thoughtContent := thoughtContent + [data]; }
        case ToolUse(id) => tools := tools + [ToolCall(id)];
        case ToolResult(id, output, isError) => tools := tools + [ToolOutcome(id, output, isError)];
        case Image =>
      }
    }
    assert blocks[..|blocks|] == blocks;
  }

  /** The mapper object. */
  class AcpUpdateMapper {
    const structuredBrief: bool
    var user: nat
    var agent: nat
    var thought: nat
    var brief: nat
    var agentByBlock: map<nat, MessageId>
    var thoughtByBlock: map<nat, MessageId>

    ghost function View(): State
      reads this
    {
      State(user, agent, thought, brief, agentByBlock, thoughtByBlock)
    }

    constructor (structuredBrief: bool)
      ensures View() == FRESH && this.structuredBrief == structuredBrief
    {
      this.structuredBrief := structuredBrief;
      user, agent, thought, brief := 0, 0, 0, 0;
      agentByBlock, thoughtByBlock := map[], map[];
    }

    method NextUserMessageId() returns (id: MessageId)
      modifies this
      ensures View() == old(View()).(user := old(user) + 1) && id == UserMsg(user)
    {
      user := user + 1;
      id := UserMsg(user);
    }

    method NextAgentMessageId() returns (id: MessageId)
      modifies this
      ensures View() == old(View()).(agent := old(agent) + 1) && id == AgentMsg(agent)
    {
      agent := agent + 1;
      id := AgentMsg(agent);
    }

    method NextThoughtMessageId() returns (id: MessageId)
      modifies this
      ensures View() == old(View()).(thought := old(thought) + 1) && id == ThoughtMsg(thought)
    {
      thought := thought + 1;
      id := ThoughtMsg(thought);
    }

    method AgentMessageIdForBlock(index: nat) returns (id: MessageId)
      modifies this
      ensures View() == WithAgentBlock(old(View()), index) && id == View().agentByBlock[index]
    {
      if index !in agentByBlock {
        var next := NextAgentMessageId();
        agentByBlock := agentByBlock[index := next];
      }
      id := agentByBlock[index];
    }

    method ThoughtMessageIdForBlock(index: nat) returns (id: MessageId)
      modifies this
      ensures View() == WithThoughtBlock(old(View()), index) && id == View().thoughtByBlock[index]
    {
      if index !in thoughtByBlock {
        var next := NextThoughtMessageId();
        thoughtByBlock := thoughtByBlock[index := next];
      }
      id := thoughtByBlock[index];
    }

    method MapContentBlockStart(index: nat, block: Block) returns (updates: seq<Update>)
      modifies this
      ensures (updates, View()) == MapBlockStart(old(View()), index, block)
    {
      updates := [];
      match block {
        case Text(text) =>
          var id := AgentMessageIdForBlock(index);
          if text != "" { updates := [AgentChunk(id, text)]; }
        case ConnectorText(_) =>
          var _ := AgentMessageIdForBlock(index);
        case Thinking(text) =>
          var id := ThoughtMessageIdForBlock(index);
          if text != "" { updates := [ThoughtChunk(id, text)]; }
        case RedactedThinking(_) =>
          var _ := ThoughtMessageIdForBlock(index);
        case ToolUse(id) => updates := [ToolCall(id)];
        case ToolResult(id, output, isError) => updates := [ToolOutcome(id, output, isError)];
        case Image =>
      }
    }

    method MapContentBlockDelta(index: nat, delta: Delta) returns (updates: seq<Update>)
      modifies this
      ensures (updates, View()) == MapBlockDelta(old(View()), index, delta)
    {
      if delta.text.Some? && delta.text.value != "" {
        var id := AgentMessageIdForBlock(index);
        return [AgentChunk(id, delta.text.value)];
      }
      if delta.thinking.Some? && delta.thinking.value != "" {
        var id := ThoughtMessageIdForBlock(index);
        return [ThoughtChunk(id, delta.thinking.value)];
      }
      if delta.data.Some? && delta.data.value != "" {
        var id := ThoughtMessageIdForBlock(index);
        return [ThoughtChunk(id, delta.data.value)];
      }
      return [];
    }

    method MapAssistantBlocks(blocks: seq<Block>) returns (updates: seq<Update>)
      modifies this
      ensures (updates, View()) == MapAssistant(old(View()), blocks)
    {
      var agentContent, thoughtContent, tools := SplitBlocks(blocks);
      updates := tools;
      if agentContent != [] {
        var id := NextAgentMessageId();
        updates := [AgentMessage(id, agentContent)] + updates;
      }
      if thoughtContent != [] {
        var id := NextThoughtMessageId();
        updates := updates + [AgentThought(id, thoughtContent)];
      }
      assert updates ==
        (if agentContent != [] then [AgentMessage(AgentMsg(agent), agentContent)] else [])
        + tools
        + (if thoughtContent != [] then [AgentThought(ThoughtMsg(thought), thoughtContent)] else []);
    }

    method MapUserReplay(blocks: Option<seq<Block>>, content: string) returns (updates: seq<Update>)
      modifies this
      ensures (updates, View()) == MapReplay(old(View()), blocks, content)
    {
      updates := [];
      if blocks.Some? {
        for i := 0 to |blocks.value|
          invariant (updates, View()) == MapReplayBlocks(old(View()), blocks.value[..i])
        {
          assert blocks.value[..i + 1][..i] == blocks.value[..i];
          match blocks.value[i] {
            case ToolResult(id, output, isError) => updates := updates + [ToolOutcome(id, output, isError)];
            case Text(text) =>
              if text != "" {
                var id := NextUserMessageId();
                updates := updates + [UserMessage(id, [text])];
              }
            case _ =>
          }
        }
        assert blocks.value[..|blocks.value|] == blocks.value;
      }
      if updates == [] && content != "" {
        var id := NextUserMessageId();
        updates := [UserMessage(id, [content])];
      }
    }

    method KindedThought(note: string) returns (updates: seq<Update>)
      modifies this
      ensures (updates, View()) == MapThought(old(View()), note)
    {
      var id := NextThoughtMessageId();
      updates := [AgentThought(id, [note])];
    }

    method Map(msg: SdkMessage) returns (updates: seq<Update>)
      modifies this
      ensures (updates, View()) == MapMessage(old(View()), msg, structuredBrief)
    {
      updates := [];
      match msg {
        case UserReplay(blocks, content) => updates := MapUserReplay(blocks, content);
        case Assistant(blocks) => updates := MapAssistantBlocks(blocks);
        case Brief(message) =>
          if structuredBrief {
            brief := brief + 1;
            updates := [StructuredBrief(BriefMsg(brief), message)];
          } else {
            var id := NextAgentMessageId();
            updates := [AgentMessage(id, [message])];
          }
        case Stream(event) =>
          match event {
            case MessageStart => updates := [Running];
            case BlockStart(index, block) => updates := MapContentBlockStart(index, block);
            case BlockDelta(index, delta) => updates := MapContentBlockDelta(index, delta);
            case _ =>
          }
        case Result(result) => updates := MapResult(result, None);
        case SystemInit =>
        case CompactBoundary(note) => updates := KindedThought(note);
        case ApiRetry(note) => updates := KindedThought(note);
        case ToolUseSummary(note) => updates := KindedThought(note);
        case GoalUpdated(hasEntries, note) =>
          if hasEntries { updates := [Plan]; } else { updates := KindedThought(note); }
        case Tombstone(note) => updates := KindedThought(note);
      }
    }
  }
}
