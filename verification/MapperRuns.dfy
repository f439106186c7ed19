/** What the mapper's output says over a whole run: streamed text regroups by kind
    and block index, and message ids are shared exactly by the chunks of one kind
    and index. A block here is its index, in whichever response; `MapperBlocks`
    tells the responses apart. */
module MapperRuns {
  import opened Wrappers
  import opened UpdateMapper

  ghost function After(s: State, msgs: seq<SdkMessage>, brief: bool): State
    decreases |msgs|
  {
    if msgs == [] then s else After(MapMessage(s, msgs[0], brief).1, msgs[1..], brief)
  }

  // The updates produced by each message, message by message.
  ghost function Outputs(s: State, msgs: seq<SdkMessage>, brief: bool): (out: seq<seq<Update>>)
    ensures |out| == |msgs|
    decreases |msgs|
  {
    if msgs == [] then []
    else [MapMessage(s, msgs[0], brief).0] + Outputs(MapMessage(s, msgs[0], brief).1, msgs[1..], brief)
  }

  ghost function Flatten(out: seq<seq<Update>>): seq<Update> {
    if out == [] then [] else out[0] + Flatten(out[1..])
  }

  // ------------------------------------------------ the reference: plain events

  datatype Kind = AgentText | ThoughtText

  // The piece of streamed text an engine message carries, read off the message
  // alone: a non-empty text or thinking block start, or the first non-empty of a
  // delta's `text`, `thinking` and `data`.
  datatype Piece = Piece(kind: Kind, index: nat, text: string)

  ghost function PieceOf(msg: SdkMessage): Option<Piece> {
    if !msg.Stream? then None
    else match msg.event
      case BlockStart(i, Text(t)) => if t != "" then Some(Piece(AgentText, i, t)) else None
      case BlockStart(i, Thinking(t)) => if t != "" then Some(Piece(ThoughtText, i, t)) else None
      case BlockDelta(i, d) =>
        if NonEmpty(d.text) then Some(Piece(AgentText, i, d.text.value))
        else if NonEmpty(d.thinking) then Some(Piece(ThoughtText, i, d.thinking.value))
        else if NonEmpty(d.data) then Some(Piece(ThoughtText, i, d.data.value))
        else None
      case _ => None
  }

  // The text streamed for one block, in order.
  ghost function BlockText(msgs: seq<SdkMessage>, kind: Kind, index: nat): string {
    if msgs == [] then ""
    else
      (if PieceOf(msgs[0]).Some? && PieceOf(msgs[0]).value.kind == kind && PieceOf(msgs[0]).value.index == index
       then PieceOf(msgs[0]).value.text else "")
      + BlockText(msgs[1..], kind, index)
  }

  // What a client gets by concatenating the chunks of one message id.
  ghost function Grouped(updates: seq<Update>, id: MessageId): string {
    if updates == [] then ""
    else (if updates[0].IsChunk() && updates[0].id == id then updates[0].text else "") + Grouped(updates[1..], id)
  }

  // --------------------------------------------------------------- id invariant

  ghost function BlockIds(s: State, kind: Kind): map<nat, MessageId> {
    match kind case AgentText => s.agentByBlock case ThoughtText => s.thoughtByBlock
  }

  ghost function MakeId(kind: Kind, n: nat): MessageId {
    match kind case AgentText => AgentMsg(n) case ThoughtText => ThoughtMsg(n)
  }

  ghost function Counter(s: State, kind: Kind): nat {
    match kind case AgentText => s.agent case ThoughtText => s.thought
  }

  ghost predicate Valid(s: State) {
    ValidKind(s, AgentText) && ValidKind(s, ThoughtText)
  }

  ghost predicate ValidKind(s: State, kind: Kind) {
    ValidIds(BlockIds(s, kind), kind, Counter(s, kind))
  }

  ghost predicate ValidIds(ids: map<nat, MessageId>, kind: Kind, counter: nat) {
    && (forall i :: i in ids ==> ids[i] == MakeId(kind, ids[i].n) && ids[i].n <= counter)
    && (forall i, j :: i in ids && j in ids && i != j ==> ids[i] != ids[j])
  }

  // Counters only grow, block ids are kept, and new ones are above the counter.
  ghost predicate Extends(s: State, t: State) {
    && s.user <= t.user && s.brief <= t.brief
    && ExtendsKind(s, t, AgentText) && ExtendsKind(s, t, ThoughtText)
  }

  ghost predicate ExtendsKind(s: State, t: State, kind: Kind) {
    ExtendsIds(BlockIds(s, kind), Counter(s, kind), BlockIds(t, kind), Counter(t, kind))
  }

  ghost predicate ExtendsIds(ids: map<nat, MessageId>, c: nat, ids': map<nat, MessageId>, c': nat) {
    && c <= c'
    && (forall i :: i in ids ==> i in ids' && ids'[i] == ids[i])
    && (forall i :: i in ids' && i !in ids ==> c < ids'[i].n <= c')
  }

  lemma NewBlockId(ids: map<nat, MessageId>, kind: Kind, c: nat, index: nat)
    requires ValidIds(ids, kind, c) && index !in ids
    ensures ValidIds(ids[index := MakeId(kind, c + 1)], kind, c + 1)
    ensures ExtendsIds(ids, c, ids[index := MakeId(kind, c + 1)], c + 1)
  {
  }

  lemma ExtendsTransitive(s: State, t: State, u: State)
    requires Extends(s, t) && Extends(t, u)
    ensures Extends(s, u)
  {
  }

  // The number an id took from its counter lies above the counter before.
  ghost predicate Fresh(s: State, t: State, id: MessageId) {
    match id
    case UserMsg(n) => s.user < n <= t.user
    case AgentMsg(n) => s.agent < n <= t.agent
    case ThoughtMsg(n) => s.thought < n <= t.thought
    case BriefMsg(n) => s.brief < n <= t.brief
  }

  // What one message does. A streamed piece comes out as one chunk under its
  // block's id; every other id is fresh, the ids of one message differ, and such
  // a message leaves the block ids alone.
  ghost predicate StepFacts(s: State, msg: SdkMessage, out: seq<Update>, t: State) {
    && Valid(t) && Extends(s, t)
    && (PieceOf(msg).Some? ==>
         var p := PieceOf(msg).value;
         p.index in BlockIds(t, p.kind) && out == [Chunk(BlockIds(t, p.kind)[p.index], p)])
    && (PieceOf(msg).None? ==>
         && (forall a :: 0 <= a < |out| ==> !out[a].IsChunk() && (out[a].HasId() ==> Fresh(s, t, out[a].id)))
         && (forall a, b :: 0 <= a < b < |out| && out[a].HasId() && out[b].HasId() ==> out[a].id != out[b].id)
         && ((exists a :: 0 <= a < |out| && out[a].HasId()) ==>
              t.agentByBlock == s.agentByBlock && t.thoughtByBlock == s.thoughtByBlock))
  }

  ghost function Chunk(id: MessageId, p: Piece): Update {
    match p.kind case AgentText => AgentChunk(id, p.text) case ThoughtText => ThoughtChunk(id, p.text)
  }

  lemma AgentBlockKeepsValid(s: State, index: nat)
    requires Valid(s)
    ensures Valid(WithAgentBlock(s, index)) && Extends(s, WithAgentBlock(s, index))
  {
    var t := WithAgentBlock(s, index);
    if index !in s.agentByBlock { NewBlockId(s.agentByBlock, AgentText, s.agent, index); }
    assert BlockIds(t, ThoughtText) == BlockIds(s, ThoughtText) && Counter(t, ThoughtText) == Counter(s, ThoughtText);
    assert BlockIds(t, AgentText) == t.agentByBlock && BlockIds(s, AgentText) == s.agentByBlock;
  }

  lemma ThoughtBlockKeepsValid(s: State, index: nat)
    requires Valid(s)
    ensures Valid(WithThoughtBlock(s, index)) && Extends(s, WithThoughtBlock(s, index))
  {
    var t := WithThoughtBlock(s, index);
    if index !in s.thoughtByBlock { NewBlockId(s.thoughtByBlock, ThoughtText, s.thought, index); }
    assert BlockIds(t, AgentText) == BlockIds(s, AgentText) && Counter(t, AgentText) == Counter(s, AgentText);
    assert BlockIds(t, ThoughtText) == t.thoughtByBlock && BlockIds(s, ThoughtText) == s.thoughtByBlock;
  }

  lemma CountersKeepValid(s: State, t: State)
    requires Valid(s) && s.user <= t.user && s.brief <= t.brief && s.agent <= t.agent && s.thought <= t.thought
    requires t.agentByBlock == s.agentByBlock && t.thoughtByBlock == s.thoughtByBlock
    ensures Valid(t) && Extends(s, t)
  {
    assert BlockIds(t, AgentText) == BlockIds(s, AgentText);
    assert BlockIds(t, ThoughtText) == BlockIds(s, ThoughtText);
  }

  ghost function ChunkOf(s: State, p: Piece): (seq<Update>, State) {
    match p.kind
    case AgentText => AgentChunkAt(s, p.index, p.text)
    case ThoughtText => ThoughtChunkAt(s, p.index, p.text)
  }

  lemma PieceStep(s: State, msg: SdkMessage, p: Piece)
    requires Valid(s) && PieceOf(msg) == Some(p)
    ensures StepFacts(s, msg, ChunkOf(s, p).0, ChunkOf(s, p).1)
  {
    AgentBlockKeepsValid(s, p.index);
    ThoughtBlockKeepsValid(s, p.index);
    var t := ChunkOf(s, p).1;
    assert p.index in BlockIds(t, p.kind);
  }

  // A block start that carries no text: the block may get its id, nothing with an
  // id is sent.
  lemma TextlessStart(s: State, index: nat, block: Block)
    requires Valid(s) && PieceOf(Stream(BlockStart(index, block))).None?
    ensures var (out, t) := MapBlockStart(s, index, block);
      Valid(t) && Extends(s, t) && forall a :: 0 <= a < |out| ==> !out[a].HasId()
  {
    if block.Text? || block.ConnectorText? {
      AgentBlockKeepsValid(s, index);
    } else if block.Thinking? || block.RedactedThinking? {
      ThoughtBlockKeepsValid(s, index);
    } else {
      CountersKeepValid(s, s);
    }
  }

  // Nor does any other event without text, which changes nothing.
  lemma TextlessElse(s: State, event: StreamEvent)
    requires Valid(s) && PieceOf(Stream(event)).None? && !event.BlockStart?
    ensures var (out, t) := MapStream(s, event);
      t == s && Extends(s, s) && forall a :: 0 <= a < |out| ==> !out[a].HasId()
  {
    CountersKeepValid(s, s);
  }

  lemma TextlessStep(s: State, event: StreamEvent)
    requires Valid(s) && PieceOf(Stream(event)).None?
    ensures StepFacts(s, Stream(event), MapStream(s, event).0, MapStream(s, event).1)
  {
    if event.BlockStart? {
      TextlessStart(s, event.index, event.block);
    } else {
      TextlessElse(s, event);
    }
  }

  lemma StreamStep(s: State, event: StreamEvent)
    requires Valid(s)
    ensures StepFacts(s, Stream(event), MapStream(s, event).0, MapStream(s, event).1)
  {
    var piece := PieceOf(Stream(event));
    if piece.Some? {
      PieceStep(s, Stream(event), piece.value);
      assert MapStream(s, event) == ChunkOf(s, piece.value);
    } else {
      TextlessStep(s, event);
    }
  }

  // Of the updates of an assistant message only the first, the text, and the
  // last, the thought, carry ids: the next ones.
  lemma AssistantIds(s: State, blocks: seq<Block>, a: nat)
    requires a < |MapAssistant(s, blocks).0|
    ensures var (out, t) := MapAssistant(s, blocks);
      && !out[a].IsChunk()
      && (out[a].HasId() ==>
           || (out[a].AgentMessage? && a == 0 && out[a].id == AgentMsg(t.agent) && t.agent == s.agent + 1)
           || (out[a].AgentThought? && a == |out| - 1
               && out[a].id == ThoughtMsg(t.thought) && t.thought == s.thought + 1))
  {
    var tools, lead := ToolUpdates(blocks), if AgentTexts(blocks) != [] then 1 else 0;
    ToolUpdatesShape(blocks);
    assert lead <= a < lead + |tools| ==> MapAssistant(s, blocks).0[a] == tools[a - lead];
  }

  lemma AssistantStep(s: State, blocks: seq<Block>)
    requires Valid(s)
    ensures StepFacts(s, Assistant(blocks), MapAssistant(s, blocks).0, MapAssistant(s, blocks).1)
  {
    var (out, t) := MapAssistant(s, blocks);
    CountersKeepValid(s, t);
    forall a | 0 <= a < |out| ensures !out[a].IsChunk() && (out[a].HasId() ==> Fresh(s, t, out[a].id)) {
      AssistantIds(s, blocks, a);
    }
    forall a, b | 0 <= a < b < |out| && out[a].HasId() && out[b].HasId() ensures out[a].id != out[b].id {
      AssistantIds(s, blocks, a);
      AssistantIds(s, blocks, b);
    }
  }

  lemma ReplayStep(s: State, blocks: Option<seq<Block>>, content: string)
    requires Valid(s)
    ensures StepFacts(s, UserReplay(blocks, content), MapReplay(s, blocks, content).0, MapReplay(s, blocks, content).1)
  {
    if blocks.Some? { ReplayShape(s, blocks.value); }
    CountersKeepValid(s, MapReplay(s, blocks, content).1);
  }

  lemma StepFactsHold(s: State, msg: SdkMessage, brief: bool)
    requires Valid(s)
    ensures StepFacts(s, msg, MapMessage(s, msg, brief).0, MapMessage(s, msg, brief).1)
  {
    match msg {
      case Stream(event) => StreamStep(s, event);
      case Assistant(blocks) => AssistantStep(s, blocks);
      case UserReplay(blocks, content) => ReplayStep(s, blocks, content);
      case _ => CountersKeepValid(s, MapMessage(s, msg, brief).1);
    }
  }

  lemma {:induction false} RunExtends(s: State, msgs: seq<SdkMessage>, brief: bool)
    requires Valid(s)
    ensures Valid(After(s, msgs, brief)) && Extends(s, After(s, msgs, brief))
    decreases |msgs|
  {
    if msgs == [] {
      CountersKeepValid(s, s);
    } else {
      var t := MapMessage(s, msgs[0], brief).1;
      StepFactsHold(s, msgs[0], brief);
      RunExtends(t, msgs[1..], brief);
      ExtendsTransitive(s, t, After(t, msgs[1..], brief));
    }
  }

  // The state between messages: each output is the mapper's step there.
  lemma {:induction false} OutputAt(s: State, msgs: seq<SdkMessage>, brief: bool, k: nat)
    requires k < |msgs|
    ensures Outputs(s, msgs, brief)[k] == MapMessage(After(s, msgs[..k], brief), msgs[k], brief).0
    ensures After(s, msgs[..k + 1], brief) == MapMessage(After(s, msgs[..k], brief), msgs[k], brief).1
    decreases k
  {
    if k > 0 {
      var t := MapMessage(s, msgs[0], brief).1;
      OutputAt(t, msgs[1..], brief, k - 1);
      assert msgs[..k][1..] == msgs[1..][..k - 1];
      assert msgs[..k + 1][1..] == msgs[1..][..k];
    } else {
      assert msgs[..1][1..] == [];
    }
  }

  lemma {:induction false} AfterConcat(s: State, a: seq<SdkMessage>, b: seq<SdkMessage>, brief: bool)
    ensures After(s, a + b, brief) == After(After(s, a, brief), b, brief)
    decreases |a|
  {
    if a == [] {
      assert a + b == b;
    } else {
      assert (a + b)[1..] == a[1..] + b;
      AfterConcat(MapMessage(s, a[0], brief).1, a[1..], b, brief);
    }
  }

  // ---------------------------------------------------------------- reassembly

  lemma {:induction false} GroupedConcat(a: seq<Update>, b: seq<Update>, id: MessageId)
    ensures Grouped(a + b, id) == Grouped(a, id) + Grouped(b, id)
  {
    if a == [] {
      assert a + b == b;
    } else {
      assert (a + b)[1..] == a[1..] + b;
      GroupedConcat(a[1..], b, id);
    }
  }

  lemma {:induction false} NoChunksNoText(out: seq<Update>, id: MessageId)
    requires forall a :: 0 <= a < |out| ==> !out[a].IsChunk()
    ensures Grouped(out, id) == ""
  {
    if out != [] {
      assert forall a :: 0 <= a < |out[1..]| ==> out[1..][a] == out[a + 1];
      NoChunksNoText(out[1..], id);
    }
  }

  // A chunk belongs to the group of its own kind and index, and to no other.
  lemma ChunkGroups(end: State, p: Piece, kind: Kind, index: nat)
    requires Valid(end) && index in BlockIds(end, kind) && p.index in BlockIds(end, p.kind)
    ensures Grouped([Chunk(BlockIds(end, p.kind)[p.index], p)], BlockIds(end, kind)[index]) ==
      if p.kind == kind && p.index == index then p.text else ""
  {
    assert ValidKind(end, p.kind) && ValidKind(end, kind);
    var out := [Chunk(BlockIds(end, p.kind)[p.index], p)];
    assert out[1..] == [] && Grouped([], BlockIds(end, kind)[index]) == "";
  }

  // One message adds to a block's group exactly the piece it carries for it.
  lemma StepGroups(s: State, msg: SdkMessage, brief: bool, end: State, kind: Kind, index: nat)
    requires Valid(s) && Valid(end) && Extends(MapMessage(s, msg, brief).1, end) && index in BlockIds(end, kind)
    ensures Grouped(MapMessage(s, msg, brief).0, BlockIds(end, kind)[index]) == BlockText([msg], kind, index)
  {
    var (out, t) := MapMessage(s, msg, brief);
    StepFactsHold(s, msg, brief);
    assert [msg][1..] == [] && BlockText([], kind, index) == "";
    if PieceOf(msg).Some? {
      var p := PieceOf(msg).value;
      assert ExtendsKind(t, end, p.kind);
      assert out == [Chunk(BlockIds(end, p.kind)[p.index], p)];
      ChunkGroups(end, p, kind, index);
    } else {
      NoChunksNoText(out, BlockIds(end, kind)[index]);
    }
  }

  lemma {:induction false} RunGroups(s: State, msgs: seq<SdkMessage>, brief: bool, kind: Kind, index: nat)
    requires Valid(s) && index in BlockIds(After(s, msgs, brief), kind)
    ensures Grouped(Flatten(Outputs(s, msgs, brief)), BlockIds(After(s, msgs, brief), kind)[index])
      == BlockText(msgs, kind, index)
    decreases |msgs|
  {
    if msgs != [] {
      var (out, t) := MapMessage(s, msgs[0], brief);
      var end := After(s, msgs, brief);
      StepFactsHold(s, msgs[0], brief);
      RunExtends(t, msgs[1..], brief);
      StepGroups(s, msgs[0], brief, end, kind, index);
      RunGroups(t, msgs[1..], brief, kind, index);
      GroupedConcat(out, Flatten(Outputs(t, msgs[1..], brief)), BlockIds(end, kind)[index]);
      assert Outputs(s, msgs, brief)[1..] == Outputs(t, msgs[1..], brief);
      assert [msgs[0]][1..] == [];
    }
  }

  lemma FreshIsValid()
    ensures Valid(FRESH)
  {
  }

  lemma {:induction false} PieceHasBlock(s: State, msgs: seq<SdkMessage>, brief: bool, kind: Kind, index: nat)
    requires Valid(s) && index !in BlockIds(After(s, msgs, brief), kind)
    ensures BlockText(msgs, kind, index) == ""
    decreases |msgs|
  {
    if msgs != [] {
      var t := MapMessage(s, msgs[0], brief).1;
      StepFactsHold(s, msgs[0], brief);
      RunExtends(t, msgs[1..], brief);
      assert ExtendsKind(t, After(s, msgs, brief), kind);
      PieceHasBlock(t, msgs[1..], brief, kind, index);
    }
  }

  // Over any run of a mapper, the chunks under a block's message id concatenate
  // to exactly the text streamed for that block, in order; a block that was
  // given no id had no text streamed.
  lemma {:induction false} StreamReassembly(msgs: seq<SdkMessage>, brief: bool, kind: Kind, index: nat)
    ensures var ids := BlockIds(After(FRESH, msgs, brief), kind);
      && (index in ids ==> Grouped(Flatten(Outputs(FRESH, msgs, brief)), ids[index]) == BlockText(msgs, kind, index))
      && (index !in ids ==> BlockText(msgs, kind, index) == "")
  {
    FreshIsValid();
    if index in BlockIds(After(FRESH, msgs, brief), kind) {
      RunGroups(FRESH, msgs, brief, kind, index);
    } else {
      PieceHasBlock(FRESH, msgs, brief, kind, index);
    }
  }

  // ------------------------------------------------- what the mapper passes over

  ghost function TextOr(text: Option<string>): string {
    if text.Some? then text.value else ""
  }

  // All the text an event holds for a block, whether or not the mapper takes it.
  ghost function HeldText(msg: SdkMessage, kind: Kind, index: nat): string {
    if !msg.Stream? then ""
    else match msg.event
      case BlockStart(i, Text(t)) => if i == index && kind == AgentText then t else ""
      case BlockStart(i, ConnectorText(t)) => if i == index && kind == AgentText then t else ""
      case BlockStart(i, Thinking(t)) => if i == index && kind == ThoughtText then t else ""
      case BlockStart(i, RedactedThinking(t)) => if i == index && kind == ThoughtText then t else ""
      case BlockDelta(i, d) =>
        if i != index then ""
        else if kind == AgentText then TextOr(d.text)
        else TextOr(d.thinking) + TextOr(d.data)
      case _ => ""
  }

  ghost function AllHeld(msgs: seq<SdkMessage>, kind: Kind, index: nat): string {
    if msgs == [] then "" else HeldText(msgs[0], kind, index) + AllHeld(msgs[1..], kind, index)
  }

  // The text of a connector or redacted block start, and whatever follows the
  // first non-empty field of a delta.
  ghost predicate PassesOver(msg: SdkMessage, kind: Kind, index: nat) {
    msg.Stream?
    && match msg.event
       case BlockStart(i, ConnectorText(t)) => i == index && kind == AgentText && t != ""
       case BlockStart(i, RedactedThinking(t)) => i == index && kind == ThoughtText && t != ""
       case BlockDelta(i, d) =>
         i == index && kind == ThoughtText
         && ((NonEmpty(d.text) && (NonEmpty(d.thinking) || NonEmpty(d.data)))
           || (NonEmpty(d.thinking) && NonEmpty(d.data)))
       case _ => false
  }

  lemma TakenIsPrefix(msg: SdkMessage, kind: Kind, index: nat)
    ensures BlockText([msg], kind, index) <= HeldText(msg, kind, index)
    ensures BlockText([msg], kind, index) == HeldText(msg, kind, index) <==> !PassesOver(msg, kind, index)
  {
    assert [msg][1..] == [] && BlockText([], kind, index) == "";
    if msg.Stream? && msg.event.BlockDelta? {
      var d := msg.event.delta;
      assert TextOr(d.thinking) + TextOr(d.data) ==
        if !NonEmpty(d.thinking) then TextOr(d.data) else if !NonEmpty(d.data) then TextOr(d.thinking)
        else TextOr(d.thinking) + TextOr(d.data);
    }
  }

  lemma BlockTextFirst(msgs: seq<SdkMessage>, kind: Kind, index: nat)
    requires msgs != []
    ensures BlockText(msgs, kind, index) == BlockText([msgs[0]], kind, index) + BlockText(msgs[1..], kind, index)
  {
    assert [msgs[0]][1..] == [] && BlockText([], kind, index) == "";
  }

  lemma {:induction false} TakenNoLonger(msgs: seq<SdkMessage>, kind: Kind, index: nat)
    ensures |BlockText(msgs, kind, index)| <= |AllHeld(msgs, kind, index)|
    ensures BlockText(msgs, kind, index) == AllHeld(msgs, kind, index) <==>
      forall i :: 0 <= i < |msgs| ==> !PassesOver(msgs[i], kind, index)
  {
    if msgs != [] {
      var rest := msgs[1..];
      var taken, held := BlockText([msgs[0]], kind, index), HeldText(msgs[0], kind, index);
      BlockTextFirst(msgs, kind, index);
      TakenIsPrefix(msgs[0], kind, index);
      TakenNoLonger(rest, kind, index);
      if BlockText(msgs, kind, index) == AllHeld(msgs, kind, index) {
        assert |taken| == |held|;
        assert BlockText(rest, kind, index) == BlockText(msgs, kind, index)[|taken|..];
        assert AllHeld(rest, kind, index) == AllHeld(msgs, kind, index)[|held|..];
      }
      assert forall i :: 0 <= i < |rest| ==> rest[i] == msgs[i + 1];
      assert forall i :: 0 < i < |msgs| ==> msgs[i] == rest[i - 1];
    }
  }

  // What a client regroups for a block.
  ghost function Regrouped(msgs: seq<SdkMessage>, brief: bool, kind: Kind, index: nat): string {
    var ids := BlockIds(After(FRESH, msgs, brief), kind);
    if index in ids then Grouped(Flatten(Outputs(FRESH, msgs, brief)), ids[index]) else ""
  }

  // The regrouped output holds all the text the events held for a block exactly
  // if no event had text in a place the mapper passes over.
  lemma {:induction false} RegroupedIsComplete(msgs: seq<SdkMessage>, brief: bool, kind: Kind, index: nat)
    ensures Regrouped(msgs, brief, kind, index) == AllHeld(msgs, kind, index) <==>
      forall i :: 0 <= i < |msgs| ==> !PassesOver(msgs[i], kind, index)
  {
    StreamReassembly(msgs, brief, kind, index);
    TakenNoLonger(msgs, kind, index);
  }

  // ----------------------------------------------------------------------- ids

  lemma StateAt(msgs: seq<SdkMessage>, brief: bool, j: nat, k: nat)
    requires j <= k <= |msgs|
    ensures var s, t := After(FRESH, msgs[..j], brief), After(FRESH, msgs[..k], brief);
      Valid(s) && Valid(t) && Extends(s, t)
  {
    FreshIsValid();
    RunExtends(FRESH, msgs[..j], brief);
    RunExtends(After(FRESH, msgs[..j], brief), msgs[j..k], brief);
    assert msgs[..k] == msgs[..j] + msgs[j..k];
    AfterConcat(FRESH, msgs[..j], msgs[j..k], brief);
  }

  lemma StepAt(msgs: seq<SdkMessage>, brief: bool, k: nat)
    requires k < |msgs|
    ensures StepFacts(After(FRESH, msgs[..k], brief), msgs[k], Outputs(FRESH, msgs, brief)[k],
      After(FRESH, msgs[..k + 1], brief))
  {
    StateAt(msgs, brief, k, k);
    OutputAt(FRESH, msgs, brief, k);
    StepFactsHold(After(FRESH, msgs[..k], brief), msgs[k], brief);
  }

  lemma ChunkAt(msgs: seq<SdkMessage>, brief: bool, k: nat)
    requires k < |msgs| && PieceOf(msgs[k]).Some?
    ensures var p := PieceOf(msgs[k]).value; var ids := BlockIds(After(FRESH, msgs, brief), p.kind);
      p.index in ids && Outputs(FRESH, msgs, brief)[k] == [Chunk(ids[p.index], p)]
  {
    StepAt(msgs, brief, k);
    StateAt(msgs, brief, k + 1, |msgs|);
    assert msgs[..|msgs|] == msgs;
    assert ExtendsKind(After(FRESH, msgs[..k + 1], brief), After(FRESH, msgs, brief), PieceOf(msgs[k]).value.kind);
  }

  // Two chunks carry the same message id exactly when they are of the same kind
  // and block index.
  lemma {:induction false} ChunksShareIds(msgs: seq<SdkMessage>, brief: bool, j: nat, k: nat)
    requires j < |msgs| && k < |msgs| && PieceOf(msgs[j]).Some? && PieceOf(msgs[k]).Some?
    ensures var out := Outputs(FRESH, msgs, brief);
      var p, q := PieceOf(msgs[j]).value, PieceOf(msgs[k]).value;
      && |out[j]| == 1 && out[j][0].IsChunk() && |out[k]| == 1 && out[k][0].IsChunk()
      && (out[j][0].id.Text() == out[k][0].id.Text() <==> p.kind == q.kind && p.index == q.index)
  {
    ChunkAt(msgs, brief, j);
    ChunkAt(msgs, brief, k);
    StateAt(msgs, brief, |msgs|, |msgs|);
    assert msgs[..|msgs|] == msgs;
    assert ValidKind(After(FRESH, msgs, brief), AgentText) && ValidKind(After(FRESH, msgs, brief), ThoughtText);
    TextInjective(Outputs(FRESH, msgs, brief)[j][0].id, Outputs(FRESH, msgs, brief)[k][0].id);
  }

  ghost predicate Below(id: MessageId, t: State) {
    match id
    case UserMsg(n) => n <= t.user
    case AgentMsg(n) => n <= t.agent
    case ThoughtMsg(n) => n <= t.thought
    case BriefMsg(n) => n <= t.brief
  }

  lemma IdBounded(msgs: seq<SdkMessage>, brief: bool, k: nat, b: nat)
    requires k < |msgs| && b < |Outputs(FRESH, msgs, brief)[k]| && Outputs(FRESH, msgs, brief)[k][b].HasId()
    ensures Below(Outputs(FRESH, msgs, brief)[k][b].id, After(FRESH, msgs[..k + 1], brief))
  {
    StepAt(msgs, brief, k);
    if PieceOf(msgs[k]).Some? {
      assert ValidKind(After(FRESH, msgs[..k + 1], brief), PieceOf(msgs[k]).value.kind);
    }
  }

  // A number above the counter, and not given to a block, is no block's id later.
  lemma FreshIsNoBlock(s: State, t: State, u: State, id: MessageId, kind: Kind, index: nat)
    requires Fresh(s, t, id) && BlockIds(t, kind) == BlockIds(s, kind)
    requires ValidKind(s, kind) && ValidKind(u, kind) && ExtendsKind(t, u, kind) && index in BlockIds(u, kind)
    ensures id != BlockIds(u, kind)[index]
  {
    assert BlockIds(u, kind)[index] == MakeId(kind, BlockIds(u, kind)[index].n);
  }

  ghost predicate WholeAt(msgs: seq<SdkMessage>, brief: bool, j: nat, a: nat) {
    && j < |msgs| && a < |Outputs(FRESH, msgs, brief)[j]|
    && Outputs(FRESH, msgs, brief)[j][a].HasId() && !Outputs(FRESH, msgs, brief)[j][a].IsChunk()
  }

  // An update with an id that is no chunk takes a fresh number and leaves the
  // block ids alone.
  lemma WholeStep(s: State, msg: SdkMessage, out: seq<Update>, t: State, a: nat, kind: Kind)
    requires StepFacts(s, msg, out, t) && a < |out| && out[a].HasId() && !out[a].IsChunk()
    ensures Fresh(s, t, out[a].id) && BlockIds(t, kind) == BlockIds(s, kind)
  {
  }

  // A piece comes out as one chunk under its block's id.
  lemma ChunkStep(s: State, msg: SdkMessage, out: seq<Update>, t: State)
    requires StepFacts(s, msg, out, t) && PieceOf(msg).Some?
    ensures var p := PieceOf(msg).value;
      && |out| == 1 && out[0].IsChunk()
      && p.index in BlockIds(t, p.kind) && out[0].id == BlockIds(t, p.kind)[p.index]
  {
  }

  lemma WholeIsFresh(msgs: seq<SdkMessage>, brief: bool, j: nat, a: nat, kind: Kind)
    requires WholeAt(msgs, brief, j, a)
    ensures var s, t := After(FRESH, msgs[..j], brief), After(FRESH, msgs[..j + 1], brief);
      Fresh(s, t, Outputs(FRESH, msgs, brief)[j][a].id) && BlockIds(t, kind) == BlockIds(s, kind) && ValidKind(s, kind)
  {
    StepAt(msgs, brief, j);
    StateAt(msgs, brief, j, j + 1);
    WholeStep(After(FRESH, msgs[..j], brief), msgs[j], Outputs(FRESH, msgs, brief)[j],
              After(FRESH, msgs[..j + 1], brief), a, kind);
  }

  lemma LaterChunkDiffers(msgs: seq<SdkMessage>, brief: bool, j: nat, a: nat, k: nat)
    requires WholeAt(msgs, brief, j, a) && j < k < |msgs| && PieceOf(msgs[k]).Some?
    ensures |Outputs(FRESH, msgs, brief)[k]| == 1 && Outputs(FRESH, msgs, brief)[k][0].IsChunk()
    ensures Outputs(FRESH, msgs, brief)[j][a].id != Outputs(FRESH, msgs, brief)[k][0].id
  {
    var s, t := After(FRESH, msgs[..j], brief), After(FRESH, msgs[..j + 1], brief);
    var u, p := After(FRESH, msgs[..k + 1], brief), PieceOf(msgs[k]).value;
    WholeIsFresh(msgs, brief, j, a, p.kind);
    StepAt(msgs, brief, k);
    ChunkStep(After(FRESH, msgs[..k], brief), msgs[k], Outputs(FRESH, msgs, brief)[k], u);
    StateAt(msgs, brief, j + 1, k + 1);
    FreshIsNoBlock(s, t, u, Outputs(FRESH, msgs, brief)[j][a].id, p.kind, p.index);
  }

  lemma EarlierIdDiffers(msgs: seq<SdkMessage>, brief: bool, j: nat, a: nat, k: nat, b: nat)
    requires WholeAt(msgs, brief, j, a) && k < j
    requires b < |Outputs(FRESH, msgs, brief)[k]| && Outputs(FRESH, msgs, brief)[k][b].HasId()
    ensures Outputs(FRESH, msgs, brief)[j][a].id != Outputs(FRESH, msgs, brief)[k][b].id
  {
    StepAt(msgs, brief, j);
    StateAt(msgs, brief, k + 1, j);
    IdBounded(msgs, brief, k, b);
  }

  lemma LaterIdDiffers(msgs: seq<SdkMessage>, brief: bool, j: nat, a: nat, k: nat, b: nat)
    requires WholeAt(msgs, brief, j, a) && j < k < |msgs|
    requires b < |Outputs(FRESH, msgs, brief)[k]| && Outputs(FRESH, msgs, brief)[k][b].HasId()
    ensures Outputs(FRESH, msgs, brief)[j][a].id != Outputs(FRESH, msgs, brief)[k][b].id
  {
    if PieceOf(msgs[k]).Some? {
      LaterChunkDiffers(msgs, brief, j, a, k);
    } else {
      StepAt(msgs, brief, k);
      StateAt(msgs, brief, j + 1, k);
      IdBounded(msgs, brief, j, a);
    }
  }

  // A whole message's id is its own: no other update of the run, earlier or
  // later, chunk or whole message, carries the same text as id.
  lemma {:induction false} WholeMessageIdsFresh(msgs: seq<SdkMessage>, brief: bool, j: nat, a: nat, k: nat, b: nat)
    requires j < |msgs| && k < |msgs| && (j, a) != (k, b)
    requires a < |Outputs(FRESH, msgs, brief)[j]| && b < |Outputs(FRESH, msgs, brief)[k]|
    requires Outputs(FRESH, msgs, brief)[j][a].HasId() && !Outputs(FRESH, msgs, brief)[j][a].IsChunk()
    requires Outputs(FRESH, msgs, brief)[k][b].HasId()
    ensures Outputs(FRESH, msgs, brief)[j][a].id.Text() != Outputs(FRESH, msgs, brief)[k][b].id.Text()
  {
    var out: seq<seq<Update>> := Outputs(FRESH, msgs, brief);
    TextInjective(out[j][a].id, out[k][b].id);
    if k < j {
      EarlierIdDiffers(msgs, brief, j, a, k, b);
    } else if j < k {
      LaterIdDiffers(msgs, brief, j, a, k, b);
    } else {
      StepAt(msgs, brief, j);
    }
  }
}
