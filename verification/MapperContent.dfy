/** What the updates of one message hold, told from the message alone: which of
    its blocks are shown, in which update and in which order. */
module MapperContent {
  import opened Wrappers
  import opened UpdateMapper

  predicate SaysText(block: Block) { (block.Text? || block.ConnectorText?) && block.text != "" }

  predicate SaysThought(block: Block) {
    (block.Thinking? && block.text != "") || (block.RedactedThinking? && block.data != "")
  }

  predicate IsTool(block: Block) { block.ToolUse? || block.ToolResult? }

  // The blocks of a replayed user message that are shown.
  predicate Replayed(block: Block) { (block.Text? && block.text != "") || block.ToolResult? }

  datatype Sort = Texts | Thoughts | Tools | Replays

  predicate Wanted(sort: Sort, block: Block) {
    match sort
    case Texts => SaysText(block)
    case Thoughts => SaysThought(block)
    case Tools => IsTool(block)
    case Replays => Replayed(block)
  }

  // Increasing positions of exactly the blocks that are wanted.
  ghost predicate Positions(at: seq<nat>, blocks: seq<Block>, sort: Sort) {
    && (forall i :: 0 <= i < |at| ==> at[i] < |blocks| && Wanted(sort, blocks[at[i]]))
    && (forall i, j :: 0 <= i < j < |at| ==> at[i] < at[j])
    && (forall k :: 0 <= k < |blocks| && Wanted(sort, blocks[k]) ==> k in at)
  }

  // One string for each block with text, in block order, and that text.
  ghost predicate ListsTexts(content: seq<string>, blocks: seq<Block>, at: seq<nat>) {
    && |content| == |at| && Positions(at, blocks, Texts)
    && forall i :: 0 <= i < |at| ==> content[i] == blocks[at[i]].text
  }

  ghost predicate ListsThoughts(content: seq<string>, blocks: seq<Block>, at: seq<nat>) {
    && |content| == |at| && Positions(at, blocks, Thoughts)
    && forall i :: 0 <= i < |at| ==>
      content[i] == if blocks[at[i]].Thinking? then blocks[at[i]].text else blocks[at[i]].data
  }

  // The update that shows a tool's call or its outcome.
  ghost predicate ShowsTool(update: Update, block: Block) {
    match block
    case ToolUse(id) => update == ToolCall(id)
    case ToolResult(id, output, isError) => update == ToolOutcome(id, output, isError)
    case _ => false
  }

  ghost predicate ListsTools(updates: seq<Update>, blocks: seq<Block>, at: seq<nat>) {
    && |updates| == |at| && Positions(at, blocks, Tools)
    && forall i :: 0 <= i < |at| ==> ShowsTool(updates[i], blocks[at[i]])
  }

  lemma OneMorePosition(at: seq<nat>, blocks: seq<Block>, sort: Sort)
    requires blocks != [] && Positions(at, blocks[..|blocks| - 1], sort)
    ensures Positions(at + (if Wanted(sort, blocks[|blocks| - 1]) then [|blocks| - 1] else []), blocks, sort)
  {
    var last := |blocks| - 1;
    var at' := at + (if Wanted(sort, blocks[last]) then [last] else []);
    forall k | 0 <= k < |blocks| && Wanted(sort, blocks[k]) ensures k in at' {
      if k < last { assert blocks[..last][k] == blocks[k]; }
    }
  }

  lemma OneMoreText(listed: seq<string>, blocks: seq<Block>, at: seq<nat>)
    requires blocks != [] && ListsTexts(listed, blocks[..|blocks| - 1], at)
    ensures var last := blocks[|blocks| - 1];
      ListsTexts(listed + AgentTextOf(last), blocks, at + (if SaysText(last) then [|blocks| - 1] else []))
  {
    OneMorePosition(at, blocks, Texts);
  }

  lemma {:induction false} TextsListed(blocks: seq<Block>) returns (at: seq<nat>)
    ensures ListsTexts(AgentTexts(blocks), blocks, at)
  {
    at := [];
    if blocks != [] {
      var front := TextsListed(blocks[..|blocks| - 1]);
      OneMoreText(AgentTexts(blocks[..|blocks| - 1]), blocks, front);
      at := front + (if SaysText(blocks[|blocks| - 1]) then [|blocks| - 1] else []);
    }
  }

  lemma OneMoreThought(listed: seq<string>, blocks: seq<Block>, at: seq<nat>)
    requires blocks != [] && ListsThoughts(listed, blocks[..|blocks| - 1], at)
    ensures var last := blocks[|blocks| - 1];
      ListsThoughts(listed + ThoughtTextOf(last), blocks, at + (if SaysThought(last) then [|blocks| - 1] else []))
  {
    OneMorePosition(at, blocks, Thoughts);
  }

  lemma {:induction false} ThoughtsListed(blocks: seq<Block>) returns (at: seq<nat>)
    ensures ListsThoughts(ThoughtTexts(blocks), blocks, at)
  {
    at := [];
    if blocks != [] {
      var front := ThoughtsListed(blocks[..|blocks| - 1]);
      OneMoreThought(ThoughtTexts(blocks[..|blocks| - 1]), blocks, front);
      at := front + (if SaysThought(blocks[|blocks| - 1]) then [|blocks| - 1] else []);
    }
  }

  lemma OneMoreTool(listed: seq<Update>, blocks: seq<Block>, at: seq<nat>)
    requires blocks != [] && ListsTools(listed, blocks[..|blocks| - 1], at)
    ensures var last := blocks[|blocks| - 1];
      ListsTools(listed + ToolUpdateOf(last), blocks, at + (if IsTool(last) then [|blocks| - 1] else []))
  {
    OneMorePosition(at, blocks, Tools);
  }

  lemma {:induction false} ToolsListed(blocks: seq<Block>) returns (at: seq<nat>)
    ensures ListsTools(ToolUpdates(blocks), blocks, at)
  {
    at := [];
    if blocks != [] {
      var front := ToolsListed(blocks[..|blocks| - 1]);
      OneMoreTool(ToolUpdates(blocks[..|blocks| - 1]), blocks, front);
      at := front + (if IsTool(blocks[|blocks| - 1]) then [|blocks| - 1] else []);
    }
  }

  lemma NoneWanted(at: seq<nat>, blocks: seq<Block>, sort: Sort)
    requires Positions(at, blocks, sort)
    ensures at == [] <==> forall k :: 0 <= k < |blocks| ==> !Wanted(sort, blocks[k])
  {
    if at != [] { assert Wanted(sort, blocks[at[0]]); }
  }

  ghost function MessageOf(s: State, texts: seq<string>): seq<Update> {
    if texts == [] then [] else [AgentMessage(AgentMsg(s.agent + 1), texts)]
  }

  ghost function ThoughtOf(s: State, texts: seq<string>): seq<Update> {
    if texts == [] then [] else [AgentThought(ThoughtMsg(s.thought + 1), texts)]
  }

  // An assistant message is shown as one message with the text of its text and
  // connector blocks, then the updates of its tools, then one thought with the
  // text of its thinking and redacted blocks, each in block order with no block
  // of its kind missing; the message and the thought are absent exactly if there
  // is no such block, and use up the next number exactly if they are there.
  lemma {:induction false} AssistantHolds(s: State, blocks: seq<Block>, brief: bool)
    returns (texts: seq<string>, textsAt: seq<nat>, tools: seq<Update>, toolsAt: seq<nat>,
             thoughts: seq<string>, thoughtsAt: seq<nat>)
    ensures ListsTexts(texts, blocks, textsAt)
    ensures ListsTools(tools, blocks, toolsAt)
    ensures ListsThoughts(thoughts, blocks, thoughtsAt)
    ensures texts == [] <==> forall k :: 0 <= k < |blocks| ==> !SaysText(blocks[k])
    ensures thoughts == [] <==> forall k :: 0 <= k < |blocks| ==> !SaysThought(blocks[k])
    ensures var (out, t) := MapMessage(s, Assistant(blocks), brief);
      && out == MessageOf(s, texts) + tools + ThoughtOf(s, thoughts)
      && t == s.(agent := s.agent + |MessageOf(s, texts)|, thought := s.thought + |ThoughtOf(s, thoughts)|)
  {
    texts, tools, thoughts := AgentTexts(blocks), ToolUpdates(blocks), ThoughtTexts(blocks);
    textsAt := TextsListed(blocks);
    toolsAt := ToolsListed(blocks);
    thoughtsAt := ThoughtsListed(blocks);
    NoneWanted(textsAt, blocks, Texts);
    NoneWanted(thoughtsAt, blocks, Thoughts);
    AssembledIs(s, texts, tools, thoughts);
  }

  lemma AssembledIs(s: State, texts: seq<string>, tools: seq<Update>, thoughts: seq<string>)
    ensures var (out, t) := Assembled(s, texts, tools, thoughts);
      && out == MessageOf(s, texts) + tools + ThoughtOf(s, thoughts)
      && t == s.(agent := s.agent + |MessageOf(s, texts)|, thought := s.thought + |ThoughtOf(s, thoughts)|)
  {
  }

  // ----------------------------------------------------------------- user replay

  function UserMessages(updates: seq<Update>): nat {
    if updates == [] then 0
    else UserMessages(updates[..|updates| - 1]) + (if updates[|updates| - 1].UserMessage? then 1 else 0)
  }

  // A message of its own for a text, under the next number, and an outcome for a
  // tool result.
  ghost predicate ShowsReplayed(s: State, updates: seq<Update>, i: nat, block: Block)
    requires i < |updates|
  {
    if block.ToolResult? then ShowsTool(updates[i], block)
    else block.Text? && updates[i] == UserMessage(UserMsg(s.user + UserMessages(updates[..i]) + 1), [block.text])
  }

  ghost predicate ListsReplayed(s: State, updates: seq<Update>, blocks: seq<Block>, at: seq<nat>) {
    && |updates| == |at| && Positions(at, blocks, Replays)
    && forall i :: 0 <= i < |at| ==> ShowsReplayed(s, updates, i, blocks[at[i]])
  }

  lemma OneMoreReplayed(s: State, before: seq<Update>, more: seq<Update>, blocks: seq<Block>, at: seq<nat>)
    requires blocks != [] && ListsReplayed(s, before, blocks[..|blocks| - 1], at)
    requires Replayed(blocks[|blocks| - 1]) ==>
      |more| == 1 && ShowsReplayed(s, before + more, |before|, blocks[|blocks| - 1])
    requires !Replayed(blocks[|blocks| - 1]) ==> more == []
    ensures ListsReplayed(s, before + more, blocks,
                          at + (if Replayed(blocks[|blocks| - 1]) then [|blocks| - 1] else []))
  {
    OneMorePosition(at, blocks, Replays);
    forall i | 0 <= i < |at| ensures ShowsReplayed(s, before + more, i, blocks[at[i]]) {
      assert (before + more)[..i] == before[..i];
      assert ShowsReplayed(s, before, i, blocks[..|blocks| - 1][at[i]]);
    }
  }

  // What one block more adds.
  lemma BlockReplayed(s: State, blocks: seq<Block>) returns (more: seq<Update>)
    requires blocks != []
    ensures var (before, t) := MapReplayBlocks(s, blocks[..|blocks| - 1]); var last := blocks[|blocks| - 1];
      && MapReplayBlocks(s, blocks).0 == before + more
      && MapReplayBlocks(s, blocks).1 == t.(user := t.user + UserMessages(more))
      && UserMessages(before + more) == UserMessages(before) + UserMessages(more)
      && (if Replayed(last) then
            && |more| == 1
            && (if last.ToolResult? then ShowsTool(more[0], last)
                else more[0] == UserMessage(UserMsg(t.user + 1), [last.text]))
          else more == [])
  {
    var (before, t) := MapReplayBlocks(s, blocks[..|blocks| - 1]);
    var last := blocks[|blocks| - 1];
    more := if last.ToolResult? then [ToolOutcome(last.toolId, last.output, last.isError)]
            else if Replayed(last) then [UserMessage(UserMsg(t.user + 1), [last.text])]
            else [];
    if more == [] {
      assert before + more == before;
    } else {
      assert (before + more)[..|before|] == before && more[..0] == [];
    }
  }

  lemma {:induction false} BlocksReplayed(s: State, blocks: seq<Block>) returns (at: seq<nat>)
    ensures var (updates, t) := MapReplayBlocks(s, blocks);
      ListsReplayed(s, updates, blocks, at) && t == s.(user := s.user + UserMessages(updates))
  {
    at := [];
    if blocks != [] {
      var front := BlocksReplayed(s, blocks[..|blocks| - 1]);
      var more := BlockReplayed(s, blocks);
      var before := MapReplayBlocks(s, blocks[..|blocks| - 1]).0;
      assert (before + more)[..|before|] == before;
      OneMoreReplayed(s, before, more, blocks, front);
      at := front + (if Replayed(blocks[|blocks| - 1]) then [|blocks| - 1] else []);
    }
  }

  // A replayed user message is shown as its text blocks, each a message of its
  // own under consecutive numbers, and its tool results, in block order; if no
  // block is shown, as its plain content, if it has any.
  lemma {:induction false} ReplayHolds(s: State, blocks: Option<seq<Block>>, content: string, brief: bool)
    ensures var (out, t) := MapMessage(s, UserReplay(blocks, content), brief);
      var given := if blocks.Some? then blocks.value else [];
      && t == s.(user := s.user + UserMessages(out))
      && (if exists k :: 0 <= k < |given| && Replayed(given[k]) then
            exists at: seq<nat> :: ListsReplayed(s, out, given, at)
          else out == if content == "" then [] else [UserMessage(UserMsg(s.user + 1), [content])])
  {
    var given := if blocks.Some? then blocks.value else [];
    var at := BlocksReplayed(s, given);
    NoneWanted(at, given, Replays);
    var fallback := [UserMessage(UserMsg(s.user + 1), [content])];
    assert fallback[..0] == [] && UserMessages(fallback) == 1;
  }

  // -------------------------------------------------------------- other messages

  // Notices are shown as one thought holding the note.
  predicate Notices(msg: SdkMessage) {
    msg.CompactBoundary? || msg.ApiRetry? || msg.ToolUseSummary? || msg.Tombstone?
    || (msg.GoalUpdated? && !msg.hasEntries)
  }

  // Each remaining kind of message is shown as one update with its text, or a
  // plan for a goal with entries, or not at all; a brief is structured exactly if
  // the session asked for it. Each uses up a number of its own kind only.
  lemma OthersHold(s: State, msg: SdkMessage, brief: bool)
    ensures var (out, t) := MapMessage(s, msg, brief);
      && (Notices(msg) ==>
           out == [AgentThought(ThoughtMsg(s.thought + 1), [msg.note])] && t == s.(thought := s.thought + 1))
      && (msg.Brief? && brief ==>
           out == [StructuredBrief(BriefMsg(s.brief + 1), msg.message)] && t == s.(brief := s.brief + 1))
      && (msg.Brief? && !brief ==>
           out == [AgentMessage(AgentMsg(s.agent + 1), [msg.message])] && t == s.(agent := s.agent + 1))
      && (msg.GoalUpdated? && msg.hasEntries ==> out == [Plan] && t == s)
      && (msg.SystemInit? ==> out == [] && t == s)
  {
  }

  // Of stream events without text, a message start says that the turn runs, a tool
  // block start shows the tool, and nothing else is shown; none of them renumbers.
  lemma EventsHold(s: State, event: StreamEvent, brief: bool)
    requires !event.BlockDelta?
    ensures var (out, t) := MapMessage(s, Stream(event), brief);
      && (event.MessageStart? ==> out == [Running] && t == s)
      && (event.BlockStart? && IsTool(event.block) ==> |out| == 1 && ShowsTool(out[0], event.block) && t == s)
      && (!event.MessageStart? && !event.BlockStart? ==> out == [] && t == s)
      && (event.BlockStart? && !IsTool(event.block) && !SaysText(event.block) && !SaysThought(event.block) ==>
           out == [])
  {
  }

  // A result is shown as the usage and an idle update. Its reason is the forced
  // one, if any; otherwise it is told by the result, each reason exactly for the
  // results it stands for.
  lemma ResultHolds(r: TurnResult, forced: Option<StopReason>)
    ensures var out := MapResult(r, forced);
      && |out| == 2 && out[0] == Usage && out[1].Idle?
      && (forced.Some? ==> out[1].reason == forced.value)
      && (forced.None? ==>
           && (out[1].reason.MaxTurnRequests? <==> r.subtype.ErrorMaxTurns?)
           && (out[1].reason.Refusal? <==> r.subtype.ErrorDuringExecution?)
           && (out[1].reason.MaxTokens? <==> r.subtype.OtherSubtype? && r.hitMaxTokens)
           && (out[1].reason.EndTurn? <==> r.subtype.OtherSubtype? && !r.hitMaxTokens)
           && !out[1].reason.Cancelled?)
  {
  }
}
