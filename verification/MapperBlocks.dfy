/** Streamed blocks across the responses of a run. Every response numbers its
    blocks from zero, and the mapper keeps a block's message id from one response
    to the next: when ids, and the text regrouped under them, belong to one
    streamed block. */
module MapperBlocks {
  import opened Wrappers
  import opened UpdateMapper
  import opened MapperRuns

  predicate StartsResponse(msg: SdkMessage) { msg == Stream(MessageStart) }

  // How many responses have started.
  function Responses(msgs: seq<SdkMessage>): nat {
    if msgs == [] then 0
    else Responses(msgs[..|msgs| - 1]) + (if StartsResponse(msgs[|msgs| - 1]) then 1 else 0)
  }

  // A block of one response, and the kind of text in it.
  datatype Streamed = Streamed(response: nat, kind: Kind, index: nat)

  ghost predicate HasPiece(msgs: seq<SdkMessage>, k: nat) { k < |msgs| && PieceOf(msgs[k]).Some? }

  // The block that the k-th message streams text for.
  ghost function StreamedAt(msgs: seq<SdkMessage>, k: nat): Streamed
    requires HasPiece(msgs, k)
  {
    Streamed(Responses(msgs[..k]), PieceOf(msgs[k]).value.kind, PieceOf(msgs[k]).value.index)
  }

  // The k-th message streams text of this kind at this index.
  ghost predicate StreamsAt(msgs: seq<SdkMessage>, k: nat, kind: Kind, index: nat) {
    HasPiece(msgs, k) && StreamedAt(msgs, k).kind == kind && StreamedAt(msgs, k).index == index
  }

  // ------------------------------------------------------- which blocks have ids

  // The message opens a block of this kind at this index, with text or without,
  // or streams text into one.
  predicate Needs(msg: SdkMessage, kind: Kind, index: nat) {
    msg.Stream?
    && match msg.event
       case BlockStart(i, block) =>
         i == index && (if kind == AgentText then block.Text? || block.ConnectorText?
                        else block.Thinking? || block.RedactedThinking?)
       case BlockDelta(i, d) =>
         i == index && (if kind == AgentText then NonEmpty(d.text)
                        else !NonEmpty(d.text) && (NonEmpty(d.thinking) || NonEmpty(d.data)))
       case _ => false
  }

  lemma NeedsOneMore(s: State, msg: SdkMessage, brief: bool, kind: Kind, index: nat)
    ensures index in BlockIds(MapMessage(s, msg, brief).1, kind) <==>
      index in BlockIds(s, kind) || Needs(msg, kind, index)
  {
    match msg
    case UserReplay(blocks, _) => if blocks.Some? { ReplayShape(s, blocks.value); }
    case _ =>
  }

  // A kind and index has a message id exactly if some message of the run opened
  // such a block or streamed text into one.
  lemma {:induction false} IdsGivenExactly(s: State, msgs: seq<SdkMessage>, brief: bool, kind: Kind, index: nat)
    ensures index in BlockIds(After(s, msgs, brief), kind) <==>
      index in BlockIds(s, kind) || exists k :: 0 <= k < |msgs| && Needs(msgs[k], kind, index)
    decreases |msgs|
  {
    if msgs != [] {
      var rest := msgs[1..];
      NeedsOneMore(s, msgs[0], brief, kind, index);
      IdsGivenExactly(MapMessage(s, msgs[0], brief).1, rest, brief, kind, index);
      assert forall k :: 0 <= k < |rest| ==> rest[k] == msgs[k + 1];
      assert forall k :: 0 < k < |msgs| ==> msgs[k] == rest[k - 1];
    }
  }

  // ----------------------------------------------------------------------- ids

  // No two responses stream text of one kind at one index.
  ghost predicate IndexesApart(msgs: seq<SdkMessage>) {
    forall kind: Kind, index: nat, j: nat, k: nat ::
      StreamsAt(msgs, j, kind, index) && StreamsAt(msgs, k, kind, index) ==>
        StreamedAt(msgs, j).response == StreamedAt(msgs, k).response
  }

  // What the j-th and the k-th message give carries one message id.
  ghost predicate ShareId(msgs: seq<SdkMessage>, brief: bool, j: nat, k: nat) {
    var out := Outputs(FRESH, msgs, brief);
    && j < |out| && k < |out| && |out[j]| == 1 && |out[k]| == 1 && out[j][0].HasId() && out[k][0].HasId()
    && out[j][0].id.Text() == out[k][0].id.Text()
  }

  // Chunks share an id exactly if they belong to one streamed block.
  ghost predicate IdsSeparate(msgs: seq<SdkMessage>, brief: bool) {
    forall j: nat, k: nat :: HasPiece(msgs, j) && HasPiece(msgs, k) ==>
      (ShareId(msgs, brief, j, k) <==> StreamedAt(msgs, j) == StreamedAt(msgs, k))
  }

  lemma SharedExactly(msgs: seq<SdkMessage>, brief: bool, j: nat, k: nat)
    requires HasPiece(msgs, j) && HasPiece(msgs, k)
    ensures ShareId(msgs, brief, j, k) <==> StreamsAt(msgs, k, StreamedAt(msgs, j).kind, StreamedAt(msgs, j).index)
  {
    ChunksShareIds(msgs, brief, j, k);
  }

  // Message ids tell streamed blocks apart exactly in the runs where no two
  // responses stream text of one kind at one index.
  lemma {:induction false} IdsSeparateExactly(msgs: seq<SdkMessage>, brief: bool)
    ensures IdsSeparate(msgs, brief) <==> IndexesApart(msgs)
  {
    forall j: nat, k: nat | HasPiece(msgs, j) && HasPiece(msgs, k)
      ensures ShareId(msgs, brief, j, k) <==> StreamsAt(msgs, k, StreamedAt(msgs, j).kind, StreamedAt(msgs, j).index)
    {
      SharedExactly(msgs, brief, j, k);
    }
  }

  // ---------------------------------------------------------------------- text

  ghost function PieceFor(msgs: seq<SdkMessage>, k: nat, block: Streamed): string {
    if HasPiece(msgs, k) && StreamedAt(msgs, k) == block then PieceOf(msgs[k]).value.text else ""
  }

  // The text streamed for one block of one response, in order.
  ghost function StreamedText(msgs: seq<SdkMessage>, block: Streamed): string {
    if msgs == [] then ""
    else StreamedText(msgs[..|msgs| - 1], block) + PieceFor(msgs, |msgs| - 1, block)
  }

  // Whatever is streamed at the block's index is streamed by its response.
  ghost predicate OnlyThere(msgs: seq<SdkMessage>, block: Streamed) {
    forall k: nat :: StreamsAt(msgs, k, block.kind, block.index) ==> StreamedAt(msgs, k).response == block.response
  }

  lemma {:induction false} BlockTextOneMore(msgs: seq<SdkMessage>, msg: SdkMessage, kind: Kind, index: nat)
    ensures BlockText(msgs + [msg], kind, index) == BlockText(msgs, kind, index) + BlockText([msg], kind, index)
  {
    if msgs == [] {
      assert [] + [msg] == [msg];
    } else {
      assert (msgs + [msg])[1..] == msgs[1..] + [msg];
      BlockTextOneMore(msgs[1..], msg, kind, index);
    }
  }

  // What the last message streams is text, and goes to its own block or to
  // another of the same index.
  lemma LastPiece(msgs: seq<SdkMessage>, block: Streamed)
    requires msgs != []
    ensures var last := |msgs| - 1; var piece := BlockText([msgs[last]], block.kind, block.index);
      && (piece != "" <==> StreamsAt(msgs, last, block.kind, block.index))
      && PieceFor(msgs, last, block) ==
         (if HasPiece(msgs, last) && StreamedAt(msgs, last).response == block.response then piece else "")
  {
    assert [msgs[|msgs| - 1]][1..] == [] && BlockText([], block.kind, block.index) == "";
  }

  lemma OnlyThereBefore(msgs: seq<SdkMessage>, block: Streamed)
    requires msgs != []
    ensures var front, last := msgs[..|msgs| - 1], |msgs| - 1;
      OnlyThere(msgs, block) <==>
        && OnlyThere(front, block)
        && (StreamsAt(msgs, last, block.kind, block.index) ==> StreamedAt(msgs, last).response == block.response)
  {
    var front := msgs[..|msgs| - 1];
    forall k: nat | k < |front| ensures msgs[..k] == front[..k] && msgs[k] == front[k] {}
    forall k: nat | StreamsAt(front, k, block.kind, block.index)
      ensures StreamsAt(msgs, k, block.kind, block.index) && StreamedAt(msgs, k) == StreamedAt(front, k)
    {}
  }

  lemma AppendShorter(a: string, b: string, x: string, y: string)
    requires |a| <= |b| && (x == y || x == "")
    ensures |a + x| <= |b + y| && (a + x == b + y <==> a == b && x == y)
  {
    if a + x == b + y {
      assert |x| == |y|;
      assert (a + x)[..|a|] == a && (b + y)[..|b|] == b;
    }
  }

  lemma {:induction false} StreamedNoLonger(msgs: seq<SdkMessage>, block: Streamed)
    ensures |StreamedText(msgs, block)| <= |BlockText(msgs, block.kind, block.index)|
    ensures StreamedText(msgs, block) == BlockText(msgs, block.kind, block.index) <==> OnlyThere(msgs, block)
  {
    if msgs != [] {
      var front, last := msgs[..|msgs| - 1], msgs[|msgs| - 1];
      assert msgs == front + [last];
      StreamedNoLonger(front, block);
      BlockTextOneMore(front, last, block.kind, block.index);
      LastPiece(msgs, block);
      OnlyThereBefore(msgs, block);
      AppendShorter(StreamedText(front, block), BlockText(front, block.kind, block.index),
        PieceFor(msgs, |msgs| - 1, block), BlockText([last], block.kind, block.index));
    }
  }

  // What a client regroups is the text of one streamed block exactly if no other
  // response streamed text of that kind at that index.
  lemma {:induction false} RegroupedIsOneBlock(msgs: seq<SdkMessage>, brief: bool, block: Streamed)
    ensures Regrouped(msgs, brief, block.kind, block.index) == StreamedText(msgs, block) <==> OnlyThere(msgs, block)
  {
    StreamReassembly(msgs, brief, block.kind, block.index);
    StreamedNoLonger(msgs, block);
  }

  // ------------------------------------------------------------ the failing run

  function TextDelta(text: string): SdkMessage { Stream(BlockDelta(0, Delta(Some(text), None, None))) }

  const TWO_RESPONSES := [Stream(MessageStart), TextDelta("a"), Stream(MessageStart), TextDelta("b")]

  lemma TwoResponsesText()
    ensures BlockText(TWO_RESPONSES, AgentText, 0) == "ab"
    ensures Responses(TWO_RESPONSES[..1]) == 1 && Responses(TWO_RESPONSES[..3]) == 2
  {
    var a, b := TextDelta("a"), TextDelta("b");
    var start := Stream(MessageStart);
    assert TWO_RESPONSES[1..] == [a, start, b] && [a, start, b][1..] == [start, b];
    assert [start, b][1..] == [b] && [b][1..] == [];
    assert TWO_RESPONSES[..3][..2] == TWO_RESPONSES[..2] && TWO_RESPONSES[..2][..1] == TWO_RESPONSES[..1];
    assert TWO_RESPONSES[..1][..0] == [];
  }

  // Two responses, each with text in its first block: one message id for both
  // blocks, and the text regrouped under it mixes the two.
  lemma TwoResponsesMix(brief: bool)
    ensures StreamedAt(TWO_RESPONSES, 1) != StreamedAt(TWO_RESPONSES, 3) && ShareId(TWO_RESPONSES, brief, 1, 3)
    ensures Regrouped(TWO_RESPONSES, brief, AgentText, 0) == "ab"
  {
    TwoResponsesText();
    SharedExactly(TWO_RESPONSES, brief, 1, 3);
    StreamReassembly(TWO_RESPONSES, brief, AgentText, 0);
  }
}
