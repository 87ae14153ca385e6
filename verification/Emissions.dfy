/** What a client makes of the emissions of a run. */
module Emissions {
  import opened Outcomes
  import opened Texts
  import opened Utf8
  import opened ChatBlocks
  import opened BlockIds
  import opened Reduction
  import opened ReductionSafety
  import opened ReductionTheorems

  // ----- A client ------------------------------------------------------------------------------------

  function IndexOf(blocks: seq<ChatBlock>, id: string): Option<nat> {
    if blocks == [] then None
    else if blocks[0].id == id then Some(0)
    else
      var i :- IndexOf(blocks[1..], id);
      Some(i + 1)
  }

  /** Blocks are created or replaced by id, and chunks are appended at their block offset and nowhere else. */
  function Applied(blocks: seq<ChatBlock>, e: Emission): Option<seq<ChatBlock>> {
    match e
    case Created(block) => Some(Replaced(blocks, block))
    case Updated(block) => Some(Replaced(blocks, block))
    case Chunk(id, blockOffset, _, content) =>
      var i :- IndexOf(blocks, id);
      if i >= |blocks| || !blocks[i].TextBlock? || Utf16Length(blocks[i].content) != blockOffset then None
      else Some(blocks[i := TextBlock(id, blocks[i].content + content, blocks[i].status, blocks[i].timestamp)])
  }

  function Replaced(blocks: seq<ChatBlock>, block: ChatBlock): seq<ChatBlock> {
    match IndexOf(blocks, block.id)
    case None => blocks + [block]
    case Some(i) => if i < |blocks| then blocks[i := block] else blocks
  }

  function Replayed(blocks: seq<ChatBlock>, emissions: seq<Emission>): Option<seq<ChatBlock>>
    decreases |emissions|
  {
    if emissions == [] then Some(blocks)
    else
      var next :- Applied(blocks, emissions[0]);
      Replayed(next, emissions[1..])
  }

  lemma {:induction false} IndexIs(blocks: seq<ChatBlock>, i: nat)
    requires i < |blocks| && forall j :: 0 <= j < i ==> blocks[j].id != blocks[i].id
    ensures IndexOf(blocks, blocks[i].id) == Some(i)
  {
    if i > 0 {
      IndexIs(blocks[1..], i - 1);
    }
  }

  lemma {:induction false} IndexIsNone(blocks: seq<ChatBlock>, id: string)
    requires forall i :: 0 <= i < |blocks| ==> blocks[i].id != id
    ensures IndexOf(blocks, id) == None
  {
    if blocks != [] {
      IndexIsNone(blocks[1..], id);
    }
  }

  lemma {:induction false} ReplayedAdds(blocks: seq<ChatBlock>, a: seq<Emission>, b: seq<Emission>)
    requires Replayed(blocks, a).Some?
    ensures Replayed(blocks, a + b) == Replayed(Replayed(blocks, a).value, b)
    decreases |a|
  {
    hide Applied;
    if a == [] {
      assert a + b == b;
    } else {
      assert (a + b)[1..] == a[1..] + b;
      ReplayedAdds(Applied(blocks, a[0]).value, a[1..], b);
    }
  }

  lemma ReplayedOne(blocks: seq<ChatBlock>, e: Emission)
    ensures Replayed(blocks, [e]) == Applied(blocks, e)
  {
    hide Applied;
    assert [e][1..] == [];
  }

  lemma IdsDiffer(s: State)
    requires Inv(s)
    ensures forall i, j :: 0 <= i < j < |s.blocks| ==> s.blocks[i].id != s.blocks[j].id
    ensures forall i :: 0 <= i < |s.blocks| ==> IsCanonical(s.blocks[i])
  {
    hide TextOk, ValueOk, CallsOk, ToolsOk, RecordsOk, ShapeOk, IsCanonical;
  }

  /** The open text block, its offset in UTF-16 code units, and that of the whole text. */
  lemma OpenText(s: State)
    requires Inv(s) && s.textIndex.Some?
    ensures s.textIndex.value + 1 == |s.blocks| && s.blocks[|s.blocks| - 1].TextBlock?
    ensures s.textOffset == Utf16Length(s.blocks[|s.blocks| - 1].content)
  {
    hide BlocksOk, ValueOk, CallsOk, ToolsOk, RecordsOk, ShapeOk, Joined;
  }

  lemma OpeningReplays(s: State, mint: Mint)
    requires Inv(s) && IsFresh(mint, s.blocks)
    ensures Replayed(s.blocks, OpeningEmissions(s, mint)) == Some(Opened(s, mint).blocks)
  {
    hide Inv, IsMint;
    if s.textIndex.None? {
      var b := TextBlock(mint.id, "", Streaming, mint.timestamp);
      IndexIsNone(s.blocks, mint.id);
      ReplayedOne(s.blocks, Created(b));
    }
  }

  lemma DeltaReplays(s: State, content: string, mint: Mint)
    requires Inv(s) && IsMint(mint) && IsFresh(mint, s.blocks) && AcceptDelta(s, content, mint).1.Some?
    ensures Replayed(s.blocks, AcceptDelta(s, content, mint).1.value) == Some(AcceptDelta(s, content, mint).0.blocks)
  {
    hide Inv, Opened, OpeningEmissions, IsMint, IsFresh, IsCanonical, Utf16Length, Replayed, AcceptDelta;
    DeltaIs(s, content, mint);
    if content == "" {
      ReplayedNone(s.blocks);
    } else {
      var o := Opened(s, mint);
      OpenedKeeps(s, mint);
      OpenText(o);
      IdsDiffer(o);
      var i := o.textIndex.value;
      var b := AppendTextBlock(o.blocks[i], content, None).value;
      IndexIs(o.blocks, i);
      OpeningReplays(s, mint);
      var chunk := Chunk(b.id, o.textOffset, o.valueOffset, content);
      ReplayedOne(o.blocks, chunk);
      ReplayedAdds(s.blocks, OpeningEmissions(s, mint), [chunk]);
    }
  }

  lemma ReplayedNone(blocks: seq<ChatBlock>)
    ensures Replayed(blocks, []) == Some(blocks)
  {
  }

  lemma ChangeReplays(s: State, i: nat, b: ChatBlock)
    requires Inv(s) && i < |s.blocks| && b.id == s.blocks[i].id
    ensures Replayed(s.blocks, [Updated(b)]) == Some(s.blocks[i := b])
  {
    hide Inv, IsCanonical, Replayed;
    IdsDiffer(s);
    IndexIs(s.blocks, i);
    ReplayedOne(s.blocks, Updated(b));
  }

  lemma AssistantReplays(s: State, m: AssistantMessage)
    requires Inv(s) && AcceptAssistant(s, m).1.Some?
    ensures Replayed(s.blocks, AcceptAssistant(s, m).1.value) == Some(AcceptAssistant(s, m).0.blocks)
  {
    hide Inv, IsCanonical, VisibleText, Joined, AllCopy, DeclaredAll, WrittenAssistant, Replayed;
    if s.textIndex.None? {
      ReplayedNone(s.blocks);
    } else {
      var i := s.textIndex.value;
      var b := AppendTextBlock(s.blocks[i], "", Some(BlockStatus.Done)).value;
      ChangeReplays(s, i, b);
    }
  }

  lemma ToolStartReplays(s: State, call: ToolCall, mint: Mint)
    requires Inv(s) && IsFresh(mint, s.blocks) && AcceptToolStart(s, call, mint).1.Some?
    ensures Replayed(s.blocks, AcceptToolStart(s, call, mint).1.value)
            == Some(AcceptToolStart(s, call, mint).0.blocks)
  {
    hide Inv, IsCanonical, Replayed, IsMint;
    var b := CreateToolBlock(call, mint.id, mint.timestamp).value;
    IndexIsNone(s.blocks, mint.id);
    ReplayedOne(s.blocks, Created(b));
  }

  lemma ResultReplays(s: State, call: ToolCall, r: ToolResult)
    requires Inv(s) && AcceptToolResult(s, call, r).1.Some?
    ensures Replayed(s.blocks, AcceptToolResult(s, call, r).1.value)
            == Some(AcceptToolResult(s, call, r).0.blocks)
  {
    hide Inv, IsCanonical, Replayed, CollectedSources, CollectedReason, WrittenResult;
    var i := s.toolIndexes[call.id];
    ChangeReplays(s, i, ApplyToolResult(s.blocks[i], r).value);
  }

  lemma AcceptReplays(s: State, event: Event, mint: Mint)
    requires Inv(s) && IsMint(mint) && IsFresh(mint, s.blocks) && Accept(s, event, mint).1.Some?
    ensures Replayed(s.blocks, Accept(s, event, mint).1.value) == Some(Accept(s, event, mint).0.blocks)
  {
    hide Inv, IsFresh, IsMint, AcceptDelta, AcceptAssistant, AcceptToolStart, AcceptToolResult, Replayed;
    match event
    case TextDelta(content) => DeltaReplays(s, content, mint);
    case AssistantSaid(message) => AssistantReplays(s, message);
    case ToolStarted(call) => ToolStartReplays(s, call, mint);
    case ToolAnswered(call, result) => ResultReplays(s, call, result);
  }

  /** The emissions of a run of accepted events rebuild exactly the blocks of the reducer. */
  lemma {:induction false} RunReplays(s: State, arrivals: seq<Arrival>)
    requires Inv(s) && Run(s, arrivals).Some?
    ensures Replayed(s.blocks, Run(s, arrivals).value.1) == Some(Run(s, arrivals).value.0.blocks)
    decreases |arrivals|
  {
    hide Inv, Accept, IsFresh, Replayed;
    if arrivals == [] {
      ReplayedNone(s.blocks);
    } else {
      var (event, mint) := (arrivals[0].event, arrivals[0].mint);
      ReductionTheorems.FreshIsMint(mint, s.blocks);
      AcceptKeeps(s, event, mint);
      AcceptReplays(s, event, mint);
      var (next, accepted) := Accept(s, event, mint);
      RunReplays(next, arrivals[1..]);
      ReplayedAdds(s.blocks, accepted.value, Run(next, arrivals[1..]).value.1);
    }
  }
}
