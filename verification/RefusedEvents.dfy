/**
 Runs in which events are refused as well. A refused event may already have changed the reducer, and it is then that a
 partial result is made of it, so this module says what no event can break.
 */
module RefusedEvents {
  import opened Outcomes
  import opened Texts
  import opened Utf8
  import opened JsonSafety
  import opened ChatBlocks
  import opened Reduction
  import opened ReductionSafety
  import opened ReductionTheorems

  // ----- What refused events keep --------------------------------------------------------------------

  /** An open text block is the last block, and no call waits for its result meanwhile. */
  predicate OpenOk(s: State) {
    s.textIndex.Some? ==>
      s.textIndex.value + 1 == |s.blocks| && s.blocks[|s.blocks| - 1].TextBlock? && s.Unresolved() == {}
  }

  /** Canonical blocks with distinct ids, whose texts joined are the text that was streamed. */
  predicate ShownOk(s: State) {
    && BlocksOk(s.blocks) && ValueOk(s.blocks, s.valueParts, s.valueOffset)
    && OpenOk(s) && s.resolved <= s.started
  }

  lemma InvIsShown(s: State)
    requires Inv(s)
    ensures ShownOk(s)
  {
    hide BlocksOk, ValueOk, ToolsOk, RecordsOk, ShapeOk;
  }

  lemma OpenedShows(s: State, mint: Mint)
    requires ShownOk(s) && IsFresh(mint, s.blocks) && s.Unresolved() == {}
    ensures ShownOk(Opened(s, mint)) && Opened(s, mint).textIndex.Some?
  {
    hide IsCanonical, Joined, Utf16Length, BlocksOk, Streamed;
    if s.textIndex.None? {
      var b := TextBlock(mint.id, "", Streaming, mint.timestamp);
      AppendedBlocksOk(s.blocks, b);
      StreamedNext(s.blocks, b);
      assert Streamed(s.blocks) + "" == Streamed(s.blocks);
    }
  }

  lemma GrownShows(o: State, content: string, b: ChatBlock)
    requires ShownOk(o) && o.textIndex.Some?
    requires AppendTextBlock(o.blocks[o.textIndex.value], content, None) == Some(b)
    ensures ShownOk(Grown(o, content, b))
  {
    hide IsCanonical, Joined, Utf16Length, BlocksOk, Streamed;
    var i := |o.blocks| - 1;
    AppendedIsCanonical(o.blocks[i], content);
    JoinedNext(o.valueParts, content);
    Utf16LengthAdds(Joined(o.valueParts), content);
    ChangedBlocksOk(o.blocks, i, b);
    StreamedGrows(o.blocks, b, content);
  }

  lemma DeltaShows(s: State, content: string, mint: Mint)
    requires ShownOk(s) && IsFresh(mint, s.blocks) && IsMint(mint)
    ensures ShownOk(AcceptDelta(s, content, mint).0)
  {
    hide ShownOk, Grown, AppendTextBlock, IsMint, IsFresh, Utf16Length;
    if content != "" && s.Unresolved() == {} {
      OpenedShows(s, mint);
      var o := Opened(s, mint);
      OpenIsTheLast(o);
      var appended := AppendTextBlock(o.blocks[o.textIndex.value], content, None);
      if appended.Some? {
        GrownShows(o, content, appended.value);
      }
    }
  }

  lemma OpenIsTheLast(s: State)
    requires ShownOk(s) && s.textIndex.Some?
    ensures s.textIndex.value < |s.blocks|
  {
    hide BlocksOk, ValueOk;
  }

  lemma EndedShows(s: State)
    requires ShownOk(s) && Ended(s).Some?
    ensures ShownOk(Ended(s).value.0) && Ended(s).value.0.textIndex.None?
  {
    hide IsCanonical, Joined, Utf16Length, BlocksOk, Streamed;
    if s.textIndex.Some? {
      var i := s.textIndex.value;
      var b := Ended(s).value.0.blocks[i];
      assert s.blocks[i].content + "" == s.blocks[i].content;
      ChangedBlocksOk(s.blocks, i, b);
      StreamedSame(s.blocks, i, b);
    }
  }

  /** Beside blocks and text, everything may change while no text block is open. */
  lemma NothingShownChanges(s: State, t: State)
    requires ShownOk(s) && s.textIndex.None?
    requires t.blocks == s.blocks && t.valueParts == s.valueParts && t.valueOffset == s.valueOffset
    requires t.textIndex.None? && t.resolved == s.resolved && s.started <= t.started
    ensures ShownOk(t)
  {
    hide BlocksOk, ValueOk;
  }

  lemma AssistantShows(s: State, m: AssistantMessage)
    requires ShownOk(s)
    ensures ShownOk(AcceptAssistant(s, m).0)
  {
    hide ShownOk, Ended, VisibleText, Joined, AllCopy, DeclaredAll, WrittenAssistant;
    if Ended(s).Some? {
      EndedShows(s);
      var e := Ended(s).value.0;
      var t := AcceptAssistant(s, m).0;
      if t != s {
        NothingShownChanges(e, t);
      }
    }
  }

  lemma ToolStartShows(s: State, call: ToolCall, mint: Mint)
    requires ShownOk(s) && IsFresh(mint, s.blocks)
    ensures ShownOk(AcceptToolStart(s, call, mint).0)
  {
    hide IsCanonical, Joined, Utf16Length, BlocksOk, Streamed, IsMint;
    if call.id in s.declared && call.id !in s.started {
      assert call.id in s.Unresolved();
      var block := CreateToolBlock(call, mint.id, mint.timestamp);
      if block.Some? {
        AppendedBlocksOk(s.blocks, block.value);
        StreamedNext(s.blocks, block.value);
        assert Streamed(s.blocks) + "" == Streamed(s.blocks);
      }
    }
  }

  lemma ToolResultShows(s: State, call: ToolCall, r: ToolResult)
    requires ShownOk(s)
    ensures ShownOk(AcceptToolResult(s, call, r).0)
  {
    hide IsCanonical, Joined, Utf16Length, BlocksOk, Streamed, WrittenResult, CollectedSources, CollectedReason;
    if AcceptToolResult(s, call, r).1.Some? {
      assert call.id in s.Unresolved();
      var i := s.toolIndexes[call.id];
      var b := ApplyToolResult(s.blocks[i], r).value;
      ChangedBlocksOk(s.blocks, i, b);
      StreamedSame(s.blocks, i, b);
    }
  }

  /** Accepted or refused, no event breaks the agreement of the blocks with the text. */
  lemma AcceptShows(s: State, event: Event, mint: Mint)
    requires ShownOk(s) && IsFresh(mint, s.blocks) && IsMint(mint)
    ensures ShownOk(Accept(s, event, mint).0)
  {
    hide ShownOk, IsFresh, IsMint, AcceptDelta, AcceptAssistant, AcceptToolStart, AcceptToolResult;
    match event
    case TextDelta(content) => DeltaShows(s, content, mint);
    case AssistantSaid(message) => AssistantShows(s, message);
    case ToolStarted(call) => ToolStartShows(s, call, mint);
    case ToolAnswered(call, result) => ToolResultShows(s, call, result);
  }

  // ----- Runs with refused events --------------------------------------------------------------------

  /** The reducer after any events, each accepted or refused; minted ids never repeat an id in use. */
  function After(s: State, arrivals: seq<Arrival>): Option<State>
    decreases |arrivals|
  {
    if arrivals == [] then Some(s)
    else if !IsFresh(arrivals[0].mint, s.blocks) then None
    else After(Accept(s, arrivals[0].event, arrivals[0].mint).0, arrivals[1..])
  }

  lemma {:induction false} RunIsAfter(s: State, arrivals: seq<Arrival>)
    requires Run(s, arrivals).Some?
    ensures After(s, arrivals) == Some(Run(s, arrivals).value.0)
    decreases |arrivals|
  {
    hide Accept, IsFresh;
    if arrivals != [] {
      FreshIsMint(arrivals[0].mint, s.blocks);
      RunIsAfter(Accept(s, arrivals[0].event, arrivals[0].mint).0, arrivals[1..]);
    }
  }

  lemma {:induction false} AfterShows(s: State, arrivals: seq<Arrival>)
    requires ShownOk(s) && After(s, arrivals).Some?
    ensures ShownOk(After(s, arrivals).value)
    decreases |arrivals|
  {
    hide ShownOk, Accept, IsFresh;
    if arrivals != [] {
      FreshIsMint(arrivals[0].mint, s.blocks);
      AcceptShows(s, arrivals[0].event, arrivals[0].mint);
      AfterShows(Accept(s, arrivals[0].event, arrivals[0].mint).0, arrivals[1..]);
    }
  }

  lemma {:induction false} AfterCollects(s: State, arrivals: seq<Arrival>)
    requires CollectedOk(s) && After(s, arrivals).Some?
    ensures CollectedOk(After(s, arrivals).value)
    decreases |arrivals|
  {
    hide CollectedOk, Accept, IsFresh;
    if arrivals != [] {
      FreshIsMint(arrivals[0].mint, s.blocks);
      AcceptKeepsCollected(s, arrivals[0].event, arrivals[0].mint);
      AfterCollects(Accept(s, arrivals[0].event, arrivals[0].mint).0, arrivals[1..]);
    }
  }

  /**
   Of a new reducer, whatever events it accepted or refused since: the blocks are canonical with distinct ids and show
   exactly the streamed text, and what was collected is bounded, safe and rightly attributed.
   */
  lemma AnyRunIsShown(provider: string, model: string, arrivals: seq<Arrival>)
    requires After(Initial(provider, model), arrivals).Some?
    ensures var s := After(Initial(provider, model), arrivals).value;
            && BlocksOk(s.blocks) && Joined(s.valueParts) == Streamed(s.blocks)
            && s.valueOffset == Utf16Length(Streamed(s.blocks))
            && CollectedOk(s)
  {
    hide After, Inv, BlocksOk, Joined, Streamed, Utf16Length;
    InitialIsSafe(provider, model);
    InvIsShown(Initial(provider, model));
    AfterShows(Initial(provider, model), arrivals);
    AfterCollects(Initial(provider, model), arrivals);
  }
}
