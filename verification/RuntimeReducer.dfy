/** The reducer object: its methods change its fields in place, and do to them what `Reduction` says. */
module RuntimeReducer {
  import opened Outcomes
  import opened Texts
  import opened Utf8
  import opened JsonSafety
  import opened ChatBlocks
  import opened MessageChain
  import opened Reduction
  import opened ReductionSafety
  import opened ReductionTheorems
  import opened RunRecords
  import opened Emissions
  import opened PartialResults

  class RuntimeEventReducer {
    const provider: string
    const model: string
    var messagesChain: seq<Message>
    var blocks: seq<ChatBlock>
    var compactions: seq<Compaction>
    var sources: seq<Json>
    var terminationReason: Option<string>
    var declared: map<string, ToolCall>
    var started: set<string>
    var resolved: set<string>
    var toolBlockIndexes: map<string, nat>
    var textBlockIndex: Option<nat>
    var pendingDeltas: seq<string>
    var valueParts: seq<string>
    var valueOffset: nat
    var textBlockOffset: nat

    function Contents(): State
      reads this
    {
      State(provider, model, messagesChain, blocks, compactions, sources, terminationReason, declared, started,
            resolved, toolBlockIndexes, textBlockIndex, pendingDeltas, valueParts, valueOffset, textBlockOffset)
    }

    constructor (provider: string, model: string)
      ensures Contents() == Initial(provider, model) && Inv(Contents())
    {
      this.provider, this.model := provider, model;
      messagesChain, blocks, compactions, sources, terminationReason := [], [], [], [], None;
      declared, started, resolved, toolBlockIndexes, textBlockIndex := map[], {}, {}, map[], None;
      pendingDeltas, valueParts, valueOffset, textBlockOffset := [], [], 0, 0;
      new;
      InitialIsSafe(provider, model);
    }

    predicate HasUnresolvedCalls()
      reads this
    {
      declared.Keys - resolved != {}
    }

    method Accept(event: Event, mint: Mint) returns (emissions: Option<seq<Emission>>)
      requires IsMint(mint)
      modifies this
      ensures (Contents(), emissions) == Reduction.Accept(old(Contents()), event, mint)
    {
      hide IsMint, AcceptDelta, Reduction.AcceptAssistant, Reduction.AcceptToolStart, Reduction.AcceptToolResult;
      match event
      case TextDelta(content) => emissions := this.AcceptTextDelta(content, mint);
      case AssistantSaid(message) => emissions := this.AcceptAssistantMessage(message);
      case ToolStarted(call) => emissions := this.AcceptStart(call, mint);
      case ToolAnswered(call, result) => emissions := this.AcceptResult(call, result);
    }

    method OpenTextBlock(mint: Mint) returns (created: seq<Emission>)
      modifies this`textBlockIndex, this`textBlockOffset, this`blocks
      ensures Contents() == Opened(old(Contents()), mint)
      ensures created == OpeningEmissions(old(Contents()), mint)
    {
      if textBlockIndex.Some? {
        return [];
      }
      textBlockIndex, textBlockOffset := Some(|blocks|), 0;
      var block := TextBlock(mint.id, "", Streaming, mint.timestamp);
      blocks := blocks + [block];
      created := [Created(block)];
    }

    method GrowTextBlock(content: string) returns (chunk: Option<Emission>)
      requires textBlockIndex.Some?
      modifies this`blocks, this`pendingDeltas, this`valueParts, this`textBlockOffset, this`valueOffset
      ensures chunk.None? ==>
                && Contents() == old(Contents())
                && (textBlockIndex.value >= |blocks|
                    || AppendTextBlock(blocks[textBlockIndex.value], content, None).None?)
      ensures chunk.Some? ==>
                && textBlockIndex == old(textBlockIndex) && textBlockIndex.value < |old(blocks)|
                && var b := AppendTextBlock(old(blocks)[textBlockIndex.value], content, None);
                   && b.Some? && Contents() == Grown(old(Contents()), content, b.value)
                   && chunk.value == Chunk(b.value.id, old(textBlockOffset), old(valueOffset), content)
    {
      hide Utf16Length, AppendTextBlock;
      if textBlockIndex.value >= |blocks| {
        return None;
      }
      var updated := AppendTextBlock(blocks[textBlockIndex.value], content, None);
      if updated.None? {
        return None;
      }
      var blockOffset, offset := textBlockOffset, valueOffset;
      blocks := blocks[textBlockIndex.value := updated.value];
      pendingDeltas := pendingDeltas + [content];
      valueParts := valueParts + [content];
      textBlockOffset := blockOffset + Utf16Length(content);
      valueOffset := offset + Utf16Length(content);
      chunk := Some(Chunk(updated.value.id, blockOffset, offset, content));
    }

    method AcceptTextDelta(content: string, mint: Mint) returns (emissions: Option<seq<Emission>>)
      requires IsMint(mint)
      modifies this
      ensures (Contents(), emissions) == AcceptDelta(old(Contents()), content, mint)
    {
      hide Utf16Length, AppendTextBlock, IsMint, Grown, OpeningEmissions;
      if content == "" {
        return Some([]);
      }
      if HasUnresolvedCalls() {
        return None;
      }
      var created := OpenTextBlock(mint);
      var chunk := GrowTextBlock(content);
      emissions := if chunk.None? then None else Some(created + [chunk.value]);
    }

    method EndTextBlock() returns (done: Option<seq<Emission>>)
      modifies this`blocks, this`textBlockIndex, this`textBlockOffset, this`pendingDeltas
      ensures done.None? ==> Contents() == old(Contents()) && Ended(old(Contents())).None?
      ensures done.Some? ==> Ended(old(Contents())) == Some((Contents(), done.value))
    {
      hide AppendTextBlock;
      done := Some([]);
      if textBlockIndex.Some? {
        if textBlockIndex.value >= |blocks| {
          return None;
        }
        var completed := AppendTextBlock(blocks[textBlockIndex.value], "", Some(Done));
        if completed.None? {
          return None;
        }
        blocks := blocks[textBlockIndex.value := completed.value];
        done := Some([Updated(completed.value)]);
      }
      textBlockIndex, textBlockOffset, pendingDeltas := None, 0, [];
    }

    method AcceptAssistantMessage(m: AssistantMessage) returns (emissions: Option<seq<Emission>>)
      modifies this
      ensures (Contents(), emissions) == Reduction.AcceptAssistant(old(Contents()), m)
    {
      hide Ended, VisibleText, Joined, WrittenAssistant, DeclaredAll, AllCopy;
      if HasUnresolvedCalls() || VisibleText(m.content) != Some(Joined(pendingDeltas)) {
        return None;
      }
      var done := EndTextBlock();
      if done.None? {
        return None;
      }
      if !(m.provider in {None, Some(provider)} && m.model in {None, Some(model)}) || !AllCopy(m.toolCalls) {
        return None;
      }
      var fine := DeclareCalls(m.toolCalls);
      if !fine {
        return None;
      }
      assert compactions + [] == compactions;
      messagesChain := messagesChain + [WrittenAssistant(m, provider, model)];
      if m.compacted || m.summaryCompacted || m.version.Some? {
        compactions := compactions
        + [Compaction(|messagesChain| - 1, m.compacted, m.summaryCompacted, m.version)];
      }
      emissions := done;
    }

    /** The loop that declares the calls of a message; what it declared before a duplicate stays declared. */
    method DeclareCalls(calls: seq<ToolCall>) returns (fine: bool)
      modifies this`declared
      ensures (declared, fine) == DeclaredAll(old(declared), calls)
    {
      for i := 0 to |calls|
        invariant DeclaredAll(old(declared), calls[..i]) == (declared, true)
      {
        assert calls[..i + 1][..i] == calls[..i];
        if calls[i].id in declared {
          assert DeclaredAll(old(declared), calls[..i + 1]) == (declared, false);
          DuplicateStops(old(declared), calls, i + 1);
          return false;
        }
        declared := declared[calls[i].id := calls[i]];
      }
      assert calls[..|calls|] == calls;
      fine := true;
    }

    method AcceptStart(call: ToolCall, mint: Mint) returns (emissions: Option<seq<Emission>>)
      modifies this
      ensures (Contents(), emissions) == AcceptToolStart(old(Contents()), call, mint)
    {
      hide CreateToolBlock;
      if call.id !in declared || call.id in started || declared[call.id] != call {
        return None;
      }
      started := started + {call.id};
      var block := CreateToolBlock(call, mint.id, mint.timestamp);
      if block.None? {
        return None;
      }
      toolBlockIndexes := toolBlockIndexes[call.id := |blocks|];
      blocks := blocks + [block.value];
      emissions := Some([Created(block.value)]);
    }

    method AcceptResult(call: ToolCall, result: ToolResult) returns (emissions: Option<seq<Emission>>)
      modifies this
      ensures (Contents(), emissions) == AcceptToolResult(old(Contents()), call, result)
    {
      hide ApplyToolResult, WrittenResult, CollectedSources, CollectedReason;
      if call.id !in declared || call.id !in started || call.id in resolved {
        return None;
      }
      if declared[call.id] != call || result.callId != call.id {
        return None;
      }
      if call.id !in toolBlockIndexes || toolBlockIndexes[call.id] >= |blocks| {
        return None;
      }
      var index := toolBlockIndexes[call.id];
      var completed := ApplyToolResult(blocks[index], result);
      if completed.None? {
        return None;
      }
      blocks := blocks[index := completed.value];
      resolved := resolved + {call.id};
      messagesChain := messagesChain + [WrittenResult(call, result)];
      sources := CollectedSources(sources, result.metadata);
      terminationReason := CollectedReason(terminationReason, result.metadata);
      emissions := Some([Updated(completed.value)]);
    }

    method FinishSuccess() returns (result: Option<Envelope>)
      ensures result == Reduction.Finished(Contents())
      ensures result.Some? ==>
                && pendingDeltas == [] && (forall id :: id in declared ==> id in resolved)
                && IsFinalAnswer(messagesChain, result.value.value)
                && result.value.chain == Validated(messagesChain) && result.value.blocks == blocks
                && result.value.compactions == compactions && result.value.sources == sources
                && result.value.termination == terminationReason
    {
      hide TerminalAnswer, EnvelopeJson, Safe, Validated;
      var answer := TerminalAnswer(Contents());
      AnswerIsFinal(Contents());
      if answer.None? || pendingDeltas != [] || HasUnresolvedCalls() {
        return None;
      }
      forall id | id in declared
        ensures id in resolved
      {
        assert id !in declared.Keys - resolved;
      }
      if exists i :: 0 <= i < |blocks| && blocks[i].ToolBlock? && !IsTerminal(blocks[i]) {
        return None;
      }
      var chain := ValidateMessagesChain(messagesChain);
      if chain.None? {
        return None;
      }
      ValidatedIsChain(messagesChain);
      var envelope := Envelope(answer.value, chain, blocks, compactions, sources, terminationReason);
      result := if Safe(EnvelopeJson(envelope)) then Some(envelope) else None;
    }

    /** The blocks of `_terminal_partial_blocks`, and then the loop that drops blocks until the envelope validates. */
    method Partial() returns (result: Option<Envelope>)
      ensures result == PartialResult(Contents())
    {
      hide Closed, Joined, Holds;
      var closed := CloseAll();
      if closed.None? {
        return None;
      }
      var value, kept := Cut(Joined(valueParts)), closed.value;
      while !Holds(value, kept)
        invariant Trimmed(value, kept) == Trimmed(value, closed.value)
        decreases |kept|
      {
        if kept == [] {
          return Some(PartialResults.Partial("", []));
        }
        kept := kept[..|kept| - 1];
      }
      result := Some(PartialResults.Partial(value, kept));
    }

    method CloseAll() returns (closed: Option<seq<ChatBlock>>)
      ensures closed == ClosedAll(blocks)
    {
      hide Closed;
      var terminal: seq<ChatBlock> := [];
      for i := 0 to |blocks|
        invariant ClosedAll(blocks[..i]) == Some(terminal)
      {
        assert blocks[..i + 1][..i] == blocks[..i];
        var block := Closed(blocks[i]);
        if block.None? {
          RaisingStops(blocks, i + 1);
          return None;
        }
        terminal := terminal + [block.value];
      }
      assert blocks[..|blocks|] == blocks;
      closed := Some(terminal);
    }
  }

  lemma {:induction false} DuplicateStops(declared: map<string, ToolCall>, calls: seq<ToolCall>, n: nat)
    requires n <= |calls| && !DeclaredAll(declared, calls[..n]).1
    ensures DeclaredAll(declared, calls) == DeclaredAll(declared, calls[..n])
  {
    if n == |calls| {
      assert calls[..n] == calls;
    } else {
      var init := calls[..|calls| - 1];
      assert init[..n] == calls[..n];
      DuplicateStops(declared, init, n);
    }
  }

  lemma {:induction false} RaisingStops(blocks: seq<ChatBlock>, n: nat)
    requires n <= |blocks| && ClosedAll(blocks[..n]).None?
    ensures ClosedAll(blocks).None?
  {
    hide Closed;
    if n == |blocks| {
      assert blocks[..n] == blocks;
    } else {
      var init := blocks[..|blocks| - 1];
      assert init[..n] == blocks[..n];
      RaisingStops(init, n);
    }
  }

  /** The last message is an assistant's, without calls, and this is its text, of which something is visible. */
  predicate IsFinalAnswer(chain: seq<Message>, answer: string) {
    && chain != []
    && var last := chain[|chain| - 1];
       && last.Message? && last.role == AssistantRole && (last.toolCalls.Given? ==> last.toolCalls.value == [])
       && VisibleText(last.content) == Some(answer) && !IsBlank(answer)
  }

  lemma AnswerIsFinal(s: State)
    ensures TerminalAnswer(s).Some? ==> IsFinalAnswer(s.chain, TerminalAnswer(s).value)
  {
    hide VisibleText, IsBlank;
  }

  // ----- Whole runs ----------------------------------------------------------------------------------

  /** Everything that the events of a run said: messages, text, markers, sources, reason, and every single result. */
  predicate IsRecordOf(end: State, arrivals: seq<Arrival>, provider: string, model: string) {
    && Recorded([], end.chain, Spoken(arrivals), provider, model)
    && Joined(end.valueParts) == Deltas(arrivals)
    && end.compactions == Marked(Spoken(arrivals), 0)
    && end.sources == FirstTwenty(AllOffered(arrivals))
    && end.termination == LastReason(arrivals, None)
    && forall k :: 0 <= k < |arrivals| && arrivals[k].event.ToolAnswered? ==>
         IsOnRecord(end, arrivals[k].event.call, arrivals[k].event.result)
  }

  lemma WholeRunIsRecorded(provider: string, model: string, arrivals: seq<Arrival>)
    requires Run(Initial(provider, model), arrivals).Some?
    ensures IsRecordOf(Run(Initial(provider, model), arrivals).value.0, arrivals, provider, model)
  {
    hide Run, Recorded, Spoken, Deltas, Marked, FirstTwenty, AllOffered, LastReason, IsOnRecord;
    var s := Initial(provider, model);
    ChainIsTheRun(s, arrivals);
    TextIsTheRun(s, arrivals);
    NothingJoined();
    assert "" + Deltas(arrivals) == Deltas(arrivals);
    CompactionsAreTheRun(s, arrivals);
    assert [] + Marked(Spoken(arrivals), 0) == Marked(Spoken(arrivals), 0);
    SourcesAreTheRun(s, arrivals);
    assert [] + AllOffered(arrivals) == AllOffered(arrivals);
    ReasonIsTheRun(s, arrivals);
    forall k | 0 <= k < |arrivals| && arrivals[k].event.ToolAnswered?
      ensures IsOnRecord(Run(s, arrivals).value.0, arrivals[k].event.call, arrivals[k].event.result)
    {
      var a := arrivals[k];
      assert arrivals == arrivals[..k] + [Arrival(ToolAnswered(a.event.call, a.event.result), a.mint)]
                         + arrivals[k + 1..];
      ResultIsOnRecord(provider, model, arrivals[..k], a.event.call, a.event.result, a.mint, arrivals[k + 1..]);
    }
  }

  /**
   From a new reducer: what the events said is on record; a client that replays the emissions has the blocks; and when
   `finish_success` passes its checks, the chain validates within the limits and every call is answered once.
   */
  lemma WholeRun(provider: string, model: string, arrivals: seq<Arrival>)
    requires Run(Initial(provider, model), arrivals).Some?
    ensures var (end, emissions) := Run(Initial(provider, model), arrivals).value;
            && Inv(end) && IsRecordOf(end, arrivals, provider, model)
            && Replayed([], emissions) == Some(end.blocks)
            && (MayFinish(end) ==>
                  && (Validated(end.chain) == if ChainFits(end) then Some(end.chain) else None)
                  && forall id :: id in end.declared ==> IsAnsweredOnce(end, id))
  {
    hide Inv, Run, Replayed, MayFinish, Validated, ChainFits, IsAnsweredOnce, IsRecordOf;
    InitialIsSafe(provider, model);
    WholeRunIsRecorded(provider, model, arrivals);
    RunKeeps(Initial(provider, model), arrivals);
    RunReplays(Initial(provider, model), arrivals);
    var end := Run(Initial(provider, model), arrivals).value.0;
    if MayFinish(end) {
      FinishedChainValidates(end);
      forall id | id in end.declared
        ensures IsAnsweredOnce(end, id)
      {
        AllAreResolved(end, id);
        OneMessageOneBlock(end, id);
      }
    }
  }

  lemma AllAreResolved(s: State, id: string)
    requires MayFinish(s) && id in s.declared
    ensures id in s.resolved
  {
    hide TerminalAnswer;
    assert id !in s.Unresolved();
  }
}
