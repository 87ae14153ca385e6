/** What every run of accepted events keeps true between the chain, the blocks, the calls and the offsets. */
module ReductionSafety {
  import opened Outcomes
  import opened Texts
  import opened Utf8
  import opened JsonSafety
  import opened ChatBlocks
  import opened MessageChain
  import opened Reduction

  // ----- The invariant -------------------------------------------------------------------------------

  predicate BlocksOk(blocks: seq<ChatBlock>) {
    && (forall i :: 0 <= i < |blocks| ==> IsCanonical(blocks[i]))
    && (forall i, j :: 0 <= i < j < |blocks| ==> blocks[i].id != blocks[j].id)
  }

  /** The open text block is the last block and holds the pending deltas; all others are done. */
  predicate TextOk(blocks: seq<ChatBlock>, textIndex: Option<nat>, pending: seq<string>, textOffset: nat) {
    && (textIndex.None? ==> pending == [])
    && (textIndex.Some? ==>
          && textIndex.value + 1 == |blocks|
          && var b := blocks[|blocks| - 1];
             b.TextBlock? && b.status == Streaming && b.content == Joined(pending))
    && textOffset == Utf16Length(Joined(pending))
    && (forall i :: 0 <= i < |blocks| && blocks[i].TextBlock? && Some(i) != textIndex ==> blocks[i].status == Done)
  }

  /** The contents of the text blocks, in order. */
  function Streamed(blocks: seq<ChatBlock>): string {
    if blocks == [] then ""
    else Streamed(blocks[..|blocks| - 1]) + TextOfBlock(blocks[|blocks| - 1])
  }

  function TextOfBlock(b: ChatBlock): string {
    if b.TextBlock? then b.content else ""
  }

  predicate ValueOk(blocks: seq<ChatBlock>, parts: seq<string>, offset: nat) {
    offset == Utf16Length(Joined(parts)) && Joined(parts) == Streamed(blocks)
  }

  predicate CallsOk(declared: map<string, ToolCall>, started: set<string>, resolved: set<string>,
                    indexed: set<string>)
  {
    && resolved <= started <= declared.Keys && started == indexed
    && (forall id :: id in declared ==>
          declared[id].id == id && declared[id].arguments.Obj? && Safe(declared[id].arguments))
  }

  predicate IsToolOf(b: ChatBlock, call: ToolCall, finished: bool) {
    && b.ToolBlock? && b.toolUseId == call.id && b.toolName == call.name && b.toolInput == call.arguments
    && (if finished then b.status == Done || b.status == Error else b.status == Pending)
  }

  /** Every started call has one block, and every tool block is that of a started call. */
  predicate ToolsOk(blocks: seq<ChatBlock>, indexes: map<string, nat>, declared: map<string, ToolCall>,
                    resolved: set<string>)
  {
    && (forall id :: id in indexes ==>
          id in declared && indexes[id] < |blocks| && IsToolOf(blocks[indexes[id]], declared[id], id in resolved))
    && (forall i :: 0 <= i < |blocks| && blocks[i].ToolBlock? ==>
          blocks[i].toolUseId in indexes && indexes[blocks[i].toolUseId] == i)
  }

  function NamesOf(declared: map<string, ToolCall>): map<string, string> {
    map id | id in declared :: declared[id].name
  }

  /** An assistant message as the reducer writes it, whose calls are the declared ones. */
  predicate IsAssistantRecord(m: Message, declared: map<string, ToolCall>) {
    && m.Message? && m.role == AssistantRole
    && m.toolCallId == Missing && m.name == Missing && m.isError == Missing && m.otherKeys == []
    && m.compacted.Given? && m.summaryCompacted.Given? && (m.reasoning.Given? || m.reasoning.Missing?)
    && m.modelInfo.Given? && m.modelInfo.value.provider.Given? && m.modelInfo.value.model.Given?
    && (m.version.Given? || m.version.NullValue?)
    && (m.toolCalls.Missing? || (m.toolCalls.Given? && m.toolCalls.value != []))
    && forall i :: 0 <= i < |Calls(m)| ==>
         CallId(Calls(m)[i]) in declared && Calls(m)[i] == CallRecord(declared[CallId(Calls(m)[i])])
  }

  /** A tool message as the reducer writes it, which says what the finished block of its call says. */
  predicate IsToolRecord(m: Message, blocks: seq<ChatBlock>, indexes: map<string, nat>,
                         declared: map<string, ToolCall>, resolved: set<string>)
  {
    && m.Message? && m.role == ToolRole && m.toolCallId.Given?
    && var id := m.toolCallId.value;
       && id in resolved && id in declared && id in indexes && indexes[id] < |blocks|
       && SaysTheSame(m, blocks[indexes[id]], declared[id])
  }

  predicate SaysTheSame(m: Message, b: ChatBlock, call: ToolCall) {
    && m.Message? && m.content.Str? && b.ToolBlock? && b.toolOutput == Some(m.content)
    && m == WrittenResult(call, ToolResult(call.id, m.content.text, b.status == Error, Null))
  }

  predicate RecordsOk(chain: seq<Message>, blocks: seq<ChatBlock>, indexes: map<string, nat>,
                      declared: map<string, ToolCall>, resolved: set<string>)
  {
    forall k :: 0 <= k < |chain| ==>
      IsAssistantRecord(chain[k], declared) || IsToolRecord(chain[k], blocks, indexes, declared, resolved)
  }

  predicate ShapeOk(chain: seq<Message>, declared: map<string, ToolCall>, resolved: set<string>) {
    Shape(chain) == Some(Standing(NamesOf(declared), resolved))
  }

  predicate Inv(s: State) {
    && BlocksOk(s.blocks)
    && TextOk(s.blocks, s.textIndex, s.pending, s.textOffset) && (s.textIndex.Some? ==> s.Unresolved() == {})
    && ValueOk(s.blocks, s.valueParts, s.valueOffset)
    && CallsOk(s.declared, s.started, s.resolved, s.toolIndexes.Keys)
    && ToolsOk(s.blocks, s.toolIndexes, s.declared, s.resolved)
    && RecordsOk(s.chain, s.blocks, s.toolIndexes, s.declared, s.resolved)
    && ShapeOk(s.chain, s.declared, s.resolved)
  }

  predicate IsFresh(mint: Mint, blocks: seq<ChatBlock>) {
    IsMint(mint) && forall i :: 0 <= i < |blocks| ==> blocks[i].id != mint.id
  }

  lemma InitialIsSafe(provider: string, model: string)
    ensures Inv(Initial(provider, model))
  {
    assert NamesOf(map[]) == map[];
  }

  // ----- One block more, or one block changed --------------------------------------------------------

  lemma JoinedNext(parts: seq<string>, part: string)
    ensures Joined(parts + [part]) == Joined(parts) + part
  {
    assert (parts + [part])[..|parts|] == parts;
  }

  lemma StreamedNext(blocks: seq<ChatBlock>, b: ChatBlock)
    ensures Streamed(blocks + [b]) == Streamed(blocks) + TextOfBlock(b)
  {
    assert (blocks + [b])[..|blocks|] == blocks;
  }

  /** Changing one block changes what was streamed only in its own text. */
  lemma {:induction false} StreamedSame(blocks: seq<ChatBlock>, i: nat, b: ChatBlock)
    requires i < |blocks| && TextOfBlock(b) == TextOfBlock(blocks[i])
    ensures Streamed(blocks[i := b]) == Streamed(blocks)
  {
    var n := |blocks| - 1;
    var after := blocks[i := b];
    if i < n {
      StreamedSame(blocks[..n], i, b);
      assert after[..n] == blocks[..n][i := b];
    } else {
      assert after[..n] == blocks[..n];
    }
  }

  lemma StreamedGrows(blocks: seq<ChatBlock>, b: ChatBlock, content: string)
    requires blocks != [] && b.TextBlock? && b.content == TextOfBlock(blocks[|blocks| - 1]) + content
    ensures Streamed(blocks[|blocks| - 1 := b]) == Streamed(blocks) + content
  {
    hide Streamed;
    var n := |blocks| - 1;
    var front, last := blocks[..n], blocks[n];
    assert blocks[n := b] == front + [b] && blocks == front + [last];
    StreamedNext(front, b);
    StreamedNext(front, last);
    assert Streamed(front) + (TextOfBlock(last) + content) == Streamed(front) + TextOfBlock(last) + content;
  }

  lemma AppendedBlocksOk(blocks: seq<ChatBlock>, b: ChatBlock)
    requires BlocksOk(blocks) && IsCanonical(b) && forall i :: 0 <= i < |blocks| ==> blocks[i].id != b.id
    ensures BlocksOk(blocks + [b])
  {
    hide IsCanonical;
  }

  lemma ChangedBlocksOk(blocks: seq<ChatBlock>, i: nat, b: ChatBlock)
    requires BlocksOk(blocks) && i < |blocks| && IsCanonical(b) && b.id == blocks[i].id
    ensures BlocksOk(blocks[i := b])
  {
    hide IsCanonical;
  }

  /** Finished calls keep their blocks, so their messages keep their meaning. */
  lemma RecordsStay(chain: seq<Message>, blocks: seq<ChatBlock>, indexes: map<string, nat>,
                    declared: map<string, ToolCall>, resolved: set<string>,
                    blocks': seq<ChatBlock>, indexes': map<string, nat>, declared': map<string, ToolCall>,
                    resolved': set<string>)
    requires RecordsOk(chain, blocks, indexes, declared, resolved)
    requires forall id :: id in declared ==> id in declared' && declared'[id] == declared[id]
    requires forall id :: id in resolved ==> id in resolved'
    requires forall id :: id in resolved && id in indexes && indexes[id] < |blocks| ==>
               id in indexes' && indexes'[id] == indexes[id] < |blocks'| && blocks'[indexes[id]] == blocks[indexes[id]]
    ensures RecordsOk(chain, blocks', indexes', declared', resolved')
  {
    hide SaysTheSame, CallRecord, CallId, Calls;
  }

  lemma AppendedTextToolsOk(blocks: seq<ChatBlock>, indexes: map<string, nat>, declared: map<string, ToolCall>,
                            resolved: set<string>, b: ChatBlock)
    requires ToolsOk(blocks, indexes, declared, resolved) && b.TextBlock?
    ensures ToolsOk(blocks + [b], indexes, declared, resolved)
  {
    hide IsToolOf;
  }

  lemma ChangedTextToolsOk(blocks: seq<ChatBlock>, indexes: map<string, nat>, declared: map<string, ToolCall>,
                           resolved: set<string>, i: nat, b: ChatBlock)
    requires ToolsOk(blocks, indexes, declared, resolved) && i < |blocks| && blocks[i].TextBlock? && b.TextBlock?
    ensures ToolsOk(blocks[i := b], indexes, declared, resolved)
  {
    forall id | id in indexes
      ensures indexes[id] != i
    {
    }
    hide IsToolOf;
  }

  // ----- Deltas --------------------------------------------------------------------------------------

  lemma OpenedKeeps(s: State, mint: Mint)
    requires Inv(s) && IsFresh(mint, s.blocks) && s.Unresolved() == {}
    ensures Inv(Opened(s, mint)) && Opened(s, mint).textIndex.Some?
  {
    hide IsCanonical, Safe, Joined, Utf16Length, BlocksOk, RecordsOk, ShapeOk, CallsOk, ToolsOk, Streamed;
    if s.textIndex.None? {
      var b := TextBlock(mint.id, "", Streaming, mint.timestamp);
      NothingJoined();
      AppendedBlocksOk(s.blocks, b);
      StreamedNext(s.blocks, b);
      assert Streamed(s.blocks) + "" == Streamed(s.blocks);
      AppendedTextToolsOk(s.blocks, s.toolIndexes, s.declared, s.resolved, b);
      RecordsStay(s.chain, s.blocks, s.toolIndexes, s.declared, s.resolved,
                  s.blocks + [b], s.toolIndexes, s.declared, s.resolved);
    }
  }

  lemma NothingJoined()
    ensures Joined([]) == "" && Utf16Length("") == 0
  {
  }

  /** Putting an open text block with more text in place of the last one. */
  lemma DeltaKeeps(o: State, content: string, b: ChatBlock)
    requires Inv(o) && o.textIndex.Some? && IsCanonical(b)
    requires o.blocks != [] && AppendTextBlock(o.blocks[|o.blocks| - 1], content, None) == Some(b)
    ensures Inv(Grown(o, content, b))
  {
    hide IsCanonical, Safe, Joined, Utf16Length, BlocksOk, RecordsOk, ShapeOk, CallsOk, ToolsOk, Streamed;
    var i := |o.blocks| - 1;
    JoinedNext(o.pending, content);
    JoinedNext(o.valueParts, content);
    Utf16LengthAdds(Joined(o.pending), content);
    Utf16LengthAdds(Joined(o.valueParts), content);
    ChangedBlocksOk(o.blocks, i, b);
    StreamedGrows(o.blocks, b, content);
    ChangedTextToolsOk(o.blocks, o.toolIndexes, o.declared, o.resolved, i, b);
    TextIsNoTool(o, i);
    RecordsStay(o.chain, o.blocks, o.toolIndexes, o.declared, o.resolved,
                o.blocks[i := b], o.toolIndexes, o.declared, o.resolved);
  }

  lemma TextIsNoTool(s: State, i: nat)
    requires ToolsOk(s.blocks, s.toolIndexes, s.declared, s.resolved) && i < |s.blocks| && s.blocks[i].TextBlock?
    ensures forall id :: id in s.toolIndexes ==> s.toolIndexes[id] != i
  {
  }

  lemma AcceptDeltaKeeps(s: State, content: string, mint: Mint)
    requires IsMint(mint) && Inv(s) && IsFresh(mint, s.blocks) && AcceptDelta(s, content, mint).1.Some?
    ensures Inv(AcceptDelta(s, content, mint).0)
  {
    hide Inv, Opened, Grown, AppendTextBlock, IsFresh, IsMint, AcceptDelta;
    DeltaIs(s, content, mint);
    if content != "" {
      OpenedKeeps(s, mint);
      var o := Opened(s, mint);
      OpenIsLast(o);
      AppendedIsCanonical(o.blocks[o.textIndex.value], content);
      DeltaKeeps(o, content, AppendTextBlock(o.blocks[o.textIndex.value], content, None).value);
    }
  }

  lemma DeltaIs(s: State, content: string, mint: Mint)
    requires IsMint(mint) && AcceptDelta(s, content, mint).1.Some?
    ensures content == "" ==> AcceptDelta(s, content, mint) == (s, Some([]))
    ensures content != "" ==>
              var o := Opened(s, mint);
              && s.Unresolved() == {} && o.textIndex.Some?
              && var i := o.textIndex.value;
              && i < |o.blocks| && AppendTextBlock(o.blocks[i], content, None).Some?
              && AcceptDelta(s, content, mint)
                 == (Grown(o, content, AppendTextBlock(o.blocks[i], content, None).value),
                     Some(OpeningEmissions(s, mint)
                          + [Chunk(AppendTextBlock(o.blocks[i], content, None).value.id, o.textOffset, o.valueOffset,
                                   content)]))
  {
    hide Utf16Length, AppendTextBlock, IsMint;
  }

  lemma OpenIsLast(s: State)
    requires Inv(s) && s.textIndex.Some?
    ensures s.textIndex.value + 1 == |s.blocks|
  {
    hide BlocksOk, RecordsOk, ShapeOk, CallsOk, ToolsOk, ValueOk, Joined;
  }

  lemma AppendedIsCanonical(b: ChatBlock, content: string)
    ensures AppendTextBlock(b, content, None).Some? ==> IsCanonical(AppendTextBlock(b, content, None).value)
  {
    hide IsCanonical;
  }

  // ----- Assistant messages --------------------------------------------------------------------------

  lemma EndedKeeps(s: State)
    requires Inv(s) && Ended(s).Some?
    ensures Inv(Ended(s).value.0) && Ended(s).value.0.textIndex.None?
  {
    hide IsCanonical, Safe, Joined, Utf16Length, BlocksOk, RecordsOk, ShapeOk, CallsOk, ToolsOk, Streamed;
    NothingJoined();
    if s.textIndex.Some? {
      var i := s.textIndex.value;
      var b := Ended(s).value.0.blocks[i];
      assert s.blocks[i].content + "" == s.blocks[i].content;
      ChangedBlocksOk(s.blocks, i, b);
      StreamedSame(s.blocks, i, b);
      ChangedTextToolsOk(s.blocks, s.toolIndexes, s.declared, s.resolved, i, b);
      TextIsNoTool(s, i);
      RecordsStay(s.chain, s.blocks, s.toolIndexes, s.declared, s.resolved,
                  s.blocks[i := b], s.toolIndexes, s.declared, s.resolved);
    }
  }

  /** What declaring calls leaves alone and what it adds. */
  predicate Declares(before: map<string, ToolCall>, calls: seq<ToolCall>, after: map<string, ToolCall>) {
    && (forall id :: id in before ==> id in after && after[id] == before[id])
    && (forall id :: id in after && id !in before ==>
          after[id].id == id && after[id].arguments.Obj? && Safe(after[id].arguments))
    && (forall i :: 0 <= i < |calls| ==> calls[i].id in after && after[calls[i].id] == calls[i])
  }

  lemma DeclaresNext(declared: map<string, ToolCall>, calls: seq<ToolCall>, before: map<string, ToolCall>)
    requires AllCopy(calls) && calls != [] && Declares(declared, calls[..|calls| - 1], before)
    requires calls[|calls| - 1].id !in before
    ensures Declares(declared, calls, before[calls[|calls| - 1].id := calls[|calls| - 1]])
  {
    hide Safe;
  }

  lemma NamesNext(before: map<string, ToolCall>, call: ToolCall)
    ensures NamesOf(before[call.id := call]) == NamesOf(before)[call.id := call.name]
  {
  }

  lemma CallRecordsNext(calls: seq<ToolCall>)
    requires calls != []
    ensures |CallRecords(calls)| == |calls|
    ensures CallRecords(calls)[..|calls| - 1] == CallRecords(calls[..|calls| - 1])
    ensures CallRecords(calls)[|calls| - 1] == CallRecord(calls[|calls| - 1])
  {
  }

  lemma DeclareStep(declared: map<string, string>, calls: seq<RawCall>)
    requires calls != []
    ensures Declare(declared, calls)
            == if Declare(declared, calls[..|calls| - 1]).None? then None
               else
                 var before := Declare(declared, calls[..|calls| - 1]).value;
                 var call := calls[|calls| - 1];
                 if CallId(call) in before then None else Some(before[CallId(call) := CallName(call)])
  {
  }

  lemma {:induction false} DeclaredAllIs(declared: map<string, ToolCall>, calls: seq<ToolCall>)
    requires AllCopy(calls) && DeclaredAll(declared, calls).1
    ensures Declares(declared, calls, DeclaredAll(declared, calls).0)
    ensures Declare(NamesOf(declared), CallRecords(calls)) == Some(NamesOf(DeclaredAll(declared, calls).0))
  {
    hide Safe;
    if calls != [] {
      var n := |calls| - 1;
      DeclaredAllIs(declared, calls[..n]);
      hide Declares, AllCopy, CallRecords, Declare;
      CallRecordsNext(calls);
      DeclareStep(NamesOf(declared), CallRecords(calls));
      var before := DeclaredAll(declared, calls[..n]).0;
      DeclaresNext(declared, calls, before);
      NamesNext(before, calls[n]);
    }
  }

  lemma MoreDeclaredToolsOk(blocks: seq<ChatBlock>, indexes: map<string, nat>, declared: map<string, ToolCall>,
                            resolved: set<string>, after: map<string, ToolCall>)
    requires ToolsOk(blocks, indexes, declared, resolved)
    requires forall id :: id in declared ==> id in after && after[id] == declared[id]
    ensures ToolsOk(blocks, indexes, after, resolved)
  {
    hide IsToolOf;
  }

  lemma WrittenIsRecord(m: AssistantMessage, provider: string, model: string, declared: map<string, ToolCall>)
    requires forall i :: 0 <= i < |m.toolCalls| ==>
               m.toolCalls[i].id in declared && declared[m.toolCalls[i].id] == m.toolCalls[i]
    ensures IsAssistantRecord(WrittenAssistant(m, provider, model), declared)
    ensures Calls(WrittenAssistant(m, provider, model)) == CallRecords(m.toolCalls)
  {
  }

  lemma ShapeNext(chain: seq<Message>, m: Message)
    ensures Shape(chain + [m]) == if Shape(chain).None? then None else Extended(Shape(chain).value, m)
  {
    hide Extended;
    assert (chain + [m])[..|chain|] == chain;
  }

  lemma RecordsNext(chain: seq<Message>, m: Message, blocks: seq<ChatBlock>, indexes: map<string, nat>,
                    declared: map<string, ToolCall>, resolved: set<string>)
    requires RecordsOk(chain, blocks, indexes, declared, resolved)
    requires IsAssistantRecord(m, declared) || IsToolRecord(m, blocks, indexes, declared, resolved)
    ensures RecordsOk(chain + [m], blocks, indexes, declared, resolved)
  {
    hide IsAssistantRecord, IsToolRecord;
  }

  /** Declaring new calls and appending the message that declares them. */
  lemma AssistantKeeps(e: State, m: AssistantMessage)
    requires Inv(e) && e.textIndex.None? && e.Unresolved() == {}
    requires AllCopy(m.toolCalls) && DeclaredAll(e.declared, m.toolCalls).1
    ensures Inv(e.(declared := DeclaredAll(e.declared, m.toolCalls).0,
                   chain := e.chain + [WrittenAssistant(m, e.provider, e.model)]))
  {
    hide Safe, Joined, Utf16Length, BlocksOk, TextOk, RecordsOk, ToolsOk, Streamed, AllCopy, DeclaredAll, Shape,
      IsAssistantRecord, CallRecords;
    var after := DeclaredAll(e.declared, m.toolCalls).0;
    assert Declares(e.declared, m.toolCalls, after) ==>
        forall id :: id in e.declared ==> id in after && after[id] == e.declared[id];
    var written := WrittenAssistant(m, e.provider, e.model);
    DeclaredAllIs(e.declared, m.toolCalls);
    MoreDeclaredToolsOk(e.blocks, e.toolIndexes, e.declared, e.resolved, after);
    WrittenIsRecord(m, e.provider, e.model, after);
    RecordsStay(e.chain, e.blocks, e.toolIndexes, e.declared, e.resolved,
                e.blocks, e.toolIndexes, after, e.resolved);
    RecordsNext(e.chain, written, e.blocks, e.toolIndexes, after, e.resolved);
    ShapeNext(e.chain, written);
    assert Standing(NamesOf(e.declared), e.resolved).Unresolved() == e.Unresolved();
  }

  lemma AcceptAssistantKeeps(s: State, m: AssistantMessage)
    requires Inv(s) && AcceptAssistant(s, m).1.Some?
    ensures Inv(AcceptAssistant(s, m).0)
  {
    hide Inv, VisibleText, Joined, AllCopy, DeclaredAll, WrittenAssistant;
    EndedKeeps(s);
    var e := Ended(s).value.0;
    assert e.declared == s.declared && e.resolved == s.resolved && e.provider == s.provider && e.model == s.model;
    AssistantKeeps(e, m);
    CompactionsDoNotMatter(e.(declared := DeclaredAll(e.declared, m.toolCalls).0,
                              chain := e.chain + [WrittenAssistant(m, e.provider, e.model)]),
                           AcceptAssistant(s, m).0.compactions);
  }

  lemma CompactionsDoNotMatter(s: State, compactions: seq<Compaction>)
    requires Inv(s)
    ensures Inv(s.(compactions := compactions))
  {
    hide BlocksOk, TextOk, ValueOk, CallsOk, ToolsOk, RecordsOk, ShapeOk;
  }

  // ----- Tools ---------------------------------------------------------------------------------------

  lemma StartedToolsOk(blocks: seq<ChatBlock>, indexes: map<string, nat>, declared: map<string, ToolCall>,
                       resolved: set<string>, id: string, b: ChatBlock)
    requires ToolsOk(blocks, indexes, declared, resolved)
    requires id !in indexes && id !in resolved && id in declared && declared[id].id == id
    requires IsToolOf(b, declared[id], false)
    ensures ToolsOk(blocks + [b], indexes[id := |blocks|], declared, resolved)
  {
  }

  lemma AcceptToolStartKeeps(s: State, call: ToolCall, mint: Mint)
    requires Inv(s) && IsFresh(mint, s.blocks) && AcceptToolStart(s, call, mint).1.Some?
    ensures Inv(AcceptToolStart(s, call, mint).0)
  {
    hide IsCanonical, Safe, Joined, Utf16Length, BlocksOk, RecordsOk, ShapeOk, ToolsOk, Streamed;
    var b := CreateToolBlock(call, mint.id, mint.timestamp).value;
    AppendedBlocksOk(s.blocks, b);
    StreamedNext(s.blocks, b);
    assert Streamed(s.blocks) + "" == Streamed(s.blocks);
    assert call.id in s.Unresolved();
    StartedToolsOk(s.blocks, s.toolIndexes, s.declared, s.resolved, call.id, b);
    RecordsStay(s.chain, s.blocks, s.toolIndexes, s.declared, s.resolved,
                s.blocks + [b], s.toolIndexes[call.id := |s.blocks|], s.declared, s.resolved);
  }

  lemma ResolvedToolsOk(blocks: seq<ChatBlock>, indexes: map<string, nat>, declared: map<string, ToolCall>,
                        resolved: set<string>, id: string, b: ChatBlock)
    requires ToolsOk(blocks, indexes, declared, resolved)
    requires id in indexes && id !in resolved && forall other :: other in declared ==> declared[other].id == other
    requires indexes[id] < |blocks| && IsToolOf(b, declared[id], true)
    ensures ToolsOk(blocks[indexes[id] := b], indexes, declared, resolved + {id})
  {
    forall other | other in indexes && other != id
      ensures indexes[other] != indexes[id]
    {
      assert blocks[indexes[other]].toolUseId == declared[other].id;
    }
  }

  lemma ResultIsRecord(b: ChatBlock, call: ToolCall, r: ToolResult)
    requires ApplyToolResult(b, r).Some? && r.callId == call.id && IsToolOf(b, call, false)
    ensures var after := ApplyToolResult(b, r).value;
            && SaysTheSame(WrittenResult(call, r), after, call)
            && IsToolOf(after, call, true) && IsCanonical(after) && after.id == b.id
    ensures WrittenResult(call, r).Message?
    ensures WrittenResult(call, r).role == ToolRole && WrittenResult(call, r).toolCallId == Given(call.id)
  {
    hide IsCanonical, Safe;
  }

  lemma AcceptToolResultKeeps(s: State, call: ToolCall, r: ToolResult)
    requires Inv(s) && AcceptToolResult(s, call, r).1.Some?
    ensures Inv(AcceptToolResult(s, call, r).0)
  {
    hide IsCanonical, Safe, Joined, Utf16Length, BlocksOk, RecordsOk, Shape, Streamed, ApplyToolResult, WrittenResult,
      SaysTheSame, CollectedSources, CollectedReason;
    var i := s.toolIndexes[call.id];
    var b := ApplyToolResult(s.blocks[i], r).value;
    assert IsToolOf(s.blocks[i], call, false);
    ResultIsRecord(s.blocks[i], call, r);
    ResolvedToolsOk(s.blocks, s.toolIndexes, s.declared, s.resolved, call.id, b);
    hide ToolsOk;
    ChangedBlocksOk(s.blocks, i, b);
    StreamedSame(s.blocks, i, b);
    assert call.id in s.Unresolved();
    OthersElsewhere(s, call.id);
    var resolved := s.resolved + {call.id};
    RecordsStay(s.chain, s.blocks, s.toolIndexes, s.declared, s.resolved,
                s.blocks[i := b], s.toolIndexes, s.declared, resolved);
    RecordsNext(s.chain, WrittenResult(call, r), s.blocks[i := b], s.toolIndexes, s.declared, resolved);
    ShapeNext(s.chain, WrittenResult(call, r));
    ResultExtends(NamesOf(s.declared), s.resolved, call, r);
  }

  lemma OthersElsewhere(s: State, id: string)
    requires ToolsOk(s.blocks, s.toolIndexes, s.declared, s.resolved) && id in s.toolIndexes && id !in s.resolved
    requires forall id :: id in s.declared ==> s.declared[id].id == id
    ensures forall other :: other in s.resolved && other in s.toolIndexes ==> s.toolIndexes[other] != s.toolIndexes[id]
  {
  }

  lemma ResultExtends(names: map<string, string>, resolved: set<string>, call: ToolCall, r: ToolResult)
    requires call.id in names && names[call.id] == call.name && call.id !in resolved
    ensures Extended(Standing(names, resolved), WrittenResult(call, r))
            == Some(Standing(names, resolved + {call.id}))
  {
  }

  lemma AcceptKeeps(s: State, event: Event, mint: Mint)
    requires Inv(s) && IsFresh(mint, s.blocks) && IsMint(mint) && Accept(s, event, mint).1.Some?
    ensures Inv(Accept(s, event, mint).0)
  {
    hide Inv, IsFresh, IsMint, AcceptDelta, AcceptAssistant, AcceptToolStart, AcceptToolResult;
    match event
    case TextDelta(content) => AcceptDeltaKeeps(s, content, mint);
    case AssistantSaid(message) => AcceptAssistantKeeps(s, message);
    case ToolStarted(call) => AcceptToolStartKeeps(s, call, mint);
    case ToolAnswered(call, result) => AcceptToolResultKeeps(s, call, result);
  }
}
