/** What runs of accepted events amount to: a chain that validates, one answer per call, emissions that replay. */
module ReductionTheorems {
  import opened Outcomes
  import opened Texts
  import opened Utf8
  import opened JsonSafety
  import opened CanonicalText
  import opened ChatBlocks
  import opened MessageChain
  import opened Reduction
  import opened ReductionSafety

  // ----- Runs ----------------------------------------------------------------------------------------

  datatype Arrival = Arrival(event: Event, mint: Mint)

  /** The end of a run of accepted events and all its emissions; minted ids never repeat an id in use. */
  function Run(s: State, arrivals: seq<Arrival>): Option<(State, seq<Emission>)>
    decreases |arrivals|
  {
    if arrivals == [] then Some((s, []))
    else if !IsFresh(arrivals[0].mint, s.blocks) then None
    else
      var (next, accepted) := Accept(s, arrivals[0].event, arrivals[0].mint);
      var emissions :- accepted;
      var (end, others) :- Run(next, arrivals[1..]);
      Some((end, emissions + others))
  }

  lemma {:induction false} RunKeeps(s: State, arrivals: seq<Arrival>)
    requires Inv(s) && Run(s, arrivals).Some?
    ensures Inv(Run(s, arrivals).value.0)
    decreases |arrivals|
  {
    hide Inv, Accept, IsFresh;
    if arrivals != [] {
      FreshIsMint(arrivals[0].mint, s.blocks);
      AcceptKeeps(s, arrivals[0].event, arrivals[0].mint);
      RunKeeps(Accept(s, arrivals[0].event, arrivals[0].mint).0, arrivals[1..]);
    }
  }

  lemma FreshIsMint(mint: Mint, blocks: seq<ChatBlock>)
    requires IsFresh(mint, blocks)
    ensures IsMint(mint)
  {
  }

  // ----- The chain validates -------------------------------------------------------------------------

  predicate ArgumentsFit(c: RawCall) {
    && c.RawCall? && c.target.Given? && c.target.value.arguments.Given?
    && IsShort(Stringly(c.target.value.arguments.value))
    && |Encode(Stringly(c.target.value.arguments.value))| <= MAX_CANONICAL_BYTES
  }

  /** What the reducer does not check of an assistant message and the validator does. */
  predicate MessageFits(m: Message) {
    m.Message? && m.role == AssistantRole ==>
      && IsGoodContent(m.content)
      && (m.version.Given? ==> m.version.value >= 1)
      && forall i :: 0 <= i < |Calls(m)| ==> ArgumentsFit(Calls(m)[i])
  }

  /** The limits that only the validator knows. */
  predicate ChainFits(s: State) {
    && |s.chain| <= MAX_MESSAGES && |s.declared| <= MAX_TOOL_CALLS
    && (forall k :: 0 <= k < |s.chain| ==> s.chain[k].Message? && MessageFits(s.chain[k]))
    && Safe(ChainJson(s.chain))
  }

  lemma ResolvedAreNamed(s: State, id: string)
    requires Inv(s) && id in s.resolved
    ensures id in s.declared && s.declared[id].id == id && !IsBlank(id) && !IsBlank(s.declared[id].name)
    ensures s.declared[id].arguments.Obj? && Safe(s.declared[id].arguments)
  {
    hide TextOk, ValueOk, RecordsOk, ShapeOk, Safe, BlockJson;
    assert IsToolOf(s.blocks[s.toolIndexes[id]], s.declared[id], true);
    assert IsCanonical(s.blocks[s.toolIndexes[id]]);
  }

  lemma AssistantNormalizes(m: Message, declared: map<string, ToolCall>)
    requires IsAssistantRecord(m, declared)
    requires forall id :: id in declared ==>
               && declared[id].id == id && !IsBlank(id) && !IsBlank(declared[id].name)
               && declared[id].arguments.Obj? && Safe(declared[id].arguments)
    ensures Normalized(m) == if MessageFits(m) then Some(m) else None
  {
    hide IsGoodContent, Safe, IsBlank, IsShort, Encode, Print;
    assert forall i :: 0 <= i < |Calls(m)| ==> IsGoodCall(Calls(m)[i]) == ArgumentsFit(Calls(m)[i]);
    hide IsGoodCall, ArgumentsFit;
    assert m.toolCalls.Given? ==> m.toolCalls.value == Calls(m);
  }

  lemma ToolNormalizes(m: Message, b: ChatBlock, call: ToolCall)
    requires SaysTheSame(m, b, call) && !IsBlank(call.id) && !IsBlank(call.name)
    ensures Normalized(m) == Some(m) && MessageFits(m)
  {
    hide IsBlank;
  }

  /** At the end every message is either as the validator wants it, or beyond its limits. */
  lemma RecordNormalizes(s: State, k: nat)
    requires Inv(s) && s.Unresolved() == {} && k < |s.chain|
    ensures s.chain[k].Message?
    ensures Normalized(s.chain[k]) == if MessageFits(s.chain[k]) then Some(s.chain[k]) else None
  {
    hide Inv, MessageFits, Normalized, IsAssistantRecord, SaysTheSame, Safe, IsBlank;
    forall id | id in s.declared
      ensures s.declared[id].id == id && !IsBlank(id) && !IsBlank(s.declared[id].name)
      ensures s.declared[id].arguments.Obj? && Safe(s.declared[id].arguments)
    {
      assert id !in s.Unresolved();
      ResolvedAreNamed(s, id);
    }
    var m := s.chain[k];
    RecordAt(s, k);
    if IsAssistantRecord(m, s.declared) {
      AssistantNormalizes(m, s.declared);
    } else {
      ToolNormalizes(m, s.blocks[s.toolIndexes[m.toolCallId.value]], s.declared[m.toolCallId.value]);
    }
  }

  lemma RecordAt(s: State, k: nat)
    requires Inv(s) && k < |s.chain|
    ensures s.chain[k].Message?
    ensures IsAssistantRecord(s.chain[k], s.declared)
            || IsToolRecord(s.chain[k], s.blocks, s.toolIndexes, s.declared, s.resolved)
  {
    hide BlocksOk, TextOk, ValueOk, CallsOk, ToolsOk, ShapeOk, SaysTheSame;
  }

  lemma {:induction false} AllNormalizedIs(chain: seq<Message>)
    requires forall k :: 0 <= k < |chain| ==>
               Normalized(chain[k]) == if MessageFits(chain[k]) then Some(chain[k]) else None
    ensures AllNormalized(chain)
            == if forall k :: 0 <= k < |chain| ==> MessageFits(chain[k]) then Some(chain) else None
  {
    hide Normalized, MessageFits;
    if chain != [] {
      var n := |chain| - 1;
      AllNormalizedIs(chain[..n]);
      assert chain == chain[..n] + [chain[n]];
      assert forall k :: 0 <= k < n ==> chain[k] == chain[..n][k];
    }
  }

  lemma {:induction false} DeclaredGrow(declared: map<string, string>, calls: seq<RawCall>)
    requires Declare(declared, calls).Some?
    ensures |declared| <= |Declare(declared, calls).value|
  {
    PrefixDeclared(declared, calls, 0);
    assert calls[..0] == [];
    DeclareNone(declared);
  }

  lemma ExtendedGrows(st: Standing, m: Message)
    requires Extended(st, m).Some?
    ensures |st.declared| <= |Extended(st, m).value.declared|
  {
    hide Declare, Calls;
    if m.role == AssistantRole {
      DeclaredGrow(st.declared, Calls(m));
    }
  }

  lemma {:induction false} ScannedIsShape(chain: seq<Message>)
    requires AllNormalized(chain) == Some(chain) && Shape(chain).Some?
    ensures Scanned(chain) == if |Shape(chain).value.declared| <= MAX_TOOL_CALLS then Shape(chain) else None
  {
    hide Normalized, Extended;
    if chain != [] {
      var n := |chain| - 1;
      NormalizedShape(chain);
      assert chain == AllNormalized(chain[..n]).value + [Normalized(chain[n]).value];
      assert chain[..n] == AllNormalized(chain[..n]).value;
      ScannedIsShape(chain[..n]);
      ExtendedGrows(Shape(chain[..n]).value, chain[n]);
    }
  }

  /** When `finish_success` has passed its own checks, the validator returns the chain as it is, or a limit stops it. */
  lemma FinishedChainValidates(s: State)
    requires Inv(s) && MayFinish(s)
    ensures Validated(s.chain) == if ChainFits(s) then Some(s.chain) else None
  {
    hide Inv, Normalized, MessageFits, TerminalAnswer, MessageJson, Safe, Scanned, AllNormalized, Shape;
    forall k | 0 <= k < |s.chain|
      ensures s.chain[k].Message?
      ensures Normalized(s.chain[k]) == if MessageFits(s.chain[k]) then Some(s.chain[k]) else None
    {
      RecordNormalizes(s, k);
    }
    AllNormalizedIs(s.chain);
    ShapeIsKnown(s);
    NotEmpty(s);
    if AllNormalized(s.chain).Some? {
      ScannedIsShape(s.chain);
    }
    ValidatedIs(s.chain);
    if AllNormalized(s.chain).None? || Scanned(s.chain).None? {
      NotValidated(s.chain);
    }
  }

  lemma NotValidated(chain: seq<Message>)
    requires AllNormalized(chain).None? || Scanned(chain).None?
    ensures Validated(chain) == None
  {
    hide AllNormalized, Scanned, MessageJson, Safe;
  }

  lemma NotEmpty(s: State)
    requires MayFinish(s)
    ensures s.chain != []
  {
  }

  lemma ShapeIsKnown(s: State)
    requires Inv(s) && s.Unresolved() == {}
    ensures Shape(s.chain).Some? && Shape(s.chain).value.Unresolved() == {}
    ensures |Shape(s.chain).value.declared| == |s.declared|
  {
    hide BlocksOk, TextOk, ValueOk, CallsOk, ToolsOk, RecordsOk, Shape;
    assert NamesOf(s.declared).Keys == s.declared.Keys;
    assert |NamesOf(s.declared)| == |NamesOf(s.declared).Keys| == |s.declared|;
  }

  /** The check for pending tool blocks never fails: calls without a result are found out before. */
  lemma NoPendingBlocks(s: State, i: nat)
    requires Inv(s) && s.Unresolved() == {} && i < |s.blocks| && s.blocks[i].ToolBlock?
    ensures IsTerminal(s.blocks[i])
  {
    hide BlocksOk, TextOk, ValueOk, RecordsOk, ShapeOk, Safe;
    var id := s.blocks[i].toolUseId;
    assert id !in s.Unresolved();
    assert IsToolOf(s.blocks[s.toolIndexes[id]], s.declared[id], id in s.resolved);
  }

  // ----- One answer per call -------------------------------------------------------------------------

  predicate Answers(m: Message, id: string) {
    m.Message? && m.role == ToolRole && m.toolCallId == Given(id)
  }

  lemma {:induction false} AnsweredOnce(chain: seq<Message>, id: string)
    requires Shape(chain).Some?
    ensures id in Shape(chain).value.resolved <==> exists k :: 0 <= k < |chain| && Answers(chain[k], id)
    ensures forall j, k :: 0 <= j < |chain| && 0 <= k < |chain| && Answers(chain[j], id) && Answers(chain[k], id) ==>
              j == k
  {
    hide Declare, Calls;
    if chain != [] {
      var n := |chain| - 1;
      AnsweredOnce(chain[..n], id);
      assert forall k :: 0 <= k < n ==> chain[k] == chain[..n][k];
    }
  }

  predicate IsBlockOf(b: ChatBlock, id: string) {
    b.ToolBlock? && b.toolUseId == id
  }

  /** Call `id` has exactly one tool message and exactly one finished block, with the same output. */
  predicate IsAnsweredOnce(s: State, id: string) {
    && (exists k, i ::
          && 0 <= k < |s.chain| && 0 <= i < |s.blocks|
          && Answers(s.chain[k], id) && IsBlockOf(s.blocks[i], id)
          && IsTerminal(s.blocks[i]) && s.blocks[i].toolOutput == Some(s.chain[k].content))
    && (forall j, k :: 0 <= j < |s.chain| && 0 <= k < |s.chain| ==>
          Answers(s.chain[j], id) && Answers(s.chain[k], id) ==> j == k)
    && (forall i, j :: 0 <= i < |s.blocks| && 0 <= j < |s.blocks| ==>
          IsBlockOf(s.blocks[i], id) && IsBlockOf(s.blocks[j], id) ==> i == j)
  }

  lemma OneMessageOneBlock(s: State, id: string)
    requires Inv(s) && id in s.resolved
    ensures IsAnsweredOnce(s, id)
  {
    hide BlocksOk, TextOk, ValueOk, Shape, Safe, IsAssistantRecord;
    AnsweredOnce(s.chain, id);
    var k :| 0 <= k < |s.chain| && Answers(s.chain[k], id);
    AssistantsDoNotAnswer(s.chain[k], s.declared);
    assert IsToolRecord(s.chain[k], s.blocks, s.toolIndexes, s.declared, s.resolved);
    var i := s.toolIndexes[id];
    assert IsToolOf(s.blocks[i], s.declared[id], true);
    assert Answers(s.chain[k], id) && IsBlockOf(s.blocks[i], id);
  }

  lemma AssistantsDoNotAnswer(m: Message, declared: map<string, ToolCall>)
    ensures IsAssistantRecord(m, declared) ==> m.role == AssistantRole
  {
  }

  // ----- What is collected beside the chain ----------------------------------------------------------

  /** A compaction entry names the assistant message that carries its markers. */
  predicate IsCompactionOf(c: Compaction, chain: seq<Message>) {
    && c.messageIndex < |chain|
    && var m := chain[c.messageIndex];
       && m.Message? && m.role == AssistantRole
       && m.compacted == Given(c.compacted) && m.summaryCompacted == Given(c.summaryCompacted)
       && m.version == (if c.version.Some? then Given(c.version.value) else NullValue)
       && (c.compacted || c.summaryCompacted || c.version.Some?)
  }

  predicate CollectedOk(s: State) {
    && (forall i :: 0 <= i < |s.compactions| ==> IsCompactionOf(s.compactions[i], s.chain))
    && |s.sources| <= MAX_RESULT_SOURCES
    && (forall i :: 0 <= i < |s.sources| ==> s.sources[i].Obj? && Safe(s.sources[i]))
    && (s.termination.Some? ==> IsReason(s.termination.value))
  }

  lemma {:induction false} SourcesStayBounded(sources: seq<Json>, found: seq<Json>)
    requires |sources| <= MAX_RESULT_SOURCES
    requires forall i :: 0 <= i < |sources| ==> sources[i].Obj? && Safe(sources[i])
    ensures |MoreSources(sources, found)| <= MAX_RESULT_SOURCES && sources <= MoreSources(sources, found)
    ensures forall i :: 0 <= i < |MoreSources(sources, found)| ==>
              MoreSources(sources, found)[i].Obj? && Safe(MoreSources(sources, found)[i])
    decreases |found|
  {
    hide Safe;
    if found != [] && |sources| < MAX_RESULT_SOURCES {
      SourcesStayBounded(if found[0].Obj? && Safe(found[0]) then sources + [found[0]] else sources, found[1..]);
    }
  }

  lemma ResultKeepsCollected(s: State, call: ToolCall, r: ToolResult)
    requires CollectedOk(s)
    ensures CollectedOk(AcceptToolResult(s, call, r).0)
  {
    hide Safe, ApplyToolResult, WrittenResult, IsReason;
    var t := AcceptToolResult(s, call, r).0;
    if r.metadata.Obj? && Lookup(r.metadata, "sources").Some? && Lookup(r.metadata, "sources").value.Arr? {
      SourcesStayBounded(s.sources, Lookup(r.metadata, "sources").value.items);
    }
    assert forall i :: 0 <= i < |s.chain| ==> i < |t.chain| && t.chain[i] == s.chain[i];
  }

  lemma EndingCollectsNothing(s: State)
    ensures Ended(s).Some? ==>
              var e := Ended(s).value.0;
              e.chain == s.chain && e.compactions == s.compactions && e.sources == s.sources
              && e.termination == s.termination
  {
    hide AppendTextBlock;
  }

  lemma AssistantKeepsCollected(s: State, m: AssistantMessage)
    requires CollectedOk(s)
    ensures CollectedOk(AcceptAssistant(s, m).0)
  {
    hide Safe, IsReason, Ended, VisibleText, Joined, AllCopy, DeclaredAll, CallRecords;
    EndingCollectsNothing(s);
    var t := AcceptAssistant(s, m).0;
    assert forall i :: 0 <= i < |s.chain| ==> i < |t.chain| && t.chain[i] == s.chain[i];
  }

  /** Whatever happens to an event, what was collected stays bounded, safe and rightly attributed. */
  lemma AcceptKeepsCollected(s: State, event: Event, mint: Mint)
    requires CollectedOk(s) && IsMint(mint)
    ensures CollectedOk(Accept(s, event, mint).0)
  {
    hide Safe, IsReason, IsMint, AcceptAssistant, AcceptToolResult, AppendTextBlock, CreateToolBlock;
    match event
    case TextDelta(_) =>
    case AssistantSaid(message) => AssistantKeepsCollected(s, message);
    case ToolStarted(_) =>
    case ToolAnswered(call, result) => ResultKeepsCollected(s, call, result);
  }
}
