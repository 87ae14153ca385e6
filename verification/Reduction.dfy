/**
 The reduction of runtime events to a message chain, UI blocks and a stream of emissions. Every event either is
 accepted, with its emissions, or is refused by an exception, before which `accept` may already have changed some
 fields.
 */
module Reduction {
  import opened Outcomes
  import opened Texts
  import opened Utf8
  import opened JsonSafety
  import opened CanonicalText
  import opened ChatBlocks
  import opened MessageChain

  datatype AssistantMessage = AssistantMessage(
    content: Json, toolCalls: seq<ToolCall>, reasoning: Option<string>, provider: Option<string>,
    model: Option<string>, compacted: bool, summaryCompacted: bool, version: Option<int>)

  datatype Event =
    | TextDelta(content: string)
    | AssistantSaid(message: AssistantMessage)
    | ToolStarted(call: ToolCall)
    | ToolAnswered(call: ToolCall, result: ToolResult)

  /** What `uuid4` and the clock give for a new block. */
  datatype Mint = Mint(id: string, timestamp: string)

  predicate IsMint(mint: Mint) {
    CreateTextBlock(mint.id, mint.timestamp).Some?
  }

  datatype Emission =
    | Chunk(blockId: string, blockOffset: nat, offset: nat, content: string)
    | Created(block: ChatBlock)
    | Updated(block: ChatBlock)

  datatype Compaction = Compaction(messageIndex: nat, compacted: bool, summaryCompacted: bool, version: Option<int>)

  datatype State = State(
    provider: string,
    model: string,
    chain: seq<Message>,
    blocks: seq<ChatBlock>,
    compactions: seq<Compaction>,
    sources: seq<Json>,
    termination: Option<string>,
    declared: map<string, ToolCall>,
    started: set<string>,
    resolved: set<string>,
    toolIndexes: map<string, nat>,
    textIndex: Option<nat>,
    pending: seq<string>,
    valueParts: seq<string>,
    valueOffset: nat,
    textOffset: nat)
  {
    function Unresolved(): set<string> {
      declared.Keys - resolved
    }
  }

  function Initial(provider: string, model: string): State {
    State(provider, model, [], [], [], [], None, map[], {}, {}, map[], None, [], [], 0, 0)
  }

  // ----- Visible text --------------------------------------------------------------------------------

  /** The text of one content block, nothing for other kinds, and `None` where `_assistant_visible_text` raises. */
  function VisiblePart(part: Json): Option<string> {
    if !part.Obj? then None
    else
      var kind := Lookup(part, "type");
      if kind.Some? && (kind.value.Arr? || kind.value.Obj?) then None
      else if kind != Some(Str("text")) && kind != Some(Str("output_text")) then Some("")
      else
        match Lookup(part, "text")
        case Some(Str(text)) => Some(text)
        case _ => None
  }

  function VisibleParts(parts: seq<Json>): Option<string> {
    if parts == [] then Some("")
    else
      var first :- VisiblePart(parts[0]);
      var rest :- VisibleParts(parts[1..]);
      Some(first + rest)
  }

  /** `_assistant_visible_text`. */
  function VisibleText(content: Json): Option<string> {
    match content
    case Null => Some("")
    case Str(text) => Some(text)
    case Arr(parts) => VisibleParts(parts)
    case _ => None
  }

  // ----- Writing the chain ---------------------------------------------------------------------------

  function CallRecord(call: ToolCall): RawCall {
    RawCall(Given(call.id), true, Given(RawFunction(Given(call.name), Given(TextOf(call.arguments)))))
  }

  function CallRecords(calls: seq<ToolCall>): seq<RawCall> {
    seq(|calls|, i requires 0 <= i < |calls| => CallRecord(calls[i]))
  }

  /** `serialize_assistant_event`, after the provider and the model were filled in. */
  function WrittenAssistant(m: AssistantMessage, provider: string, model: string): Message {
    Message(AssistantRole, m.content, if m.toolCalls == [] then Missing else Given(CallRecords(m.toolCalls)),
            if m.reasoning.Some? then Given(m.reasoning.value) else Missing,
            Given(ModelInfo(Given(provider), Given(model))), Given(m.compacted), Given(m.summaryCompacted),
            if m.version.Some? then Given(m.version.value) else NullValue, Missing, Missing, Missing, [])
  }

  /** `serialize_tool_result`. */
  function WrittenResult(call: ToolCall, r: ToolResult): Message {
    Message(ToolRole, Str(r.content), Missing, Missing, Missing, Missing, Missing, Missing,
            Given(call.id), Given(call.name), if r.isError then Given(true) else Missing, [])
  }

  // ----- Metadata ------------------------------------------------------------------------------------

  const MAX_RESULT_SOURCES: nat := 20
  const MAX_TERMINATION_REASON_CHARS: nat := 128

  function MoreSources(sources: seq<Json>, found: seq<Json>): seq<Json>
    decreases |found|
  {
    if found == [] || |sources| >= MAX_RESULT_SOURCES then sources
    else MoreSources(if found[0].Obj? && Safe(found[0]) then sources + [found[0]] else sources, found[1..])
  }

  predicate IsReason(s: string) {
    0 < |s| <= MAX_TERMINATION_REASON_CHARS && forall i :: 0 <= i < |s| ==> s[i] as int >= 32 && s[i] as int != 127
  }

  function CollectedSources(sources: seq<Json>, metadata: Json): seq<Json> {
    if !metadata.Obj? then sources
    else
      match Lookup(metadata, "sources")
      case Some(Arr(found)) => MoreSources(sources, found)
      case _ => sources
  }

  function CollectedReason(reason: Option<string>, metadata: Json): Option<string> {
    if !metadata.Obj? then reason
    else
      match Lookup(metadata, "termination_reason")
      case Some(Str(text)) => if IsReason(text) then Some(text) else reason
      case _ => reason
  }

  // ----- Accepting events ----------------------------------------------------------------------------

  /** A state and, unless `accept` raised, the emissions. */
  type Outcome = (State, Option<seq<Emission>>)

  /** The text block that is open, created if there is none. */
  function Opened(s: State, mint: Mint): State {
    if s.textIndex.Some? then s
    else s.(textIndex := Some(|s.blocks|), textOffset := 0,
            blocks := s.blocks + [TextBlock(mint.id, "", Streaming, mint.timestamp)])
  }

  function OpeningEmissions(s: State, mint: Mint): seq<Emission> {
    if s.textIndex.Some? then [] else [Created(TextBlock(mint.id, "", Streaming, mint.timestamp))]
  }

  /** The open text block is now `b`, after `content` was appended to it. */
  function Grown(o: State, content: string, b: ChatBlock): State {
    if o.textIndex.Some? && o.textIndex.value < |o.blocks| then
      o.(blocks := o.blocks[o.textIndex.value := b],
         pending := o.pending + [content],
         valueParts := o.valueParts + [content],
         textOffset := o.textOffset + Utf16Length(content),
         valueOffset := o.valueOffset + Utf16Length(content))
    else o
  }

  function AcceptDelta(s: State, content: string, mint: Mint): Outcome
    requires IsMint(mint)
  {
    if content == "" then (s, Some([]))
    else if s.Unresolved() != {} then (s, None)
    else
      var o := Opened(s, mint);
      var i := o.textIndex.value;
      if i >= |o.blocks| then (o, None)
      else
        var appended := AppendTextBlock(o.blocks[i], content, None);
        if appended.None? then (o, None)
        else
          (Grown(o, content, appended.value),
           Some(OpeningEmissions(s, mint)
                + [Chunk(appended.value.id, o.textOffset, o.valueOffset, content)]))
  }

  /** The end of the open text block, if there is one: `None` where `append_text_block` raises. */
  function Ended(s: State): Option<(State, seq<Emission>)> {
    var closed := s.(textIndex := None, textOffset := 0, pending := []);
    if s.textIndex.None? then Some((closed, []))
    else if s.textIndex.value >= |s.blocks| then None
    else
      var completed :- AppendTextBlock(s.blocks[s.textIndex.value], "", Some(Done));
      Some((closed.(blocks := s.blocks[s.textIndex.value := completed]), [Updated(completed)]))
  }

  predicate AllCopy(calls: seq<ToolCall>) {
    forall i :: 0 <= i < |calls| ==> calls[i].arguments.Obj? && Safe(calls[i].arguments)
  }

  /** Declaring call after call; the flag says whether all ids were new. */
  function DeclaredAll(declared: map<string, ToolCall>, calls: seq<ToolCall>): (map<string, ToolCall>, bool) {
    if calls == [] then (declared, true)
    else
      var (before, fine) := DeclaredAll(declared, calls[..|calls| - 1]);
      var call := calls[|calls| - 1];
      if !fine || call.id in before then (before, false) else (before[call.id := call], true)
  }

  function AcceptAssistant(s: State, m: AssistantMessage): Outcome {
    if s.Unresolved() != {} then (s, None)
    else if VisibleText(m.content) != Some(Joined(s.pending)) then (s, None)
    else
      match Ended(s)
      case None => (s, None)
      case Some((e, emissions)) =>
        if !(m.provider in {None, Some(s.provider)} && m.model in {None, Some(s.model)}) then (e, None)
        else if !AllCopy(m.toolCalls) then (e, None)
        else
          var (declared, fine) := DeclaredAll(e.declared, m.toolCalls);
          if !fine then (e.(declared := declared), None)
          else
            (e.(declared := declared,
                chain := e.chain + [WrittenAssistant(m, s.provider, s.model)],
                compactions := e.compactions
                               + if m.compacted || m.summaryCompacted || m.version.Some?
                                 then [Compaction(|e.chain|, m.compacted, m.summaryCompacted, m.version)] else []),
             Some(emissions))
  }

  function AcceptToolStart(s: State, call: ToolCall, mint: Mint): Outcome {
    if call.id !in s.declared || call.id in s.started || s.declared[call.id] != call then (s, None)
    else
      var begun := s.(started := s.started + {call.id});
      match CreateToolBlock(call, mint.id, mint.timestamp)
      case None => (begun, None)
      case Some(block) =>
        (begun.(toolIndexes := s.toolIndexes[call.id := |s.blocks|], blocks := s.blocks + [block]),
         Some([Created(block)]))
  }

  function AcceptToolResult(s: State, call: ToolCall, r: ToolResult): Outcome {
    if call.id !in s.declared || call.id !in s.started || call.id in s.resolved then (s, None)
    else if s.declared[call.id] != call || r.callId != call.id then (s, None)
    else if call.id !in s.toolIndexes || s.toolIndexes[call.id] >= |s.blocks| then (s, None)
    else
      var i := s.toolIndexes[call.id];
      match ApplyToolResult(s.blocks[i], r)
      case None => (s, None)
      case Some(block) =>
        (s.(blocks := s.blocks[i := block],
            resolved := s.resolved + {call.id},
            chain := s.chain + [WrittenResult(call, r)],
            sources := CollectedSources(s.sources, r.metadata),
            termination := CollectedReason(s.termination, r.metadata)),
         Some([Updated(block)]))
  }

  function Accept(s: State, event: Event, mint: Mint): Outcome
    requires IsMint(mint)
  {
    match event
    case TextDelta(content) => AcceptDelta(s, content, mint)
    case AssistantSaid(message) => AcceptAssistant(s, message)
    case ToolStarted(call) => AcceptToolStart(s, call, mint)
    case ToolAnswered(call, result) => AcceptToolResult(s, call, result)
  }

  // ----- Finishing -----------------------------------------------------------------------------------

  datatype Envelope = Envelope(
    value: string, chain: Option<seq<Message>>, blocks: seq<ChatBlock>, compactions: seq<Compaction>,
    sources: seq<Json>, termination: Option<string>)

  /** `_success_terminal_answer`. */
  function TerminalAnswer(s: State): Option<string> {
    if s.chain == [] then None
    else
      var last := s.chain[|s.chain| - 1];
      if !last.Message? || last.role != AssistantRole || (last.toolCalls.Given? && last.toolCalls.value != []) then None
      else
        var answer :- VisibleText(last.content);
        if IsBlank(answer) then None else Some(answer)
  }

  /** The checks of `finish_success` before it validates the chain. */
  predicate MayFinish(s: State) {
    && TerminalAnswer(s).Some?
    && s.pending == []
    && s.Unresolved() == {}
    && forall i :: 0 <= i < |s.blocks| && s.blocks[i].ToolBlock? ==> IsTerminal(s.blocks[i])
  }

  function BlocksJson(blocks: seq<ChatBlock>): Json {
    Arr(seq(|blocks|, i requires 0 <= i < |blocks| => BlockJson(blocks[i])))
  }

  function CompactionJson(c: Compaction): Json {
    Obj(["compacted", "message_index", "summary_compacted", "version"],
        [Bool(c.compacted), Int(c.messageIndex), Bool(c.summaryCompacted),
         if c.version.Some? then Int(c.version.value) else Null])
  }

  function CompactionsJson(compactions: seq<Compaction>): Json {
    Arr(seq(|compactions|, i requires 0 <= i < |compactions| => CompactionJson(compactions[i])))
  }

  predicate IsChain(messages: seq<Message>) {
    forall i :: 0 <= i < |messages| ==> messages[i].Message?
  }

  function ReasonJson(reason: Option<string>): Json {
    if reason.Some? then Str(reason.value) else Null
  }

  function EnvelopeJson(e: Envelope): Json
    requires e.chain.Some? ==> IsChain(e.chain.value)
  {
    if e.chain.Some? then
      Obj(["blocks", "context_compactions", "messages_chain", "sources", "termination_reason", "value"],
          [BlocksJson(e.blocks), CompactionsJson(e.compactions), ChainJson(e.chain.value), Arr(e.sources),
           ReasonJson(e.termination), Str(e.value)])
    else
      Obj(["blocks", "context_compactions", "sources", "termination_reason", "value"],
          [BlocksJson(e.blocks), CompactionsJson(e.compactions), Arr(e.sources), ReasonJson(e.termination),
           Str(e.value)])
  }

  lemma ValidatedIsChain(messages: seq<Message>)
    requires Validated(messages).Some?
    ensures IsChain(Validated(messages).value)
  {
    hide Normalized, Extended, MessageJson, Safe;
    NormalizedShape(messages);
  }

  /** `finish_success`. */
  function Finished(s: State): Option<Envelope> {
    if !MayFinish(s) then None
    else
      var chain :- Validated(s.chain);
      ValidatedIsChain(s.chain);
      var result := Envelope(TerminalAnswer(s).value, Some(chain), s.blocks, s.compactions, s.sources, s.termination);
      if Safe(EnvelopeJson(result)) then Some(result) else None
  }
}
