/**
 What a run of accepted events leaves on record, said field by field of the events: the messages, the blocks, the text,
 the sources and the reason.
 */
module RunRecords {
  import opened Outcomes
  import opened Texts
  import opened JsonSafety
  import opened ChatBlocks
  import opened MessageChain
  import opened Reduction
  import opened ReductionSafety
  import opened ReductionTheorems

  // ----- What is visible -----------------------------------------------------------------------------

  /** A part that is shown, and must have a string. */
  predicate IsShownPart(part: Json)
    requires part.Obj?
  {
    Lookup(part, "type") == Some(Str("text")) || Lookup(part, "type") == Some(Str("output_text"))
  }

  /** A dictionary whose kind is a scalar, with a string under `text` if it is shown. */
  predicate IsReadablePart(part: Json) {
    && part.Obj?
    && (Lookup(part, "type").Some? ==> !Lookup(part, "type").value.Arr? && !Lookup(part, "type").value.Obj?)
    && (IsShownPart(part) ==> Lookup(part, "text").Some? && Lookup(part, "text").value.Str?)
  }

  /** The visible text of a list of parts is that of all but the last, and then the last one's if it is shown. */
  lemma {:induction false} VisibleTextIs(parts: seq<Json>, part: Json)
    ensures VisibleText(Arr([])) == Some("")
    ensures VisibleText(Arr(parts + [part]))
            == if VisibleText(Arr(parts)).None? || !IsReadablePart(part) then None
               else if IsShownPart(part) then Some(VisibleText(Arr(parts)).value + Lookup(part, "text").value.text)
               else VisibleText(Arr(parts))
  {
    if parts == [] {
      assert [] + [part] == [part] && [part][1..] == [];
      assert VisibleParts([]) == Some("") && "" + "" == "";
      assert VisibleParts([part]) == if VisiblePart(part).None? then None else Some(VisiblePart(part).value + "");
      if IsReadablePart(part) && IsShownPart(part) {
        var text := Lookup(part, "text").value.text;
        assert text + "" == text && "" + text == text;
      }
    } else {
      VisibleTextIs(parts[1..], part);
      hide Lookup, IsReadablePart, IsShownPart, VisiblePart;
      assert (parts + [part])[1..] == parts[1..] + [part];
      if IsReadablePart(part) && IsShownPart(part) && VisibleText(Arr(parts)).Some? {
        var (first, rest) := (VisiblePart(parts[0]).value, VisibleParts(parts[1..]).value);
        var text := Lookup(part, "text").value.text;
        assert (first + rest) + text == first + (rest + text);
      }
    }
  }

  // ----- The chain -----------------------------------------------------------------------------------

  /** A call as a message declares it: a function with this name, and the canonical text of these arguments. */
  predicate SaysCall(c: RawCall, call: ToolCall) {
    && c.RawCall? && c.id == Given(call.id) && c.isFunction && c.target.Given?
    && c.target.value.name == Given(call.name) && c.target.value.arguments == Given(TextOf(call.arguments))
  }

  /** An assistant message with exactly the fields of the event; what the event leaves open is filled in. */
  predicate SaysAssistant(m: Message, said: AssistantMessage, provider: string, model: string) {
    && m.Message? && m.role == AssistantRole && m.content == said.content
    && (if said.toolCalls == [] then m.toolCalls.Missing?
        else
          && m.toolCalls.Given? && |m.toolCalls.value| == |said.toolCalls|
          && forall i :: 0 <= i < |said.toolCalls| ==> SaysCall(m.toolCalls.value[i], said.toolCalls[i]))
    && (if said.reasoning.None? then m.reasoning.Missing? else m.reasoning == Given(said.reasoning.value))
    && m.modelInfo.Given? && m.modelInfo.value.provider == Given(provider) && m.modelInfo.value.model == Given(model)
    && m.compacted == Given(said.compacted) && m.summaryCompacted == Given(said.summaryCompacted)
    && (if said.version.None? then m.version.NullValue? else m.version == Given(said.version.value))
    && m.toolCallId.Missing? && m.name.Missing? && m.isError.Missing? && m.otherKeys == []
  }

  /** A tool message with the content of the result, which is flagged exactly if the result is an error. */
  predicate SaysResult(m: Message, call: ToolCall, r: ToolResult) {
    && m.Message? && m.role == ToolRole && m.content == Str(r.content)
    && m.toolCallId == Given(call.id) && m.name == Given(call.name)
    && (if r.isError then m.isError == Given(true) else m.isError.Missing?)
    && m.toolCalls.Missing? && m.reasoning.Missing? && m.modelInfo.Missing? && m.compacted.Missing?
    && m.summaryCompacted.Missing? && m.version.Missing? && m.otherKeys == []
  }

  predicate Records(m: Message, e: Event, provider: string, model: string) {
    match e
    case AssistantSaid(said) => SaysAssistant(m, said, provider, model)
    case ToolAnswered(call, r) => SaysResult(m, call, r)
    case _ => false
  }

  /** The events that go into the chain. */
  function Spoken(arrivals: seq<Arrival>): seq<Event> {
    if arrivals == [] then []
    else
      var e := arrivals[0].event;
      (if e.AssistantSaid? || e.ToolAnswered? then [e] else []) + Spoken(arrivals[1..])
  }

  /** One message per event, in order, after those already there. */
  predicate Recorded(before: seq<Message>, after: seq<Message>, events: seq<Event>, provider: string, model: string) {
    && |after| == |before| + |events| && before <= after
    && forall k :: 0 <= k < |events| ==> Records(after[|before| + k], events[k], provider, model)
  }

  lemma AssistantRecords(s: State, said: AssistantMessage)
    requires AcceptAssistant(s, said).1.Some?
    ensures var t := AcceptAssistant(s, said).0;
            && t.provider == s.provider && t.model == s.model
            && |t.chain| == |s.chain| + 1 && s.chain <= t.chain
            && SaysAssistant(t.chain[|s.chain|], said, s.provider, s.model)
  {
    hide VisibleText, Joined, AllCopy, DeclaredAll, AppendTextBlock;
  }

  lemma ResultRecords(s: State, call: ToolCall, r: ToolResult)
    requires AcceptToolResult(s, call, r).1.Some?
    ensures var t := AcceptToolResult(s, call, r).0;
            && t.provider == s.provider && t.model == s.model
            && |t.chain| == |s.chain| + 1 && s.chain <= t.chain && SaysResult(t.chain[|s.chain|], call, r)
  {
    hide ApplyToolResult, CollectedSources, CollectedReason;
  }

  lemma OthersRecordNothing(s: State, event: Event, mint: Mint)
    requires IsMint(mint) && (event.TextDelta? || event.ToolStarted?)
    ensures var t := Accept(s, event, mint).0; t.chain == s.chain && t.provider == s.provider && t.model == s.model
  {
    hide IsMint, AppendTextBlock, CreateToolBlock;
  }

  /** Deltas and starts of tools leave everything that is collected beside the blocks as it is. */
  lemma OthersCollectNothing(s: State, event: Event, mint: Mint)
    requires IsMint(mint) && (event.TextDelta? || event.ToolStarted?)
    ensures var t := Accept(s, event, mint).0;
            t.compactions == s.compactions && t.sources == s.sources && t.termination == s.termination
  {
    hide IsMint, AppendTextBlock, CreateToolBlock;
  }

  lemma AssistantCollects(s: State, m: AssistantMessage)
    requires AcceptAssistant(s, m).1.Some?
    ensures var t := AcceptAssistant(s, m).0;
            && t.sources == s.sources && t.termination == s.termination
            && t.compactions == s.compactions + if m.compacted || m.summaryCompacted || m.version.Some?
                                                then [Compaction(|s.chain|, m.compacted, m.summaryCompacted, m.version)]
                                                else []
  {
    hide VisibleText, Joined, AllCopy, DeclaredAll, AppendTextBlock, WrittenAssistant;
  }

  lemma ResultCollects(s: State, call: ToolCall, r: ToolResult)
    requires AcceptToolResult(s, call, r).1.Some?
    ensures var t := AcceptToolResult(s, call, r).0;
            && t.compactions == s.compactions && t.sources == CollectedSources(s.sources, r.metadata)
            && t.termination == CollectedReason(s.termination, r.metadata)
  {
    hide ApplyToolResult, CollectedSources, CollectedReason, WrittenResult;
  }

  lemma AcceptRecords(s: State, event: Event, mint: Mint)
    requires IsMint(mint) && Accept(s, event, mint).1.Some?
    ensures var t := Accept(s, event, mint).0;
            && t.provider == s.provider && t.model == s.model
            && Recorded(s.chain, t.chain, if event.AssistantSaid? || event.ToolAnswered? then [event] else [],
                        s.provider, s.model)
  {
    hide AcceptDelta, AcceptAssistant, AcceptToolStart, AcceptToolResult, SaysAssistant, SaysResult, IsMint;
    match event
    case AssistantSaid(said) => AssistantRecords(s, said);
    case ToolAnswered(call, r) => ResultRecords(s, call, r);
    case _ => OthersRecordNothing(s, event, mint);
  }

  lemma RecordedOn(a: seq<Message>, b: seq<Message>, c: seq<Message>, first: seq<Event>, rest: seq<Event>,
                   provider: string, model: string)
    requires Recorded(a, b, first, provider, model) && Recorded(b, c, rest, provider, model)
    ensures Recorded(a, c, first + rest, provider, model)
  {
    hide Records;
    forall k | 0 <= k < |first + rest|
      ensures Records(c[|a| + k], (first + rest)[k], provider, model)
    {
      if k < |first| {
        assert c[|a| + k] == b[|a| + k];
      } else {
        assert c[|b| + (k - |first|)] == c[|a| + k];
      }
    }
  }

  /** The chain that a run appends is its assistant messages and tool results, one by one and in order. */
  lemma {:induction false} ChainIsTheRun(s: State, arrivals: seq<Arrival>)
    requires Run(s, arrivals).Some?
    ensures Recorded(s.chain, Run(s, arrivals).value.0.chain, Spoken(arrivals), s.provider, s.model)
    decreases |arrivals|
  {
    hide Accept, IsFresh, Records;
    if arrivals != [] {
      var (event, mint) := (arrivals[0].event, arrivals[0].mint);
      FreshIsMint(mint, s.blocks);
      AcceptRecords(s, event, mint);
      var t := Accept(s, event, mint).0;
      ChainIsTheRun(t, arrivals[1..]);
      hide Recorded;
      RecordedOn(s.chain, t.chain, Run(t, arrivals[1..]).value.0.chain,
                 if event.AssistantSaid? || event.ToolAnswered? then [event] else [], Spoken(arrivals[1..]),
                 s.provider, s.model);
    }
  }

  // ----- The text ------------------------------------------------------------------------------------

  /** The text of all deltas. */
  function Deltas(arrivals: seq<Arrival>): string {
    if arrivals == [] then ""
    else (if arrivals[0].event.TextDelta? then arrivals[0].event.content else "") + Deltas(arrivals[1..])
  }

  lemma DeltaStreams(s: State, content: string, mint: Mint)
    requires IsMint(mint) && AcceptDelta(s, content, mint).1.Some?
    ensures Joined(AcceptDelta(s, content, mint).0.valueParts) == Joined(s.valueParts) + content
  {
    hide IsMint, Joined, AppendTextBlock, AcceptDelta;
    DeltaIs(s, content, mint);
    if content == "" {
      assert Joined(s.valueParts) + "" == Joined(s.valueParts);
    } else {
      JoinedNext(s.valueParts, content);
    }
  }

  lemma OthersStreamNothing(s: State, event: Event, mint: Mint)
    requires IsMint(mint) && !event.TextDelta?
    ensures Accept(s, event, mint).0.valueParts == s.valueParts
  {
    hide IsMint, VisibleText, Joined, AllCopy, DeclaredAll, AppendTextBlock, WrittenAssistant, CreateToolBlock,
      ApplyToolResult, CollectedSources, CollectedReason, WrittenResult;
  }

  lemma AcceptStreams(s: State, event: Event, mint: Mint)
    requires IsMint(mint) && Accept(s, event, mint).1.Some?
    ensures Joined(Accept(s, event, mint).0.valueParts)
            == Joined(s.valueParts) + if event.TextDelta? then event.content else ""
  {
    hide IsMint, Joined, AcceptDelta, AcceptAssistant, AcceptToolStart, AcceptToolResult;
    if event.TextDelta? {
      DeltaStreams(s, event.content, mint);
    } else {
      OthersStreamNothing(s, event, mint);
      assert Joined(s.valueParts) + "" == Joined(s.valueParts);
    }
  }

  /** The value of a run is all that was streamed, in order. */
  lemma {:induction false} TextIsTheRun(s: State, arrivals: seq<Arrival>)
    requires Run(s, arrivals).Some?
    ensures Joined(Run(s, arrivals).value.0.valueParts) == Joined(s.valueParts) + Deltas(arrivals)
    decreases |arrivals|
  {
    hide Accept, IsFresh, IsMint, Joined;
    if arrivals == [] {
      assert Joined(s.valueParts) + "" == Joined(s.valueParts);
    } else {
      var (event, mint) := (arrivals[0].event, arrivals[0].mint);
      FreshIsMint(mint, s.blocks);
      AcceptStreams(s, event, mint);
      var t := Accept(s, event, mint).0;
      TextIsTheRun(t, arrivals[1..]);
      var (text, first) := (Joined(s.valueParts), if event.TextDelta? then event.content else "");
      assert text + (first + Deltas(arrivals[1..])) == text + first + Deltas(arrivals[1..]);
    }
  }

  // ----- Compactions ---------------------------------------------------------------------------------

  predicate IsCompacting(e: Event) {
    e.AssistantSaid? && (e.message.compacted || e.message.summaryCompacted || e.message.version.Some?)
  }

  /** One entry per marked message, with its place in the chain that starts at `n`. */
  function Marked(events: seq<Event>, n: nat): seq<Compaction> {
    if events == [] then []
    else
      (if IsCompacting(events[0])
       then
         var m := events[0].message;
         [Compaction(n, m.compacted, m.summaryCompacted, m.version)]
       else [])
      + Marked(events[1..], n + 1)
  }

  lemma AcceptMarks(s: State, event: Event, mint: Mint)
    requires IsMint(mint) && Accept(s, event, mint).1.Some?
    ensures Accept(s, event, mint).0.compactions
            == s.compactions
               + Marked(if event.AssistantSaid? || event.ToolAnswered? then [event] else [], |s.chain|)
  {
    hide IsMint, AcceptDelta, AcceptAssistant, AcceptToolStart, AcceptToolResult, Marked, CollectedSources,
      CollectedReason;
    MarkedOne(event, |s.chain|);
    assert s.compactions + [] == s.compactions;
    match event
    case AssistantSaid(said) => AssistantCollects(s, said);
    case ToolAnswered(call, r) => ResultCollects(s, call, r);
    case _ => OthersCollectNothing(s, event, mint);
  }

  lemma MarkedOne(event: Event, n: nat)
    ensures Marked([], n) == []
    ensures Marked([event], n)
            == if IsCompacting(event)
               then [Compaction(n, event.message.compacted, event.message.summaryCompacted, event.message.version)]
               else []
  {
    assert [event][1..] == [];
  }

  lemma MarkedOn(first: seq<Event>, rest: seq<Event>, n: nat)
    requires |first| <= 1
    ensures Marked(first + rest, n) == Marked(first, n) + Marked(rest, n + |first|)
  {
    if first == [] {
      assert first + rest == rest && Marked(first, n) == [] && [] + Marked(rest, n) == Marked(rest, n);
    } else {
      assert (first + rest)[1..] == rest && first == [first[0]];
      MarkedOne(first[0], n);
    }
  }

  /** The compaction entries of a run are those of its marked messages, in order. */
  lemma {:induction false} CompactionsAreTheRun(s: State, arrivals: seq<Arrival>)
    requires Run(s, arrivals).Some?
    ensures Run(s, arrivals).value.0.compactions == s.compactions + Marked(Spoken(arrivals), |s.chain|)
    decreases |arrivals|
  {
    hide Accept, IsFresh, IsMint, Recorded, Marked;
    if arrivals == [] {
      MarkedNone(|s.chain|);
      assert s.compactions + [] == s.compactions;
    } else {
      var (event, mint) := (arrivals[0].event, arrivals[0].mint);
      FreshIsMint(mint, s.blocks);
      AcceptMarks(s, event, mint);
      AcceptRecords(s, event, mint);
      var t := Accept(s, event, mint).0;
      var now := if event.AssistantSaid? || event.ToolAnswered? then [event] else [];
      RecordedLength(s.chain, t.chain, now, s.provider, s.model);
      CompactionsAreTheRun(t, arrivals[1..]);
      var later := Spoken(arrivals[1..]);
      MarkedOn(now, later, |s.chain|);
      assert s.compactions + (Marked(now, |s.chain|) + Marked(later, |t.chain|))
          == s.compactions + Marked(now, |s.chain|) + Marked(later, |t.chain|);
    }
  }

  lemma MarkedNone(n: nat)
    ensures Marked([], n) == []
  {
  }

  lemma RecordedLength(before: seq<Message>, after: seq<Message>, events: seq<Event>, provider: string, model: string)
    requires Recorded(before, after, events, provider, model)
    ensures |after| == |before| + |events|
  {
    hide Records;
  }

  // ----- Sources and the reason ----------------------------------------------------------------------

  /** What of a list is a dictionary that may be stored. */
  function Storable(found: seq<Json>): seq<Json> {
    if found == [] then []
    else (if found[0].Obj? && Safe(found[0]) then [found[0]] else []) + Storable(found[1..])
  }

  /** The sources that a result offers. */
  function Offered(e: Event): seq<Json> {
    if !e.ToolAnswered? || !e.result.metadata.Obj? then []
    else
      match Lookup(e.result.metadata, "sources")
      case Some(Arr(found)) => Storable(found)
      case _ => []
  }

  function AllOffered(arrivals: seq<Arrival>): seq<Json> {
    if arrivals == [] then [] else Offered(arrivals[0].event) + AllOffered(arrivals[1..])
  }

  /** The first twenty of them. */
  function FirstTwenty(sources: seq<Json>): seq<Json> {
    if |sources| <= 20 then sources else sources[..20]
  }

  lemma {:induction false} MoreSourcesAre(sources: seq<Json>, found: seq<Json>)
    requires |sources| <= MAX_RESULT_SOURCES
    ensures MoreSources(sources, found) == FirstTwenty(sources + Storable(found))
    decreases |found|
  {
    hide Safe;
    if found == [] {
      assert sources + [] == sources;
    } else if |sources| < MAX_RESULT_SOURCES {
      var first := if found[0].Obj? && Safe(found[0]) then [found[0]] else [];
      MoreSourcesAre(sources + first, found[1..]);
      assert sources + (first + Storable(found[1..])) == sources + first + Storable(found[1..]);
      assert sources + [] == sources;
    } else {
      assert (sources + Storable(found))[..20] == sources;
    }
  }

  lemma AcceptCollects(s: State, event: Event, mint: Mint)
    requires IsMint(mint) && Accept(s, event, mint).1.Some? && |s.sources| <= MAX_RESULT_SOURCES
    ensures Accept(s, event, mint).0.sources == FirstTwenty(s.sources + Offered(event))
  {
    hide IsMint, AcceptDelta, AcceptAssistant, AcceptToolStart, AcceptToolResult, CollectedSources, CollectedReason,
      Storable, Lookup;
    assert s.sources + [] == s.sources;
    match event
    case AssistantSaid(said) => AssistantCollects(s, said);
    case ToolAnswered(call, r) => ResultCollects(s, call, r); CollectedAre(s.sources, event);
    case _ => OthersCollectNothing(s, event, mint);
  }

  lemma CollectedAre(sources: seq<Json>, e: Event)
    requires e.ToolAnswered? && |sources| <= MAX_RESULT_SOURCES
    ensures CollectedSources(sources, e.result.metadata) == FirstTwenty(sources + Offered(e))
  {
    hide MoreSources, Storable, LookupIn;
    assert sources + [] == sources;
    if e.result.metadata.Obj? {
      match Lookup(e.result.metadata, "sources")
      case Some(Arr(found)) => MoreSourcesAre(sources, found);
      case _ =>
    }
  }

  /** The sources of a run are the first twenty that its results offer. */
  lemma {:induction false} SourcesAreTheRun(s: State, arrivals: seq<Arrival>)
    requires Run(s, arrivals).Some? && |s.sources| <= MAX_RESULT_SOURCES
    ensures Run(s, arrivals).value.0.sources == FirstTwenty(s.sources + AllOffered(arrivals))
    decreases |arrivals|
  {
    hide Accept, IsFresh, IsMint, Offered;
    if arrivals == [] {
      assert s.sources + [] == s.sources;
    } else {
      var (event, mint) := (arrivals[0].event, arrivals[0].mint);
      FreshIsMint(mint, s.blocks);
      AcceptCollects(s, event, mint);
      SourcesAreTheRun(Accept(s, event, mint).0, arrivals[1..]);
      TwentyOfTwenty(s.sources + Offered(event), AllOffered(arrivals[1..]));
      assert s.sources + (Offered(event) + AllOffered(arrivals[1..]))
          == s.sources + Offered(event) + AllOffered(arrivals[1..]);
    }
  }

  lemma TwentyOfTwenty(a: seq<Json>, b: seq<Json>)
    ensures FirstTwenty(FirstTwenty(a) + b) == FirstTwenty(a + b)
  {
  }

  /** The reason that an event gives: printable, not empty, and at most 128 characters. */
  function Reason(e: Event): Option<string> {
    if !e.ToolAnswered? || !e.result.metadata.Obj? then None
    else
      match Lookup(e.result.metadata, "termination_reason")
      case Some(Str(text)) =>
        if 0 < |text| <= 128 && forall i :: 0 <= i < |text| ==> text[i] >= ' ' && text[i] as int != 127 then Some(text)
        else None
      case _ => None
  }

  /** The last reason given. */
  function LastReason(arrivals: seq<Arrival>, before: Option<string>): Option<string>
    decreases |arrivals|
  {
    if arrivals == [] then before
    else
      var last := Reason(arrivals[|arrivals| - 1].event);
      if last.Some? then last else LastReason(arrivals[..|arrivals| - 1], before)
  }

  lemma AcceptGives(s: State, event: Event, mint: Mint)
    requires IsMint(mint) && Accept(s, event, mint).1.Some?
    ensures Accept(s, event, mint).0.termination == if Reason(event).Some? then Reason(event) else s.termination
  {
    hide IsMint, AcceptDelta, AcceptAssistant, AcceptToolStart, AcceptToolResult, CollectedSources, CollectedReason,
      Lookup;
    match event
    case AssistantSaid(said) => AssistantCollects(s, said);
    case ToolAnswered(call, r) => ResultCollects(s, call, r); GivenIs(s.termination, event);
    case _ => OthersCollectNothing(s, event, mint);
  }

  lemma GivenIs(before: Option<string>, e: Event)
    requires e.ToolAnswered?
    ensures CollectedReason(before, e.result.metadata) == if Reason(e).Some? then Reason(e) else before
  {
    hide LookupIn;
  }

  lemma {:induction false} ReasonFirst(first: Arrival, rest: seq<Arrival>, before: Option<string>)
    ensures LastReason([first] + rest, before)
            == LastReason(rest, if Reason(first.event).Some? then Reason(first.event) else before)
    decreases |rest|
  {
    hide Reason;
    var all := [first] + rest;
    if rest == [] {
      assert all[..0] == [];
    } else {
      assert all[..|all| - 1] == [first] + rest[..|rest| - 1];
      ReasonFirst(first, rest[..|rest| - 1], before);
    }
  }

  /** The reason of a run is the last one that a result gave. */
  lemma {:induction false} ReasonIsTheRun(s: State, arrivals: seq<Arrival>)
    requires Run(s, arrivals).Some?
    ensures Run(s, arrivals).value.0.termination == LastReason(arrivals, s.termination)
    decreases |arrivals|
  {
    hide Accept, IsFresh, IsMint, Reason;
    if arrivals != [] {
      var (event, mint) := (arrivals[0].event, arrivals[0].mint);
      FreshIsMint(mint, s.blocks);
      AcceptGives(s, event, mint);
      ReasonIsTheRun(Accept(s, event, mint).0, arrivals[1..]);
      assert arrivals == [arrivals[0]] + arrivals[1..];
      hide LastReason;
      ReasonFirst(arrivals[0], arrivals[1..], s.termination);
    }
  }

  // ----- Blocks --------------------------------------------------------------------------------------

  /** The same block, though it may have grown or finished. */
  predicate IsSameBlock(b: ChatBlock, c: ChatBlock) {
    && b.id == c.id && b.timestamp == c.timestamp && (b.TextBlock? <==> c.TextBlock?)
    && (b.ToolBlock? ==> b.toolUseId == c.toolUseId && b.toolName == c.toolName && b.toolInput == c.toolInput)
  }

  predicate KeepPlaces(before: seq<ChatBlock>, after: seq<ChatBlock>) {
    |before| <= |after| && forall i :: 0 <= i < |before| ==> IsSameBlock(before[i], after[i])
  }

  lemma DeltaKeepsPlaces(s: State, content: string, mint: Mint)
    requires IsMint(mint) && AcceptDelta(s, content, mint).1.Some?
    ensures KeepPlaces(s.blocks, AcceptDelta(s, content, mint).0.blocks)
  {
    hide IsMint, AcceptDelta, IsCanonical;
    DeltaIs(s, content, mint);
  }

  lemma AssistantKeepsPlaces(s: State, said: AssistantMessage)
    requires AcceptAssistant(s, said).1.Some?
    ensures KeepPlaces(s.blocks, AcceptAssistant(s, said).0.blocks)
  {
    hide IsCanonical, VisibleText, Joined, AllCopy, DeclaredAll, WrittenAssistant;
  }

  lemma StartKeepsPlaces(s: State, call: ToolCall, mint: Mint)
    requires AcceptToolStart(s, call, mint).1.Some?
    ensures var t := AcceptToolStart(s, call, mint).0;
            && KeepPlaces(s.blocks, t.blocks) && |t.blocks| == |s.blocks| + 1
            && IsBlockOfStart(t.blocks[|s.blocks|], call, mint)
  {
    hide IsCanonical;
  }

  lemma ResultKeepsPlaces(s: State, call: ToolCall, r: ToolResult)
    requires AcceptToolResult(s, call, r).1.Some?
    ensures KeepPlaces(s.blocks, AcceptToolResult(s, call, r).0.blocks)
  {
    hide IsCanonical, Safe, CollectedSources, CollectedReason, WrittenResult;
  }

  lemma AcceptKeepsPlaces(s: State, event: Event, mint: Mint)
    requires IsMint(mint) && Accept(s, event, mint).1.Some?
    ensures KeepPlaces(s.blocks, Accept(s, event, mint).0.blocks)
  {
    hide IsMint, AcceptDelta, AcceptAssistant, AcceptToolStart, AcceptToolResult, KeepPlaces;
    match event
    case TextDelta(content) => DeltaKeepsPlaces(s, content, mint);
    case AssistantSaid(said) => AssistantKeepsPlaces(s, said);
    case ToolStarted(call) => StartKeepsPlaces(s, call, mint);
    case ToolAnswered(call, r) => ResultKeepsPlaces(s, call, r);
  }

  lemma {:induction false} BlocksKeepTheirPlaces(s: State, arrivals: seq<Arrival>)
    requires Run(s, arrivals).Some?
    ensures KeepPlaces(s.blocks, Run(s, arrivals).value.0.blocks)
    decreases |arrivals|
  {
    hide Accept, IsFresh, IsMint;
    if arrivals != [] {
      FreshIsMint(arrivals[0].mint, s.blocks);
      AcceptKeepsPlaces(s, arrivals[0].event, arrivals[0].mint);
      BlocksKeepTheirPlaces(Accept(s, arrivals[0].event, arrivals[0].mint).0, arrivals[1..]);
    }
  }

  lemma {:induction false} RunSplits(s: State, a: seq<Arrival>, b: seq<Arrival>)
    requires Run(s, a + b).Some?
    ensures Run(s, a).Some? && Run(Run(s, a).value.0, b).Some?
    ensures Run(Run(s, a).value.0, b).value.0 == Run(s, a + b).value.0
    decreases |a|
  {
    hide Accept, IsFresh;
    if a == [] {
      assert a + b == b;
    } else {
      assert (a + b)[1..] == a[1..] + b;
      FreshIsMint(a[0].mint, s.blocks);
      RunSplits(Accept(s, a[0].event, a[0].mint).0, a[1..], b);
    }
  }

  /** The run up to one event, what accepting it gave, and the rest. */
  lemma RunAround(s: State, before: seq<Arrival>, arrival: Arrival, after: seq<Arrival>)
    requires Run(s, before + [arrival] + after).Some?
    ensures Run(s, before).Some?
    ensures var at := Run(s, before).value.0;
            && IsFresh(arrival.mint, at.blocks) && IsMint(arrival.mint)
            && Accept(at, arrival.event, arrival.mint).1.Some?
            && Run(Accept(at, arrival.event, arrival.mint).0, after).Some?
            && Run(Accept(at, arrival.event, arrival.mint).0, after).value.0
               == Run(s, before + [arrival] + after).value.0
  {
    hide Accept, IsFresh, IsMint;
    assert before + [arrival] + after == before + ([arrival] + after);
    RunSplits(s, before, [arrival] + after);
    assert ([arrival] + after)[1..] == after;
    FreshIsMint(arrival.mint, Run(s, before).value.0.blocks);
  }

  /** The block that shows a call: with its name, its arguments, and the minted id and time. */
  predicate IsBlockOfStart(b: ChatBlock, call: ToolCall, mint: Mint) {
    && b.ToolBlock? && b.id == mint.id && b.timestamp == mint.timestamp
    && b.toolUseId == call.id && b.toolName == call.name && b.toolInput == call.arguments
  }

  /** A tool that started has its block for good, at the place where it started. */
  lemma StartIsOnRecord(s: State, before: seq<Arrival>, call: ToolCall, mint: Mint, after: seq<Arrival>)
    requires Run(s, before + [Arrival(ToolStarted(call), mint)] + after).Some?
    ensures Run(s, before).Some?
    ensures var at := Run(s, before).value.0;
            var end := Run(s, before + [Arrival(ToolStarted(call), mint)] + after).value.0;
            |at.blocks| < |end.blocks| && IsBlockOfStart(end.blocks[|at.blocks|], call, mint)
  {
    hide Run, AcceptToolStart, IsFresh, IsMint;
    RunAround(s, before, Arrival(ToolStarted(call), mint), after);
    var at := Run(s, before).value.0;
    StartKeepsPlaces(at, call, mint);
    BlocksKeepTheirPlaces(AcceptToolStart(at, call, mint).0, after);
  }

  // ----- Results -------------------------------------------------------------------------------------

  lemma DeclaredStay(s: State, event: Event, mint: Mint, id: string)
    requires IsMint(mint) && Accept(s, event, mint).1.Some? && Inv(s) && id in s.declared
    ensures var t := Accept(s, event, mint).0; id in t.declared && t.declared[id] == s.declared[id]
  {
    if event.AssistantSaid? {
      hide IsMint, Inv, VisibleText, Joined, AppendTextBlock, WrittenAssistant, DeclaredAll, AllCopy;
      DeclaredAllIs(s.declared, event.message.toolCalls);
    } else {
      hide IsMint, Inv, AppendTextBlock, CreateToolBlock, ApplyToolResult, CollectedSources, CollectedReason,
        WrittenResult, AcceptAssistant;
    }
  }

  lemma {:induction false} DeclaredStayOverRuns(s: State, arrivals: seq<Arrival>, id: string)
    requires Run(s, arrivals).Some? && Inv(s) && id in s.declared
    ensures var end := Run(s, arrivals).value.0; id in end.declared && end.declared[id] == s.declared[id]
    decreases |arrivals|
  {
    hide Accept, IsFresh, IsMint, Inv;
    if arrivals != [] {
      var (event, mint) := (arrivals[0].event, arrivals[0].mint);
      FreshIsMint(mint, s.blocks);
      DeclaredStay(s, event, mint, id);
      AcceptKeeps(s, event, mint);
      DeclaredStayOverRuns(Accept(s, event, mint).0, arrivals[1..], id);
    }
  }

  /** The one message and the one block of a call say what its result said. */
  predicate IsOnRecord(end: State, call: ToolCall, r: ToolResult) {
    && (exists k :: 0 <= k < |end.chain| && SaysResult(end.chain[k], call, r))
    && (forall k :: 0 <= k < |end.chain| && Answers(end.chain[k], call.id) ==> SaysResult(end.chain[k], call, r))
    && (exists i :: 0 <= i < |end.blocks| && IsBlockOf(end.blocks[i], call.id))
    && forall i :: 0 <= i < |end.blocks| && IsBlockOf(end.blocks[i], call.id) ==>
         var b := end.blocks[i];
         && b.toolName == call.name && b.toolInput == call.arguments && b.toolOutput == Some(Str(r.content))
         && b.status == if r.isError then Error else BlockStatus.Done
  }

  /** In a state in which a message says what a result said, so does the block, and nothing else answers the call. */
  lemma MessageDecides(end: State, k: nat, call: ToolCall, r: ToolResult)
    requires Inv(end) && k < |end.chain| && SaysResult(end.chain[k], call, r)
    requires call.id in end.declared && end.declared[call.id] == call
    ensures IsOnRecord(end, call, r)
  {
    hide BlocksOk, TextOk, ValueOk, Shape, Safe, IsAssistantRecord;
    AnsweredOnce(end.chain, call.id);
    assert Answers(end.chain[k], call.id);
    AssistantsDoNotAnswer(end.chain[k], end.declared);
    assert IsToolRecord(end.chain[k], end.blocks, end.toolIndexes, end.declared, end.resolved);
    var i := end.toolIndexes[call.id];
    assert IsToolOf(end.blocks[i], call, true);
    assert IsBlockOf(end.blocks[i], call.id);
  }

  /**
   Whatever was accepted before and after: a result that was accepted is on record as it was, with its content, its name
   and whether it is an error, in the one message that answers the call and in the one block that shows it.
   */
  lemma ResultIsOnRecord(provider: string, model: string, before: seq<Arrival>, call: ToolCall, r: ToolResult,
                         mint: Mint, after: seq<Arrival>)
    requires Run(Initial(provider, model), before + [Arrival(ToolAnswered(call, r), mint)] + after).Some?
    ensures IsOnRecord(Run(Initial(provider, model), before + [Arrival(ToolAnswered(call, r), mint)] + after).value.0,
                       call, r)
  {
    hide Run, AcceptToolResult, IsFresh, IsMint, Inv, IsOnRecord, Recorded, SaysResult;
    var (s, a) := (Initial(provider, model), Arrival(ToolAnswered(call, r), mint));
    InitialIsSafe(provider, model);
    RunKeeps(s, before + [a] + after);
    RunAround(s, before, a, after);
    RunKeeps(s, before);
    var at := Run(s, before).value.0;
    var next := AcceptToolResult(at, call, r).0;
    AcceptKeeps(at, a.event, mint);
    ResultRecords(at, call, r);
    ResultWasDeclared(at, call, r);
    DeclaredStayOverRuns(next, after, call.id);
    ChainIsTheRun(next, after);
    var end := Run(s, before + [a] + after).value.0;
    RecordedPrefix(next.chain, end.chain, Spoken(after), next.provider, next.model);
    MessageDecides(end, |at.chain|, call, r);
  }

  lemma RecordedPrefix(before: seq<Message>, after: seq<Message>, events: seq<Event>, provider: string, model: string)
    requires Recorded(before, after, events, provider, model)
    ensures |before| <= |after| && forall k :: 0 <= k < |before| ==> after[k] == before[k]
  {
    hide Records;
  }

  lemma ResultWasDeclared(s: State, call: ToolCall, r: ToolResult)
    requires AcceptToolResult(s, call, r).1.Some?
    ensures var t := AcceptToolResult(s, call, r).0; call.id in t.declared && t.declared[call.id] == call
  {
    hide ApplyToolResult, CollectedSources, CollectedReason, WrittenResult;
  }
}
