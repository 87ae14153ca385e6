/** What is saved of a run that did not finish: terminal blocks, as many as fit, and a prefix of the text. */
module PartialResults {
  import opened Outcomes
  import opened Texts
  import opened JsonSafety
  import opened ChatBlocks
  import opened Reduction
  import opened ReductionSafety
  import opened ReductionTheorems
  import opened RefusedEvents

  /** `_terminal_partial_blocks`: `None` where closing a block raises. */
  function ClosedAll(blocks: seq<ChatBlock>): Option<seq<ChatBlock>> {
    if blocks == [] then Some([])
    else
      var before :- ClosedAll(blocks[..|blocks| - 1]);
      var last :- Closed(blocks[|blocks| - 1]);
      Some(before + [last])
  }

  function Cut(text: string): string {
    if |text| <= MAX_STRING_CHARS then text else text[..MAX_STRING_CHARS]
  }

  function Partial(value: string, blocks: seq<ChatBlock>): Envelope {
    Envelope(value, None, blocks, [], [], None)
  }

  predicate Holds(value: string, blocks: seq<ChatBlock>) {
    Safe(EnvelopeJson(Partial(value, blocks)))
  }

  /** Dropping blocks from the end until the envelope is within the limits, and at last the text. */
  function Trimmed(value: string, blocks: seq<ChatBlock>): Envelope
    decreases |blocks|
  {
    if Holds(value, blocks) then Partial(value, blocks)
    else if blocks == [] then Partial("", [])
    else Trimmed(value, blocks[..|blocks| - 1])
  }

  /** `partial_result`. */
  function PartialResult(s: State): Option<Envelope> {
    var blocks :- ClosedAll(s.blocks);
    Some(Trimmed(Cut(Joined(s.valueParts)), blocks))
  }

  // ----- Fewer blocks never break a limit ------------------------------------------------------------

  lemma BlocksJsonPrefix(blocks: seq<ChatBlock>, n: nat)
    requires n <= |blocks|
    ensures NoLarger(BlocksJson(blocks[..n]), BlocksJson(blocks))
  {
    hide NoLarger, NoneLarger, BlockJson;
    var (all, some) := (BlocksJson(blocks).items, BlocksJson(blocks[..n]).items);
    assert some == all[..n];
    PrefixNoneLarger(all, n);
    ArrNoLarger(some, all);
  }

  lemma FewerBlocksHold(value: string, blocks: seq<ChatBlock>, n: nat)
    requires n <= |blocks| && Holds(value, blocks)
    ensures Holds(value, blocks[..n])
  {
    hide Safe, NoLarger, NoneLarger, BlocksJson, CompactionsJson;
    var (all, some) := (EnvelopeJson(Partial(value, blocks)), EnvelopeJson(Partial(value, blocks[..n])));
    BlocksJsonPrefix(blocks, n);
    ReplaceOne(all.values, 0, BlocksJson(blocks[..n]));
    assert some.values == all.values[0 := BlocksJson(blocks[..n])];
    ObjNoLarger(all.keys, some.values, all.values);
    SafeIfNoLarger(some, all);
  }

  lemma NothingHolds()
    ensures Holds("", [])
  {
    hide EscapedBytes, NodesOfAll, SizeOfAll, HeightOfAll, AllLeavesAreFine, SizeOfKeys;
    EnvelopeKeys();
    var t := EnvelopeJson(Partial("", []));
    assert BlocksJson([]).items == [] && CompactionsJson([]).items == [];
    assert t.values == [Arr([]), Arr([]), Arr([]), Null, Str("")];
    FiveSmall(t.values);
    assert SizeOfKeys(t.keys) <= 100;
    assert Nodes(t) == 1 + 5 + NodesOfAll(t.values);
  }

  lemma ConsOfAll(t: Json, rest: seq<Json>)
    ensures NodesOfAll([t] + rest) == Nodes(t) + NodesOfAll(rest)
    ensures SizeOfAll([t] + rest) == Size(t) + SizeOfAll(rest)
    ensures HeightOfAll([t] + rest) == if Height(t) > HeightOfAll(rest) then Height(t) else HeightOfAll(rest)
    ensures AllLeavesAreFine([t] + rest) <==> LeavesAreFine(t) && AllLeavesAreFine(rest)
  {
    hide Nodes, Size, Height, LeavesAreFine;
    assert ([t] + rest)[1..] == rest;
  }

  lemma EmptyArray()
    ensures Size(Arr([])) == 2 && Nodes(Arr([])) == 1 && LeavesAreFine(Arr([])) && Height(Arr([])) == 1
    ensures Size(Str("")) == 2 && Nodes(Str("")) == 1 && LeavesAreFine(Str("")) && Height(Str("")) == 0
    ensures Size(Null) == 4 && Nodes(Null) == 1 && LeavesAreFine(Null) && Height(Null) == 0
    ensures NodesOfAll([]) == SizeOfAll([]) == HeightOfAll([]) == 0 && AllLeavesAreFine([])
  {
  }

  lemma FiveSmall(ts: seq<Json>)
    requires ts == [Arr([]), Arr([]), Arr([]), Null, Str("")]
    ensures NodesOfAll(ts) == 5 && HeightOfAll(ts) == 1 && AllLeavesAreFine(ts) && SizeOfAll(ts) == 12
  {
    hide Nodes, Size, Height, LeavesAreFine, NodesOfAll, SizeOfAll, HeightOfAll, AllLeavesAreFine;
    EmptyArray();
    var one := [Str("")] + [];
    var two := [Null] + one;
    var three := [Arr([])] + two;
    var four := [Arr([])] + three;
    ConsOfAll(Str(""), []);
    ConsOfAll(Null, one);
    ConsOfAll(Arr([]), two);
    ConsOfAll(Arr([]), three);
    ConsOfAll(Arr([]), four);
    assert ts == [Arr([])] + four;
  }

  lemma EnvelopeKeys()
    ensures SizeOfKeys(["blocks", "context_compactions", "sources", "termination_reason", "value"]) == 70
  {
    hide EscapedBytes;
    PlainBytes("blocks");
    PlainBytes("context_compactions");
    PlainBytes("sources");
    PlainBytes("termination_reason");
    PlainBytes("value");
    var keys := ["blocks", "context_compactions", "sources", "termination_reason", "value"];
    var (a, b, c, d) := (keys[1..], keys[2..], keys[3..], keys[4..]);
    assert a[1..] == b && b[1..] == c && c[1..] == d && d[1..] == [];
    assert SizeOfKeys(d) == 8;
    assert SizeOfKeys(c) == 29;
    assert SizeOfKeys(b) == 39;
    assert SizeOfKeys(a) == 61;
  }

  // ----- The result ----------------------------------------------------------------------------------

  /** The trimmed envelope is within the limits, and no longer prefix of the blocks would have been. */
  lemma {:induction false} TrimmedIsLongest(value: string, blocks: seq<ChatBlock>)
    ensures var r := Trimmed(value, blocks);
            && Holds(r.value, r.blocks)
            && r == Partial(r.value, r.blocks)
            && r.blocks <= blocks
            && (Holds(value, []) ==> r.value == value)
            && (!Holds(value, []) ==> r.value == "" && r.blocks == [])
            && forall n :: |r.blocks| < n <= |blocks| ==> !Holds(value, blocks[..n])
    decreases |blocks|
  {
    hide Holds;
    if Holds(value, blocks) {
      FewerBlocksHold(value, blocks, 0);
      assert blocks[..0] == [];
    } else if blocks == [] {
      NothingHolds();
    } else {
      var shorter := blocks[..|blocks| - 1];
      TrimmedIsLongest(value, shorter);
      forall n | |Trimmed(value, shorter).blocks| < n <= |blocks|
        ensures !Holds(value, blocks[..n])
      {
        if n == |blocks| {
          assert blocks[..n] == blocks;
        } else {
          assert blocks[..n] == shorter[..n];
        }
      }
    }
  }

  // ----- Closing the blocks --------------------------------------------------------------------------

  /** A block as it is saved: a text done, and an unfinished tool call noted as interrupted. */
  function ClosedBlock(b: ChatBlock): ChatBlock {
    if b.TextBlock? then ChatBlocks.Finished(b) else if IsUnfinishedTool(b) then Noted(b) else b
  }

  function ClosedBlocks(blocks: seq<ChatBlock>): (closed: seq<ChatBlock>)
    ensures |closed| == |blocks|
    ensures forall i :: 0 <= i < |closed| ==> IsTerminal(closed[i]) && closed[i].id == blocks[i].id
  {
    seq(|blocks|, i requires 0 <= i < |blocks| => ClosedBlock(blocks[i]))
  }

  /** Every unfinished tool block has room for the note that it was interrupted. */
  predicate AllHaveRoom(blocks: seq<ChatBlock>) {
    forall i :: 0 <= i < |blocks| && IsUnfinishedTool(blocks[i]) ==> HasRoomForNote(blocks[i])
  }

  lemma ClosedBlockIs(b: ChatBlock)
    requires IsCanonical(b)
    ensures Closed(b) == if IsUnfinishedTool(b) && !HasRoomForNote(b) then None else Some(ClosedBlock(b))
  {
    hide Safe, BlockJson, HasRoomForNote, IsBlank, Noted;
    if b.TextBlock? {
      TextBlocksClose(b);
    } else if IsUnfinishedTool(b) {
      ClosingNeedsRoom(b);
    }
  }

  /** The block that stands for an interrupted one: an open text is done as it is, an open call ends with the note. */
  predicate IsClosedFrom(c: ChatBlock, b: ChatBlock) {
    && c.id == b.id && c.timestamp == b.timestamp
    && match b
       case TextBlock(_, content, _, _) => c.TextBlock? && c.content == content && c.status == Done
       case ToolBlock(_, useId, name, input, output, status, _) =>
         && c.ToolBlock? && c.toolUseId == useId && c.toolName == name && c.toolInput == input
         && if status == Done || status == Error then c.toolOutput == output && c.status == status
            else c.toolOutput == Some(Obj(["code"], [Str("execution_interrupted")])) && c.status == Error
  }

  predicate AreClosedFrom(closed: seq<ChatBlock>, blocks: seq<ChatBlock>) {
    |closed| <= |blocks| && forall i :: 0 <= i < |closed| ==> IsClosedFrom(closed[i], blocks[i])
  }

  lemma ClosedFrom(blocks: seq<ChatBlock>)
    requires forall i :: 0 <= i < |blocks| ==> IsCanonical(blocks[i])
    ensures AreClosedFrom(ClosedBlocks(blocks), blocks)
  {
    hide Safe, BlockJson, IsBlank;
  }

  /** `_terminal_partial_blocks` raises exactly where an unfinished tool block has no room for the note. */
  lemma {:induction false} OnlyToolBlocksFailToClose(blocks: seq<ChatBlock>)
    requires forall i :: 0 <= i < |blocks| ==> IsCanonical(blocks[i])
    ensures ClosedAll(blocks) == if AllHaveRoom(blocks) then Some(ClosedBlocks(blocks)) else None
  {
    hide IsCanonical, Closed, HasRoomForNote, IsUnfinishedTool;
    if blocks != [] {
      var n := |blocks| - 1;
      OnlyToolBlocksFailToClose(blocks[..n]);
      ClosedBlockIs(blocks[n]);
      assert forall i :: 0 <= i < n ==> blocks[i] == blocks[..n][i];
      assert AllHaveRoom(blocks) <==>
          AllHaveRoom(blocks[..n]) && (IsUnfinishedTool(blocks[n]) ==> HasRoomForNote(blocks[n]));
      assert ClosedBlocks(blocks) == ClosedBlocks(blocks[..n]) + [ClosedBlock(blocks[n])];
    }
  }

  // ----- The result of any run -----------------------------------------------------------------------

  /** A prefix of the closed blocks that is as long as the limits allow, beside the text if that fits at all. */
  predicate IsBestPartial(r: Envelope, text: string, closed: seq<ChatBlock>) {
    var cut := text[..if |text| < 1000000 then |text| else 1000000];
    && r == Envelope(r.value, None, r.blocks, [], [], None) && IsWithinLimits(r.value, r.blocks)
    && r.blocks <= closed
    && if IsWithinLimits(cut, [])
       then r.value == cut && forall n :: |r.blocks| < n <= |closed| ==> !IsWithinLimits(cut, closed[..n])
       else r.value == "" && r.blocks == []
  }

  /** Text and blocks, without compactions, sources and reason, can be stored. */
  predicate IsWithinLimits(value: string, blocks: seq<ChatBlock>) {
    Safe(EnvelopeJson(Envelope(value, None, blocks, [], [], None)))
  }

  lemma LimitsAre(value: string, blocks: seq<ChatBlock>)
    ensures Holds(value, blocks) <==> IsWithinLimits(value, blocks)
  {
    hide EnvelopeJson, Safe;
  }

  lemma TrimmedIsBest(text: string, closed: seq<ChatBlock>)
    ensures IsBestPartial(Trimmed(Cut(text), closed), text, closed)
  {
    hide Holds, IsWithinLimits, Trimmed, Cut;
    CutIs(text);
    TrimmedIsLongest(Cut(text), closed);
    var (cut, r) := (text[..if |text| < 1000000 then |text| else 1000000], Trimmed(Cut(text), closed));
    LimitsAre(cut, []);
    LimitsAre(r.value, r.blocks);
    forall n | |r.blocks| < n <= |closed|
      ensures !IsWithinLimits(cut, closed[..n])
    {
      LimitsAre(cut, closed[..n]);
    }
  }

  lemma CutIs(text: string)
    ensures Cut(text) == text[..if |text| < 1000000 then |text| else 1000000]
  {
  }

  lemma BestAreClosed(r: Envelope, text: string, closed: seq<ChatBlock>, blocks: seq<ChatBlock>)
    ensures IsBestPartial(r, text, closed) && AreClosedFrom(closed, blocks) ==> AreClosedFrom(r.blocks, blocks)
  {
    hide IsWithinLimits, IsClosedFrom;
  }

  /**
   What `partial_result` makes of a reducer after any events, accepted or refused. It raises exactly where an unfinished
   tool block has no room for the note; otherwise the envelope is valid, all its blocks are terminal, they are the
   longest run of the reducer's blocks that fits, and its value is a prefix of the text that was streamed.
   */
  lemma PartialResultIsValid(provider: string, model: string, arrivals: seq<Arrival>)
    requires After(Initial(provider, model), arrivals).Some?
    ensures var s := After(Initial(provider, model), arrivals).value;
            if AllHaveRoom(s.blocks)
            then PartialResult(s).Some?
                 && IsBestPartial(PartialResult(s).value, Streamed(s.blocks), ClosedBlocks(s.blocks))
                 && AreClosedFrom(PartialResult(s).value.blocks, s.blocks)
            else PartialResult(s) == None
  {
    hide After, Holds, Joined, AllHaveRoom, ClosedBlocks, ClosedAll, IsCanonical, CollectedOk, Streamed;
    AnyRunIsShown(provider, model, arrivals);
    var s := After(Initial(provider, model), arrivals).value;
    OnlyToolBlocksFailToClose(s.blocks);
    if AllHaveRoom(s.blocks) {
      TrimmedIsBest(Joined(s.valueParts), ClosedBlocks(s.blocks));
      ClosedFrom(s.blocks);
      BestAreClosed(PartialResult(s).value, Streamed(s.blocks), ClosedBlocks(s.blocks), s.blocks);
      hide IsBestPartial, AreClosedFrom, Trimmed, Cut;
    }
  }

  // ----- A call without room for the note ------------------------------------------------------------

  function Nulls(n: nat): seq<Json> {
    if n == 0 then [] else [Null] + Nulls(n - 1)
  }

  /** A call with the arguments `{"a": [null, ...]}`. */
  function CrowdedCall(n: nat): ToolCall {
    ToolCall("c", "f", Obj(["a"], [Arr(Nulls(n))]))
  }

  const SOME_MINT := Mint("b", "2025-01-01T00:00:00Z")

  function CrowdedBlock(n: nat): ChatBlock {
    ToolBlock(SOME_MINT.id, "c", "f", CrowdedCall(n).arguments, None, Pending, SOME_MINT.timestamp)
  }

  function CrowdedMessage(n: nat): AssistantMessage {
    AssistantMessage(Null, [CrowdedCall(n)], None, None, None, false, false, None)
  }

  /** The model calls the tool, and the tool starts. */
  function CrowdedRun(n: nat): seq<Arrival> {
    [Arrival(AssistantSaid(CrowdedMessage(n)), SOME_MINT), Arrival(ToolStarted(CrowdedCall(n)), SOME_MINT)]
  }

  lemma {:induction false} NullsCount(n: nat)
    ensures NodesOfAll(Nulls(n)) == n == |Nulls(n)| && SizeOfAll(Nulls(n)) == 4 * n
    ensures HeightOfAll(Nulls(n)) == 0 && AllLeavesAreFine(Nulls(n))
  {
    if n > 0 {
      NullsCount(n - 1);
      assert Nulls(n)[1..] == Nulls(n - 1);
    }
  }

  lemma ArgumentsCount(n: nat)
    requires n > 0
    ensures var t := CrowdedCall(n).arguments;
            Nodes(t) == n + 3 && Size(t) == 5 * n + 7 && Height(t) == 2 && LeavesAreFine(t)
  {
    hide Nulls, EscapedBytes, NodesOfAll, SizeOfAll, HeightOfAll, AllLeavesAreFine;
    NullsCount(n);
    PlainBytes("a");
    OfOne(Arr(Nulls(n)));
    OfObjects(["a"], [Arr(Nulls(n))]);
    assert SizeOfKeys(["a"]) == 4;
  }

  /** Strings, each of at most 40 plain characters. */
  predicate ArePlain(texts: seq<string>) {
    forall k :: 0 <= k < |texts| ==> |texts[k]| <= 40 && forall i :: 0 <= i < |texts[k]| ==> IsPlain(texts[k][i])
  }

  function Strings(texts: seq<string>): seq<Json> {
    if texts == [] then [] else [Str(texts[0])] + Strings(texts[1..])
  }

  lemma {:induction false} PlainStringsCount(texts: seq<string>)
    requires ArePlain(texts)
    ensures NodesOfAll(Strings(texts)) == |texts| && SizeOfAll(Strings(texts)) <= 42 * |texts|
    ensures HeightOfAll(Strings(texts)) == 0 && AllLeavesAreFine(Strings(texts))
  {
    hide EscapedBytes;
    if texts != [] {
      PlainBytes(texts[0]);
      PlainStringsCount(texts[1..]);
      assert Strings(texts)[1..] == Strings(texts[1..]);
    }
  }

  lemma {:induction false} PlainKeysCount(keys: seq<string>)
    requires ArePlain(keys)
    ensures SizeOfKeys(keys) <= 43 * |keys| && AllShort(keys)
  {
    hide EscapedBytes;
    if keys != [] {
      PlainBytes(keys[0]);
      PlainKeysCount(keys[1..]);
      assert forall i :: 0 < i < |keys| ==> keys[i] == keys[1..][i - 1];
    }
  }

  const TEXT_KEYS := ["content", "id", "status", "timestamp", "type"]
  const TEXT_VALUES := ["", "b", "streaming", "2025-01-01T00:00:00Z", "text"]
  const TOOL_KEYS := ["id", "status", "timestamp", "tool_input", "tool_name", "tool_use_id", "type"]
  const FRONT_VALUES := ["b", "pending", "2025-01-01T00:00:00Z"]
  const BACK_VALUES := ["f", "c", "tool"]

  lemma KeysArePlain()
    ensures ArePlain(TEXT_KEYS) && ArePlain(TOOL_KEYS)
  {
  }

  lemma ValuesArePlain()
    ensures ArePlain(TEXT_VALUES) && ArePlain(FRONT_VALUES) && ArePlain(BACK_VALUES)
  {
    hide ArePlain;
    TextValuesArePlain();
    ToolValuesArePlain();
  }

  lemma TextValuesArePlain()
    ensures ArePlain(TEXT_VALUES)
  {
  }

  lemma ToolValuesArePlain()
    ensures ArePlain(FRONT_VALUES) && ArePlain(BACK_VALUES)
  {
  }

  lemma {:induction false} StringsAre(texts: seq<string>, values: seq<Json>)
    requires |texts| == |values| && forall i :: 0 <= i < |texts| ==> values[i] == Str(texts[i])
    ensures values == Strings(texts)
  {
    if texts != [] {
      StringsAre(texts[1..], values[1..]);
    }
  }

  lemma SmallTextIsSafe()
    ensures IsMint(SOME_MINT)
  {
    KeysArePlain();
    ValuesArePlain();
    hide NodesOfAll, SizeOfAll, HeightOfAll, AllLeavesAreFine, SizeOfKeys, AllShort, Strings, ArePlain;
    var t := BlockJson(TextBlock(SOME_MINT.id, "", Streaming, SOME_MINT.timestamp));
    assert t.keys == TEXT_KEYS;
    StringsAre(TEXT_VALUES, t.values);
    PlainStringsCount(TEXT_VALUES);
    PlainKeysCount(TEXT_KEYS);
    OfObjects(TEXT_KEYS, t.values);
  }

  lemma CrowdedBlockCounts(n: nat)
    requires n > 0
    ensures var t := BlockJson(CrowdedBlock(n));
            Nodes(t) == n + 17 && Size(t) <= 5 * n + 1000 && Height(t) == 3 && LeavesAreFine(t)
  {
    KeysArePlain();
    ValuesArePlain();
    hide Nodes, Size, Height, LeavesAreFine, NodesOfAll, SizeOfAll, HeightOfAll, AllLeavesAreFine, SizeOfKeys, AllShort,
      Strings, ArePlain, Nulls;
    var t := BlockJson(CrowdedBlock(n));
    var (front, back) := (Strings(FRONT_VALUES), Strings(BACK_VALUES));
    StringsAre(FRONT_VALUES, t.values[..3]);
    StringsAre(BACK_VALUES, t.values[4..]);
    PlainStringsCount(FRONT_VALUES);
    PlainStringsCount(BACK_VALUES);
    PlainKeysCount(TOOL_KEYS);
    ArgumentsCount(n);
    HeightsJoin(front, back);
    LeavesJoin(front, back);
    InTheMiddle(front, t.values[3], back);
    assert t.values == front + [t.values[3]] + back;
    OfObjects(TOOL_KEYS, t.values);
  }

  lemma CrowdedBlockIsCanonical(n: nat)
    requires Safe(BlockJson(CrowdedBlock(n)))
    ensures IsCanonical(CrowdedBlock(n)) && IsUnfinishedTool(CrowdedBlock(n))
  {
    hide Safe, BlockJson, Nulls;
    assert !IsSpace("c"[0]) && !IsSpace("f"[0]);
    assert !IsBlank("c") && !IsBlank("f");
  }

  lemma CrowdedBlockHasNoRoom(n: nat)
    requires 49980 <= n <= 49983
    ensures IsCanonical(CrowdedBlock(n)) && IsUnfinishedTool(CrowdedBlock(n)) && !HasRoomForNote(CrowdedBlock(n))
    ensures CrowdedCall(n).arguments.Obj? && Safe(CrowdedCall(n).arguments)
  {
    hide Nodes, Size, Height, LeavesAreFine, BlockJson, Nulls, IsCanonical;
    CrowdedBlockCounts(n);
    ArgumentsCount(n);
    CrowdedBlockIsCanonical(n);
  }

  lemma OneCallIsDeclared(call: ToolCall)
    requires call.arguments.Obj? && Safe(call.arguments)
    ensures AllCopy([call]) && DeclaredAll(map[], [call]) == (map[call.id := call], true)
  {
    hide Safe;
    assert [call][..0] == [];
    assert DeclaredAll(map[], []) == (map[], true);
  }

  lemma CrowdedCallIsSaid(provider: string, model: string, n: nat)
    requires CrowdedCall(n).arguments.Obj? && Safe(CrowdedCall(n).arguments)
    ensures var said := AcceptAssistant(Initial(provider, model), CrowdedMessage(n));
            && said.1.Some? && said.0.blocks == [] && said.0.started == {}
            && said.0.declared == map["c" := CrowdedCall(n)]
  {
    hide Safe, Nulls, AllCopy, DeclaredAll, WrittenAssistant;
    OneCallIsDeclared(CrowdedCall(n));
    assert Initial(provider, model).Unresolved() == {};
    assert Joined([]) == "";
  }

  lemma CrowdedCallStarts(s: State, n: nat)
    requires s.blocks == [] && s.started == {} && s.declared == map["c" := CrowdedCall(n)]
    requires IsCanonical(CrowdedBlock(n))
    ensures AcceptToolStart(s, CrowdedCall(n), SOME_MINT).1.Some?
    ensures AcceptToolStart(s, CrowdedCall(n), SOME_MINT).0.blocks == [CrowdedBlock(n)]
  {
    hide IsCanonical, Nulls;
  }

  lemma RunOfTwo(s: State, first: Arrival, second: Arrival)
    requires IsFresh(first.mint, s.blocks) && IsMint(first.mint) && IsMint(second.mint)
    requires Accept(s, first.event, first.mint).1.Some?
    requires var next := Accept(s, first.event, first.mint).0;
             IsFresh(second.mint, next.blocks) && Accept(next, second.event, second.mint).1.Some?
    ensures Run(s, [first, second]).Some?
    ensures Run(s, [first, second]).value.0
            == Accept(Accept(s, first.event, first.mint).0, second.event, second.mint).0
  {
    hide Run, Accept, IsFresh, IsMint;
    var next := Accept(s, first.event, first.mint).0;
    RunNext(s, first, [second]);
    RunNext(next, second, []);
    RunNone(Accept(next, second.event, second.mint).0);
    assert [second] + [] == [second] && [first] + [second] == [first, second];
  }

  lemma RunNone(s: State)
    ensures Run(s, []) == Some((s, []))
  {
  }

  lemma RunNext(s: State, first: Arrival, rest: seq<Arrival>)
    requires IsMint(first.mint) && IsFresh(first.mint, s.blocks) && Accept(s, first.event, first.mint).1.Some?
    ensures var next := Run(Accept(s, first.event, first.mint).0, rest);
            && (Run(s, [first] + rest).Some? <==> next.Some?)
            && (next.Some? ==> Run(s, [first] + rest).value.0 == next.value.0)
  {
    hide Accept, IsFresh, IsMint;
    assert ([first] + rest)[1..] == rest;
  }

  lemma CrowdedRunIs(provider: string, model: string, n: nat)
    requires 49980 <= n <= 49983
    ensures Run(Initial(provider, model), CrowdedRun(n)).Some?
    ensures Run(Initial(provider, model), CrowdedRun(n)).value.0.blocks == [CrowdedBlock(n)]
  {
    hide Run, IsMint, IsCanonical, Safe, HasRoomForNote, CrowdedBlock, CrowdedCall, AcceptAssistant, AcceptToolStart;
    SmallTextIsSafe();
    CrowdedBlockHasNoRoom(n);
    CrowdedCallIsSaid(provider, model, n);
    CrowdedCallStarts(AcceptAssistant(Initial(provider, model), CrowdedMessage(n)).0, n);
    RunOfTwo(Initial(provider, model), CrowdedRun(n)[0], CrowdedRun(n)[1]);
    assert CrowdedRun(n) == [CrowdedRun(n)[0], CrowdedRun(n)[1]];
  }

  /** So such a block is reached: after a run of two accepted events there is no partial result. */
  lemma CrowdedCallsHaveNoPartialResult(provider: string, model: string, n: nat)
    requires 49980 <= n <= 49983
    ensures Run(Initial(provider, model), CrowdedRun(n)).Some?
    ensures PartialResult(Run(Initial(provider, model), CrowdedRun(n)).value.0) == None
  {
    hide Run, After, IsCanonical, HasRoomForNote, CrowdedBlock, CrowdedRun, PartialResult, IsUnfinishedTool;
    CrowdedRunIs(provider, model, n);
    CrowdedBlockHasNoRoom(n);
    RunIsAfter(Initial(provider, model), CrowdedRun(n));
    PartialResultIsValid(provider, model, CrowdedRun(n));
    var blocks := Run(Initial(provider, model), CrowdedRun(n)).value.0.blocks;
    assert IsUnfinishedTool(blocks[0]) && !HasRoomForNote(blocks[0]);
  }
}
