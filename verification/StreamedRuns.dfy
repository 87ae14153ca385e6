/** A run as the stream store sees it: every emission is a write at its own time, and the store may refuse it. */
module StreamedRuns {
  import opened Outcomes
  import opened Texts
  import opened Utf8
  import opened JsonSafety
  import opened CanonicalText
  import opened ChatBlocks
  import opened BlockIds
  import opened Reduction
  import opened ReductionSafety
  import opened ReductionTheorems
  import opened Emissions
  import opened StreamSpec

  // ----- Writes --------------------------------------------------------------------------------------

  function Stored(b: ChatBlock): Block {
    Block(b.id, Print(BlockJson(b)))
  }

  /** What the emitter does with an emission: chunks are appended, blocks upserted. */
  function WriteOf(e: Emission, subtask: nat, generation: string): Op {
    match e
    case Chunk(id, _, offset, content) => Append(subtask, generation, id, offset, content)
    case Created(block) => Upsert(subtask, generation, Stored(block))
    case Updated(block) => Upsert(subtask, generation, Stored(block))
  }

  /** The store after one write per emission, each at its own time: `None` as soon as one is refused. */
  ghost function Written(m: Streams, subtask: nat, generation: string, ttl: nat, emissions: seq<Emission>,
                         times: seq<nat>): Option<Streams>
    requires |times| == |emissions|
    decreases |emissions|
  {
    if emissions == [] then Some(m)
    else
      var (next, reply) := Step(m, times[0], ttl, WriteOf(emissions[0], subtask, generation));
      if reply.Refused? then None else Written(next, subtask, generation, ttl, emissions[1..], times[1..])
  }

  /** No write comes a full time-to-live or more after the one before it. */
  predicate IsTimely(last: nat, ttl: nat, times: seq<nat>)
    decreases |times|
  {
    times == [] || (times[0] < last + ttl && IsTimely(times[0], ttl, times[1..]))
  }

  function LastOf(last: nat, times: seq<nat>): nat {
    if times == [] then last else times[|times| - 1]
  }

  // ----- What a stream gathers -----------------------------------------------------------------------

  /** What a client that reconnects recovers from a stream. */
  datatype Recovery = Recovery(text: string, blocks: seq<Block>)

  /** What one write does to it, and `None` where the store refuses the write at whatever time. */
  function Received(r: Recovery, e: Emission): Option<Recovery> {
    match e
    case Chunk(id, _, offset, content) =>
      if IsBlockId(id) && offset == Utf16Length(r.text) then Some(r.(text := r.text + content)) else None
    case Created(block) => Put(r, block)
    case Updated(block) => Put(r, block)
  }

  function Put(r: Recovery, b: ChatBlock): Option<Recovery> {
    if IsBlockId(b.id) && IsWithinCap(Stored(b).json) then Some(r.(blocks := PutBlock(r.blocks, Stored(b)))) else None
  }

  function Gathered(r: Recovery, emissions: seq<Emission>): Option<Recovery>
    decreases |emissions|
  {
    if emissions == [] then Some(r)
    else
      var next :- Received(r, emissions[0]);
      Gathered(next, emissions[1..])
  }

  lemma GatheredNone(r: Recovery)
    ensures Gathered(r, []) == Some(r)
  {
  }

  lemma GatheredOne(r: Recovery, e: Emission)
    ensures Gathered(r, [e]) == Received(r, e)
  {
    hide Received;
    assert [e][1..] == [];
  }

  lemma {:induction false} GatheredAdds(r: Recovery, a: seq<Emission>, b: seq<Emission>)
    requires Gathered(r, a).Some?
    ensures Gathered(r, a + b) == Gathered(Gathered(r, a).value, b)
    decreases |a|
  {
    hide Received;
    if a == [] {
      assert a + b == b;
    } else {
      assert (a + b)[1..] == a[1..] + b;
      GatheredAdds(Received(r, a[0]).value, a[1..], b);
    }
  }

  predicate Holds(m: Streams, subtask: nat, generation: string, until: nat, r: Recovery) {
    && subtask > 0 && !IsBlank(generation)
    && subtask in m && m[subtask].generation == generation && m[subtask].expiresAt == until
    && m[subtask].text == r.text && m[subtask].blocks == r.blocks
  }

  lemma OneAppend(m: Streams, subtask: nat, generation: string, until: nat, r: Recovery, id: string, content: string,
                  now: nat, ttl: nat)
    requires Holds(m, subtask, generation, until, r) && IsBlockId(id)
    ensures var (next, reply) := Step(m, now, ttl, Append(subtask, generation, id, Utf16Length(r.text), content));
            && (reply.Refused? <==> until <= now)
            && (now < until ==> Holds(next, subtask, generation, now + ttl, r.(text := r.text + content)))
  {
    hide IsBlank, IsBlockId, Utf16Length;
  }

  lemma OneUpsert(m: Streams, subtask: nat, generation: string, until: nat, r: Recovery, block: Block, now: nat,
                  ttl: nat)
    requires Holds(m, subtask, generation, until, r) && IsBlockId(block.id) && IsWithinCap(block.json)
    ensures var (next, reply) := Step(m, now, ttl, Upsert(subtask, generation, block));
            && (reply.Refused? <==> until <= now)
            && (now < until ==>
                  Holds(next, subtask, generation, now + ttl, r.(blocks := PutBlock(r.blocks, block))))
  {
    hide IsBlank, IsBlockId, IsWithinCap, PutBlock;
  }

  /** An acceptable write is refused only after the deadline, and otherwise renews it. */
  lemma OneWrite(m: Streams, subtask: nat, generation: string, until: nat, r: Recovery, e: Emission, now: nat, ttl: nat)
    requires Holds(m, subtask, generation, until, r) && Received(r, e).Some?
    ensures Step(m, now, ttl, WriteOf(e, subtask, generation)).1.Refused? <==> until <= now
    ensures now < until ==> Holds(Step(m, now, ttl, WriteOf(e, subtask, generation)).0, subtask, generation, now + ttl,
                                  Received(r, e).value)
  {
    hide Holds, Step, IsBlockId, IsWithinCap, Utf16Length, PutBlock, Print, BlockJson;
    match e
    case Chunk(id, _, _, content) => OneAppend(m, subtask, generation, until, r, id, content, now, ttl);
    case Created(block) => OneUpsert(m, subtask, generation, until, r, Stored(block), now, ttl);
    case Updated(block) => OneUpsert(m, subtask, generation, until, r, Stored(block), now, ttl);
  }

  /** On a stream that holds what was gathered so far, exactly the timely writes succeed. */
  lemma {:induction false} WritesNeedTime(m: Streams, subtask: nat, generation: string, last: nat, ttl: nat,
                                          r: Recovery, emissions: seq<Emission>, times: seq<nat>)
    requires Holds(m, subtask, generation, last + ttl, r) && Gathered(r, emissions).Some?
    requires |times| == |emissions|
    ensures var after := Written(m, subtask, generation, ttl, emissions, times);
            && (after.Some? <==> IsTimely(last, ttl, times))
            && (after.Some? ==>
                  Holds(after.value, subtask, generation, LastOf(last, times) + ttl, Gathered(r, emissions).value))
    decreases |emissions|
  {
    hide Holds, Received, Step, WriteOf;
    if emissions != [] {
      OneWrite(m, subtask, generation, last + ttl, r, emissions[0], times[0], ttl);
      if times[0] < last + ttl {
        WritesNeedTime(Step(m, times[0], ttl, WriteOf(emissions[0], subtask, generation)).0, subtask, generation,
                       times[0], ttl, Received(r, emissions[0]).value, emissions[1..], times[1..]);
      }
    }
  }

  // ----- What the reducer emits ----------------------------------------------------------------------

  lemma CanonicalFits(b: ChatBlock)
    requires IsCanonical(b)
    ensures IsBlockId(b.id) && IsWithinCap(Stored(b).json)
  {
    hide IsBlockId, IsBlank, Nodes, Height, LeavesAreFine, Encode, Size, BlockJson;
    SizeIsTheLength(BlockJson(b));
    PrintedBlock(b);
  }

  lemma PrintedBlock(b: ChatBlock)
    ensures Print(BlockJson(b)) != ""
  {
    assert BlockJson(b).Obj?;
  }

  lemma PutCanonical(r: Recovery, b: ChatBlock)
    requires IsCanonical(b)
    ensures Put(r, b) == Some(r.(blocks := PutBlock(r.blocks, Stored(b))))
  {
    hide IsCanonical, IsBlockId, IsWithinCap, Stored, PutBlock;
    CanonicalFits(b);
  }

  /** An open text block was stored when it was created; its text is in the chunks. */
  function AsStored(b: ChatBlock, open: bool): Block {
    Stored(if open && b.TextBlock? then b.(content := "") else b)
  }

  function StoredAll(blocks: seq<ChatBlock>, open: Option<nat>): (stored: seq<Block>)
    ensures |stored| == |blocks|
    ensures forall i :: 0 <= i < |blocks| ==> stored[i] == AsStored(blocks[i], open == Some(i))
  {
    seq(|blocks|, i requires 0 <= i < |blocks| => AsStored(blocks[i], open == Some(i)))
  }

  /** All the text so far, and all blocks: the open one as it was created, every other one as it is. */
  function Shown(s: State): Recovery {
    Recovery(Joined(s.valueParts), StoredAll(s.blocks, s.textIndex))
  }

  lemma StoredNext(blocks: seq<ChatBlock>, open: Option<nat>, b: ChatBlock, next: Option<nat>)
    requires forall i :: 0 <= i < |blocks| ==> blocks[i].id != b.id
    requires open.Some? ==> open.value < |blocks|
    requires next == open || (open.None? && next == Some(|blocks|) && AsStored(b, true) == Stored(b))
    ensures PutBlock(StoredAll(blocks, open), Stored(b)) == StoredAll(blocks + [b], next)
  {
    hide PutBlock, BlockJson;
    PutBlockAt(StoredAll(blocks, open), Stored(b), |blocks|);
  }

  lemma StoredChanges(blocks: seq<ChatBlock>, open: Option<nat>, i: nat, b: ChatBlock, next: Option<nat>)
    requires i < |blocks| && b.id == blocks[i].id && forall j :: 0 <= j < i ==> blocks[j].id != b.id
    requires next != Some(i) && (next == open || (open == Some(i) && next.None?))
    ensures PutBlock(StoredAll(blocks, open), Stored(b)) == StoredAll(blocks[i := b], next)
  {
    hide PutBlock, BlockJson;
    PutBlockAt(StoredAll(blocks, open), Stored(b), i);
  }

  lemma OpeningGathers(s: State, mint: Mint)
    requires Inv(s) && IsFresh(mint, s.blocks) && s.Unresolved() == {}
    ensures Gathered(Shown(s), OpeningEmissions(s, mint)) == Some(Shown(Opened(s, mint)))
  {
    hide Inv, IsMint, IsCanonical, Received, Joined, Gathered, StoredAll, Stored, PutBlock;
    if s.textIndex.None? {
      var b := TextBlock(mint.id, "", Streaming, mint.timestamp);
      OpenedKeeps(s, mint);
      IdsDiffer(Opened(s, mint));
      StoredNext(s.blocks, None, b, Some(|s.blocks|));
      PutCanonical(Shown(s), b);
      GatheredOne(Shown(s), Created(b));
      PutIs(Shown(s), b);
    } else {
      GatheredNone(Shown(s));
    }
  }

  lemma PutIs(r: Recovery, b: ChatBlock)
    ensures Received(r, Created(b)) == Put(r, b) && Received(r, Updated(b)) == Put(r, b)
  {
  }

  /** A chunk adds to the text and leaves the open block as it was created. */
  lemma ChunkGathers(o: State, content: string)
    requires Inv(o) && o.textIndex.Some? && o.textIndex.value < |o.blocks|
    requires AppendTextBlock(o.blocks[o.textIndex.value], content, None).Some?
    ensures var b := AppendTextBlock(o.blocks[o.textIndex.value], content, None).value;
            Gathered(Shown(o), [Chunk(b.id, o.textOffset, o.valueOffset, content)]) == Some(Shown(Grown(o, content, b)))
  {
    hide Inv, IsCanonical, IsBlockId, Received, Joined, Gathered, StoredAll, Utf16Length, AppendTextBlock;
    var i := o.textIndex.value;
    var b := AppendTextBlock(o.blocks[i], content, None).value;
    IdsDiffer(o);
    CanonicalFits(o.blocks[i]);
    GrownBlock(o.blocks[i], content);
    ValueOffsetIs(o);
    GatheredOne(Shown(o), Chunk(b.id, o.textOffset, o.valueOffset, content));
    ReceivedChunk(Shown(o), b.id, o.textOffset, o.valueOffset, content);
    JoinedNext(o.valueParts, content);
    StoredStays(o.blocks, i, b);
  }

  lemma StoredStays(blocks: seq<ChatBlock>, i: nat, b: ChatBlock)
    requires i < |blocks| && blocks[i].TextBlock? && b.TextBlock?
    requires b == blocks[i].(content := b.content)
    ensures StoredAll(blocks[i := b], Some(i)) == StoredAll(blocks, Some(i))
  {
    hide BlockJson;
  }

  lemma ReceivedChunk(r: Recovery, id: string, blockOffset: nat, offset: nat, content: string)
    requires IsBlockId(id) && offset == Utf16Length(r.text)
    ensures Received(r, Chunk(id, blockOffset, offset, content)) == Some(r.(text := r.text + content))
  {
    hide IsBlockId, Utf16Length;
  }

  lemma GrownBlock(b: ChatBlock, content: string)
    requires AppendTextBlock(b, content, None).Some?
    ensures b.TextBlock? && AppendTextBlock(b, content, None).value == b.(content := b.content + content)
  {
    hide IsCanonical;
  }

  lemma ValueOffsetIs(s: State)
    requires Inv(s)
    ensures s.valueOffset == Utf16Length(Joined(s.valueParts))
  {
    hide BlocksOk, TextOk, CallsOk, ToolsOk, RecordsOk, ShapeOk, Streamed;
  }

  lemma DeltaGathers(s: State, content: string, mint: Mint)
    requires Inv(s) && IsMint(mint) && IsFresh(mint, s.blocks) && AcceptDelta(s, content, mint).1.Some?
    ensures Gathered(Shown(s), AcceptDelta(s, content, mint).1.value) == Some(Shown(AcceptDelta(s, content, mint).0))
  {
    hide Inv, IsMint, IsFresh, AcceptDelta, AppendTextBlock, Opened, OpeningEmissions, Grown, Gathered, Shown;
    DeltaIs(s, content, mint);
    if content == "" {
      GatheredNone(Shown(s));
    } else {
      var o := Opened(s, mint);
      OpenedKeeps(s, mint);
      var b := AppendTextBlock(o.blocks[o.textIndex.value], content, None).value;
      OpeningGathers(s, mint);
      ChunkGathers(o, content);
      GatheredAdds(Shown(s), OpeningEmissions(s, mint), [Chunk(b.id, o.textOffset, o.valueOffset, content)]);
    }
  }

  /** Block `i` became `b`, and is not open any more if it was. */
  lemma ChangeGathers(s: State, i: nat, b: ChatBlock, next: State)
    requires Inv(s) && i < |s.blocks| && b.id == s.blocks[i].id && IsCanonical(b)
    requires next.blocks == s.blocks[i := b] && next.valueParts == s.valueParts && next.textIndex != Some(i)
    requires next.textIndex == s.textIndex || (s.textIndex == Some(i) && next.textIndex.None?)
    ensures Gathered(Shown(s), [Updated(b)]) == Some(Shown(next))
  {
    hide Inv, IsCanonical, Received, Gathered, StoredAll, Stored, PutBlock, Joined;
    IdsDiffer(s);
    StoredChanges(s.blocks, s.textIndex, i, b, next.textIndex);
    PutCanonical(Shown(s), b);
    PutIs(Shown(s), b);
    GatheredOne(Shown(s), Updated(b));
  }

  lemma AssistantGathers(s: State, m: AssistantMessage)
    requires Inv(s) && AcceptAssistant(s, m).1.Some?
    ensures Gathered(Shown(s), AcceptAssistant(s, m).1.value) == Some(Shown(AcceptAssistant(s, m).0))
  {
    hide Inv, IsCanonical, VisibleText, Joined, AllCopy, DeclaredAll, WrittenAssistant, Gathered, StoredAll;
    if s.textIndex.None? {
      GatheredNone(Shown(s));
    } else {
      var i := s.textIndex.value;
      var b := AppendTextBlock(s.blocks[i], "", Some(BlockStatus.Done)).value;
      ChangeGathers(s, i, b, AcceptAssistant(s, m).0);
    }
  }

  lemma ToolStartGathers(s: State, call: ToolCall, mint: Mint)
    requires Inv(s) && IsFresh(mint, s.blocks) && AcceptToolStart(s, call, mint).1.Some?
    ensures Gathered(Shown(s), AcceptToolStart(s, call, mint).1.value) == Some(Shown(AcceptToolStart(s, call, mint).0))
  {
    hide Inv, IsCanonical, IsMint, Received, Gathered, StoredAll, Stored, PutBlock, Joined;
    var b := CreateToolBlock(call, mint.id, mint.timestamp).value;
    if s.textIndex.Some? {
      OpenText(s);
    }
    StoredNext(s.blocks, s.textIndex, b, s.textIndex);
    PutCanonical(Shown(s), b);
    PutIs(Shown(s), b);
    GatheredOne(Shown(s), Created(b));
  }

  lemma ResultGathers(s: State, call: ToolCall, r: ToolResult)
    requires Inv(s) && AcceptToolResult(s, call, r).1.Some?
    ensures Gathered(Shown(s), AcceptToolResult(s, call, r).1.value) == Some(Shown(AcceptToolResult(s, call, r).0))
  {
    hide Inv, IsCanonical, Safe, Gathered, StoredAll, Joined, CollectedSources, CollectedReason, WrittenResult;
    var i := s.toolIndexes[call.id];
    var b := ApplyToolResult(s.blocks[i], r).value;
    if s.textIndex.Some? {
      OpenText(s);
    }
    IdsDiffer(s);
    ChangeGathers(s, i, b, AcceptToolResult(s, call, r).0);
  }

  lemma AcceptGathers(s: State, event: Event, mint: Mint)
    requires Inv(s) && IsMint(mint) && IsFresh(mint, s.blocks) && Accept(s, event, mint).1.Some?
    ensures Gathered(Shown(s), Accept(s, event, mint).1.value) == Some(Shown(Accept(s, event, mint).0))
  {
    hide Inv, IsFresh, IsMint, AcceptDelta, AcceptAssistant, AcceptToolStart, AcceptToolResult, Gathered, Shown;
    match event
    case TextDelta(content) => DeltaGathers(s, content, mint);
    case AssistantSaid(message) => AssistantGathers(s, message);
    case ToolStarted(call) => ToolStartGathers(s, call, mint);
    case ToolAnswered(call, result) => ResultGathers(s, call, result);
  }

  /** Nothing that a run emits is refused for what it is, and together it amounts to the text and the blocks. */
  lemma {:induction false} RunGathers(s: State, arrivals: seq<Arrival>)
    requires Inv(s) && Run(s, arrivals).Some?
    ensures Gathered(Shown(s), Run(s, arrivals).value.1) == Some(Shown(Run(s, arrivals).value.0))
    decreases |arrivals|
  {
    hide Inv, Accept, IsFresh, Gathered, Shown;
    if arrivals == [] {
      GatheredNone(Shown(s));
    } else {
      var (event, mint) := (arrivals[0].event, arrivals[0].mint);
      ReductionTheorems.FreshIsMint(mint, s.blocks);
      AcceptKeeps(s, event, mint);
      AcceptGathers(s, event, mint);
      var (next, accepted) := Accept(s, event, mint);
      RunGathers(next, arrivals[1..]);
      GatheredAdds(Shown(s), accepted.value, Run(next, arrivals[1..]).value.1);
    }
  }

  // ----- Whole runs ----------------------------------------------------------------------------------

  lemma StartedHolds(m: Streams, now: nat, ttl: nat, task: nat, subtask: nat, generation: string)
    requires Accepts(Op.Start(task, subtask, generation))
    ensures Holds(Step(m, now, ttl, Op.Start(task, subtask, generation)).0, subtask, generation, now + ttl,
                  Recovery("", []))
  {
    hide IsBlank;
  }

  /**
   Every emission of a run is written at its own time, into a stream that was started before. All writes are accepted
   if and only if each comes within the time-to-live of the one before; the stream then holds the text of the run and
   its blocks, until a time-to-live after the last write.
   */
  lemma WholeRunStreams(provider: string, model: string, arrivals: seq<Arrival>, m: Streams, start: nat, ttl: nat,
                        task: nat, subtask: nat, generation: string, times: seq<nat>)
    requires Run(Initial(provider, model), arrivals).Some? && Accepts(Op.Start(task, subtask, generation))
    requires |times| == |Run(Initial(provider, model), arrivals).value.1|
    ensures var started := Step(m, start, ttl, Op.Start(task, subtask, generation)).0;
            var (end, emissions) := Run(Initial(provider, model), arrivals).value;
            var after := Written(started, subtask, generation, ttl, emissions, times);
            && (after.Some? <==> IsTimely(start, ttl, times))
            && (after.Some? ==> Holds(after.value, subtask, generation, LastOf(start, times) + ttl, Shown(end)))
  {
    hide Inv, Run, Written, Gathered, Holds, IsTimely, Step;
    InitialIsSafe(provider, model);
    NothingJoined();
    assert Shown(Initial(provider, model)) == Recovery("", []);
    RunGathers(Initial(provider, model), arrivals);
    StartedHolds(m, start, ttl, task, subtask, generation);
    var started := Step(m, start, ttl, Op.Start(task, subtask, generation)).0;
    WritesNeedTime(started, subtask, generation, start, ttl, Recovery("", []),
                   Run(Initial(provider, model), arrivals).value.1, times);
  }
}
