/** Which event may come next in a run, said over the events before it: everything else is refused. */
module Acceptance {
  import opened Outcomes
  import opened Texts
  import opened JsonSafety
  import opened ChatBlocks
  import opened MessageChain
  import opened Reduction
  import opened ReductionSafety
  import opened ReductionTheorems
  import opened RunRecords

  // ----- What a run has seen -------------------------------------------------------------------------

  /** The calls of all messages so far. */
  function DeclaredBy(arrivals: seq<Arrival>): seq<ToolCall> {
    if arrivals == [] then []
    else
      var e := arrivals[0].event;
      (if e.AssistantSaid? then e.message.toolCalls else []) + DeclaredBy(arrivals[1..])
  }

  function StartedBy(arrivals: seq<Arrival>): set<string> {
    set i | 0 <= i < |arrivals| && arrivals[i].event.ToolStarted? :: arrivals[i].event.call.id
  }

  function AnsweredBy(arrivals: seq<Arrival>): set<string> {
    set i | 0 <= i < |arrivals| && arrivals[i].event.ToolAnswered? :: arrivals[i].event.call.id
  }

  /** The chunks of text that were streamed since the last message. */
  function PendingAfter(before: seq<string>, arrivals: seq<Arrival>): seq<string>
    decreases |arrivals|
  {
    if arrivals == [] then before
    else
      match arrivals[0].event
      case TextDelta(content) => PendingAfter(if content == "" then before else before + [content], arrivals[1..])
      case AssistantSaid(_) => PendingAfter([], arrivals[1..])
      case _ => PendingAfter(before, arrivals[1..])
  }

  /** No call is waiting for its result. */
  predicate AllAnswered(arrivals: seq<Arrival>) {
    forall i :: 0 <= i < |DeclaredBy(arrivals)| ==> DeclaredBy(arrivals)[i].id in AnsweredBy(arrivals)
  }

  // ----- What may come next --------------------------------------------------------------------------

  /** The block that the next text goes to: the last one if it is an open text, otherwise a new one. */
  function OpenBlock(blocks: seq<ChatBlock>, mint: Mint): (b: ChatBlock)
    ensures b.TextBlock?
  {
    var n := |blocks|;
    if n > 0 && blocks[n - 1].TextBlock? && blocks[n - 1].status == Streaming then blocks[n - 1]
    else TextBlock(mint.id, "", Streaming, mint.timestamp)
  }

  function PendingBlock(call: ToolCall, mint: Mint): ChatBlock {
    ToolBlock(mint.id, call.id, call.name, call.arguments, None, BlockStatus.Pending, mint.timestamp)
  }

  /** The result can be stored, alone and in the block of its call. */
  predicate HasRoomForResult(b: ChatBlock, r: ToolResult)
    requires b.ToolBlock?
  {
    var status := if r.isError then Error else BlockStatus.Done;
    && Safe(Str(r.content))
    && Safe(BlockJson(ToolBlock(b.id, b.toolUseId, b.toolName, b.toolInput, Some(Str(r.content)), status, b.timestamp)))
  }

  predicate AreStorable(calls: seq<ToolCall>) {
    forall i :: 0 <= i < |calls| ==> calls[i].arguments.Obj? && Safe(calls[i].arguments)
  }

  /** No two calls have the same id, and no message before declared one of them. */
  predicate AreNewAfter(arrivals: seq<Arrival>, calls: seq<ToolCall>) {
    && (forall i, j :: 0 <= i < j < |calls| ==> calls[i].id != calls[j].id)
    && forall i :: 0 <= i < |calls| ==> forall call :: call in DeclaredBy(arrivals) ==> call.id != calls[i].id
  }

  /** What the message shows is the text streamed since the last one, and it comes from the model of this run. */
  predicate MayBeSaid(arrivals: seq<Arrival>, m: AssistantMessage, provider: string, model: string) {
    && AllAnswered(arrivals)
    && VisibleText(m.content) == Some(Joined(PendingAfter([], arrivals)))
    && (m.provider == None || m.provider == Some(provider)) && (m.model == None || m.model == Some(model))
    && AreStorable(m.toolCalls) && AreNewAfter(arrivals, m.toolCalls)
  }

  /** The next event, given the events so far and the blocks they left. */
  predicate MayCome(arrivals: seq<Arrival>, blocks: seq<ChatBlock>, event: Event, mint: Mint, provider: string,
                    model: string)
  {
    match event
    case TextDelta(content) =>
      content == "" || (AllAnswered(arrivals) && HasRoomFor(OpenBlock(blocks, mint), content))
    case AssistantSaid(m) => MayBeSaid(arrivals, m, provider, model)
    case ToolStarted(call) =>
      call in DeclaredBy(arrivals) && call.id !in StartedBy(arrivals) && IsCanonical(PendingBlock(call, mint))
    case ToolAnswered(call, r) =>
      && call in DeclaredBy(arrivals) && call.id in StartedBy(arrivals) && call.id !in AnsweredBy(arrivals)
      && r.callId == call.id
      && exists i :: 0 <= i < |blocks| && IsBlockOf(blocks[i], call.id) && HasRoomForResult(blocks[i], r)
  }

  // ----- The state is the history --------------------------------------------------------------------

  predicate Knows(s: State, call: ToolCall) {
    call.id in s.declared && s.declared[call.id] == call
  }

  /** No id stands there twice, and none is taken. */
  predicate AreNew(declared: map<string, ToolCall>, calls: seq<ToolCall>) {
    && (forall i :: 0 <= i < |calls| ==> calls[i].id !in declared)
    && forall i, j :: 0 <= i < j < |calls| ==> calls[i].id != calls[j].id
  }

  lemma NewNext(declared: map<string, ToolCall>, calls: seq<ToolCall>)
    requires calls != []
    ensures var (init, last) := (calls[..|calls| - 1], calls[|calls| - 1]);
            AreNew(declared, calls)
            <==> AreNew(declared, init) && last.id !in declared && forall c :: c in init ==> c.id != last.id
  {
    var (init, last) := (calls[..|calls| - 1], calls[|calls| - 1]);
    assert forall i :: 0 <= i < |init| ==> init[i] == calls[i] && init[i] in init;
  }

  lemma {:induction false} DeclaredAre(declared: map<string, ToolCall>, calls: seq<ToolCall>)
    ensures DeclaredAll(declared, calls).1 <==> AreNew(declared, calls)
    ensures var after := DeclaredAll(declared, calls).0;
            DeclaredAll(declared, calls).1 ==>
              && (forall id :: id in after <==> id in declared || exists c :: c in calls && c.id == id)
              && forall call: ToolCall ::
                   (call.id in after && after[call.id] == call)
                   <==> (call.id in declared && declared[call.id] == call) || call in calls
  {
    if calls != [] {
      var (init, last) := (calls[..|calls| - 1], calls[|calls| - 1]);
      DeclaredAre(declared, init);
      NewNext(declared, calls);
      hide AreNew;
      assert calls == init + [last];
      var (before, fine) := DeclaredAll(declared, init);
      if fine && last.id !in before {
        var after := before[last.id := last];
        assert DeclaredAll(declared, calls) == (after, true);
        hide DeclaredAll;
        forall call: ToolCall
          ensures (call.id in after && after[call.id] == call)
                  <==> (call.id in declared && declared[call.id] == call) || call in calls
        {
          assert call in calls <==> call in init || call == last;
        }
        forall id
          ensures id in after <==> id in declared || exists c :: c in calls && c.id == id
        {
          if c :| c in init && c.id == id {
            assert c in calls;
          }
          if id == last.id {
            assert last in calls;
          }
        }
      }
    }
  }

  lemma SeenNext(arrivals: seq<Arrival>)
    requires arrivals != []
    ensures var e := arrivals[0].event;
            && StartedBy(arrivals) == (if e.ToolStarted? then {e.call.id} else {}) + StartedBy(arrivals[1..])
            && AnsweredBy(arrivals) == (if e.ToolAnswered? then {e.call.id} else {}) + AnsweredBy(arrivals[1..])
  {
    var rest := arrivals[1..];
    assert forall i :: 0 <= i < |rest| ==> rest[i] == arrivals[i + 1];
    assert forall i :: 0 < i < |arrivals| ==> arrivals[i] == rest[i - 1];
  }

  lemma OneSeen(a: Arrival, before: seq<string>)
    ensures StartedBy([a]) == if a.event.ToolStarted? then {a.event.call.id} else {}
    ensures AnsweredBy([a]) == if a.event.ToolAnswered? then {a.event.call.id} else {}
    ensures DeclaredBy([a]) == if a.event.AssistantSaid? then a.event.message.toolCalls else []
    ensures PendingAfter(before, [a])
            == if a.event.AssistantSaid? then []
               else if a.event.TextDelta? && a.event.content != "" then before + [a.event.content] else before
  {
    SeenNext([a]);
    assert [a][1..] == [] && StartedBy([]) == {} && AnsweredBy([]) == {} && DeclaredBy([]) == [];
  }

  lemma PendingNext(before: seq<string>, arrivals: seq<Arrival>)
    requires arrivals != []
    ensures PendingAfter(before, arrivals) == PendingAfter(PendingAfter(before, [arrivals[0]]), arrivals[1..])
    ensures DeclaredBy(arrivals) == DeclaredBy([arrivals[0]]) + DeclaredBy(arrivals[1..])
  {
    OneSeen(arrivals[0], before);
  }

  /** From `s` to `t` with these events between them. */
  predicate Tracks(s: State, t: State, arrivals: seq<Arrival>) {
    && t.provider == s.provider && t.model == s.model
    && t.started == s.started + StartedBy(arrivals) && t.resolved == s.resolved + AnsweredBy(arrivals)
    && t.pending == PendingAfter(s.pending, arrivals)
  }

  ghost predicate Learns(s: State, t: State, arrivals: seq<Arrival>) {
    forall call :: Knows(t, call) <==> Knows(s, call) || call in DeclaredBy(arrivals)
  }

  lemma DeltaTracks(s: State, content: string, mint: Mint)
    requires IsMint(mint) && AcceptDelta(s, content, mint).1.Some?
    ensures var t := AcceptDelta(s, content, mint).0;
            && t.provider == s.provider && t.model == s.model && t.started == s.started && t.resolved == s.resolved
            && t.declared == s.declared && t.pending == if content == "" then s.pending else s.pending + [content]
  {
    hide IsMint, AppendTextBlock, AcceptDelta;
    DeltaIs(s, content, mint);
  }

  lemma AssistantTracks(s: State, m: AssistantMessage)
    requires AcceptAssistant(s, m).1.Some?
    ensures var t := AcceptAssistant(s, m).0;
            && t.provider == s.provider && t.model == s.model && t.started == s.started && t.resolved == s.resolved
            && t.pending == [] && DeclaredAll(s.declared, m.toolCalls) == (t.declared, true)
  {
    hide VisibleText, Joined, AllCopy, DeclaredAll, AppendTextBlock, WrittenAssistant;
  }

  lemma OthersTrack(s: State, event: Event, mint: Mint)
    requires IsMint(mint) && Accept(s, event, mint).1.Some? && (event.ToolStarted? || event.ToolAnswered?)
    ensures var t := Accept(s, event, mint).0;
            && t.provider == s.provider && t.model == s.model && t.pending == s.pending && t.declared == s.declared
            && t.started == s.started + (if event.ToolStarted? then {event.call.id} else {})
            && t.resolved == s.resolved + (if event.ToolAnswered? then {event.call.id} else {})
  {
    hide IsMint, CreateToolBlock, ApplyToolResult, CollectedSources, CollectedReason, WrittenResult;
  }

  lemma AcceptTracks(s: State, a: Arrival)
    requires IsMint(a.mint) && Accept(s, a.event, a.mint).1.Some?
    ensures Tracks(s, Accept(s, a.event, a.mint).0, [a]) && Learns(s, Accept(s, a.event, a.mint).0, [a])
  {
    hide IsMint, AcceptDelta, AcceptAssistant, AcceptToolStart, AcceptToolResult, DeclaredAll;
    OneSeen(a, s.pending);
    hide StartedBy, AnsweredBy, DeclaredBy, PendingAfter;
    assert s.started + {} == s.started && s.resolved + {} == s.resolved;
    match a.event
    case TextDelta(content) => DeltaTracks(s, content, a.mint);
    case AssistantSaid(m) =>
      AssistantTracks(s, m);
      DeclaredAre(s.declared, m.toolCalls);
    case _ => OthersTrack(s, a.event, a.mint);
  }

  lemma {:induction false} RunTracks(s: State, arrivals: seq<Arrival>)
    requires Run(s, arrivals).Some?
    ensures Tracks(s, Run(s, arrivals).value.0, arrivals) && Learns(s, Run(s, arrivals).value.0, arrivals)
    decreases |arrivals|
  {
    hide Accept, IsFresh, IsMint, Knows;
    if arrivals == [] {
      assert StartedBy([]) == {} && AnsweredBy([]) == {} && DeclaredBy([]) == [];
    } else {
      var a := arrivals[0];
      FreshIsMint(a.mint, s.blocks);
      AcceptTracks(s, a);
      SeenNext(arrivals);
      OneSeen(a, s.pending);
      PendingNext(s.pending, arrivals);
      RunTracks(Accept(s, a.event, a.mint).0, arrivals[1..]);
      hide StartedBy, AnsweredBy, DeclaredBy, PendingAfter;
      assert s.started + (StartedBy([a]) + StartedBy(arrivals[1..]))
          == s.started + StartedBy([a]) + StartedBy(arrivals[1..]);
    }
  }

  /** What a reducer knows is what the run said. */
  ghost predicate IsStateOf(s: State, arrivals: seq<Arrival>, provider: string, model: string) {
    && Inv(s) && s.provider == provider && s.model == model
    && s.started == StartedBy(arrivals) && s.resolved == AnsweredBy(arrivals)
    && s.pending == PendingAfter([], arrivals)
    && (forall call :: Knows(s, call) <==> call in DeclaredBy(arrivals))
    && (forall id :: id in s.declared <==> exists call :: call in DeclaredBy(arrivals) && call.id == id)
    && (s.Unresolved() == {} <==> AllAnswered(arrivals))
  }

  lemma StateIsTheRun(provider: string, model: string, arrivals: seq<Arrival>)
    requires Run(Initial(provider, model), arrivals).Some?
    ensures IsStateOf(Run(Initial(provider, model), arrivals).value.0, arrivals, provider, model)
  {
    hide Run, Inv;
    InitialIsSafe(provider, model);
    RunKeeps(Initial(provider, model), arrivals);
    RunTracks(Initial(provider, model), arrivals);
    var s := Run(Initial(provider, model), arrivals).value.0;
    DeclaredNamesItself(s);
    forall id | id in s.declared
      ensures exists call :: call in DeclaredBy(arrivals) && call.id == id
    {
      assert Knows(s, s.declared[id]);
    }
    forall id | exists call :: call in DeclaredBy(arrivals) && call.id == id
      ensures id in s.declared
    {
      var call :| call in DeclaredBy(arrivals) && call.id == id;
      assert Knows(s, call);
    }
    if s.Unresolved() == {} {
      forall i | 0 <= i < |DeclaredBy(arrivals)|
        ensures DeclaredBy(arrivals)[i].id in AnsweredBy(arrivals)
      {
        assert DeclaredBy(arrivals)[i] in DeclaredBy(arrivals);
        assert DeclaredBy(arrivals)[i].id !in s.Unresolved();
      }
    }
  }

  lemma DeclaredNamesItself(s: State)
    requires Inv(s)
    ensures forall id :: id in s.declared ==> s.declared[id].id == id
  {
    hide BlocksOk, TextOk, ValueOk, ToolsOk, RecordsOk, ShapeOk, Safe;
  }

  // ----- Accepted exactly ----------------------------------------------------------------------------

  lemma OpenBlockIs(s: State, mint: Mint)
    requires Inv(s) && IsMint(mint)
    ensures var (o, b) := (Opened(s, mint), OpenBlock(s.blocks, mint));
            && o.textIndex.Some? && o.textIndex.value < |o.blocks| && o.blocks[o.textIndex.value] == b
            && IsCanonical(b) && b.status == Streaming
  {
    hide RecordsOk, ShapeOk, CallsOk, ToolsOk, ValueOk, Joined, BlockJson, Safe;
  }

  lemma DeltaAccepted(s: State, content: string, mint: Mint)
    requires Inv(s) && IsMint(mint)
    ensures AcceptDelta(s, content, mint).1.Some?
            <==> content == "" || (s.Unresolved() == {} && HasRoomFor(OpenBlock(s.blocks, mint), content))
  {
    OpenBlockIs(s, mint);
    hide Inv, IsMint, IsCanonical, OpenBlock, Opened, HasRoomFor;
    AppendingNeedsRoom(OpenBlock(s.blocks, mint), content);
    hide AppendTextBlock;
  }

  lemma OpenTextEnds(s: State)
    requires Inv(s)
    ensures Ended(s).Some?
    ensures var e := Ended(s).value.0;
            e.declared == s.declared && e.provider == s.provider && e.model == s.model && e.resolved == s.resolved
  {
    hide RecordsOk, ShapeOk, CallsOk, ToolsOk, ValueOk, Joined, BlockJson, Safe;
    if s.textIndex.Some? {
      TextBlocksClose(s.blocks[s.textIndex.value]);
    }
  }

  lemma AssistantChecks(s: State, m: AssistantMessage)
    requires Ended(s).Some? && Ended(s).value.0.provider == s.provider && Ended(s).value.0.model == s.model
    ensures AcceptAssistant(s, m).1.Some?
            <==> && s.Unresolved() == {} && VisibleText(m.content) == Some(Joined(s.pending))
                 && m.provider in {None, Some(s.provider)} && m.model in {None, Some(s.model)}
                 && AllCopy(m.toolCalls) && DeclaredAll(Ended(s).value.0.declared, m.toolCalls).1
  {
    hide Joined, Ended, AllCopy, VisibleText, WrittenAssistant, DeclaredAll;
  }

  lemma AssistantAccepted(s: State, m: AssistantMessage)
    requires Inv(s)
    ensures AcceptAssistant(s, m).1.Some?
            <==> && s.Unresolved() == {} && VisibleText(m.content) == Some(Joined(s.pending))
                 && (m.provider == None || m.provider == Some(s.provider))
                 && (m.model == None || m.model == Some(s.model))
                 && AreStorable(m.toolCalls) && AreNew(s.declared, m.toolCalls)
  {
    OpenTextEnds(s);
    AssistantChecks(s, m);
    hide AcceptAssistant, Inv, Joined, Ended, AreNew, Safe, VisibleText, DeclaredAll;
    DeclaredAre(s.declared, m.toolCalls);
  }

  lemma StartAccepted(s: State, call: ToolCall, mint: Mint)
    ensures AcceptToolStart(s, call, mint).1.Some?
            <==> Knows(s, call) && call.id !in s.started && IsCanonical(PendingBlock(call, mint))
  {
    hide IsCanonical;
  }

  lemma ResultFits(b: ChatBlock, call: ToolCall, r: ToolResult)
    requires IsCanonical(b) && IsToolOf(b, call, false)
    ensures ApplyToolResult(b, r).Some? <==> r.callId == call.id && HasRoomForResult(b, r)
  {
    hide Safe, BlockJson, IsBlank;
  }

  lemma BlockOfCall(s: State, call: ToolCall)
    requires Inv(s) && Knows(s, call) && call.id in s.started
    ensures call.id in s.toolIndexes && s.toolIndexes[call.id] < |s.blocks|
    ensures var i := s.toolIndexes[call.id];
            && IsCanonical(s.blocks[i]) && IsToolOf(s.blocks[i], call, call.id in s.resolved)
            && IsBlockOf(s.blocks[i], call.id)
            && forall j :: 0 <= j < |s.blocks| && IsBlockOf(s.blocks[j], call.id) ==> j == i
  {
    hide TextOk, RecordsOk, ShapeOk, ValueOk, Safe, IsCanonical;
  }

  lemma ResultChecks(s: State, call: ToolCall, r: ToolResult)
    ensures AcceptToolResult(s, call, r).1.Some?
            <==> && Knows(s, call) && call.id in s.started && call.id !in s.resolved && r.callId == call.id
                 && call.id in s.toolIndexes && s.toolIndexes[call.id] < |s.blocks|
                 && ApplyToolResult(s.blocks[s.toolIndexes[call.id]], r).Some?
  {
    hide ApplyToolResult, CollectedSources, CollectedReason, WrittenResult;
  }

  lemma ResultAccepted(s: State, call: ToolCall, r: ToolResult)
    requires Inv(s)
    ensures AcceptToolResult(s, call, r).1.Some?
            <==> && Knows(s, call) && call.id in s.started && call.id !in s.resolved && r.callId == call.id
                 && exists i :: 0 <= i < |s.blocks| && IsBlockOf(s.blocks[i], call.id)
                                && HasRoomForResult(s.blocks[i], r)
  {
    ResultChecks(s, call, r);
    hide AcceptToolResult;
    if Knows(s, call) && call.id in s.started && call.id !in s.resolved {
      BlockOfCall(s, call);
      ResultFits(s.blocks[s.toolIndexes[call.id]], call, r);
      hide Inv, HasRoomForResult, ApplyToolResult, IsCanonical, IsToolOf, IsBlockOf;
    }
  }

  lemma NewCalls(s: State, arrivals: seq<Arrival>, calls: seq<ToolCall>)
    requires forall id :: id in s.declared <==> exists call :: call in DeclaredBy(arrivals) && call.id == id
    ensures AreNew(s.declared, calls) <==> AreNewAfter(arrivals, calls)
  {
    hide DeclaredBy;
  }

  lemma DeltaMayCome(s: State, arrivals: seq<Arrival>, content: string, mint: Mint, provider: string, model: string)
    requires IsStateOf(s, arrivals, provider, model) && IsMint(mint)
    ensures AcceptDelta(s, content, mint).1.Some?
            <==> MayCome(arrivals, s.blocks, TextDelta(content), mint, provider, model)
  {
    DeltaAccepted(s, content, mint);
    hide Inv, IsMint, AcceptDelta, AllAnswered, StartedBy, AnsweredBy, DeclaredBy, PendingAfter, HasRoomFor, OpenBlock;
  }

  lemma AssistantMayCome(s: State, arrivals: seq<Arrival>, m: AssistantMessage, mint: Mint, provider: string,
                         model: string)
    requires IsStateOf(s, arrivals, provider, model)
    ensures AcceptAssistant(s, m).1.Some?
            <==> MayCome(arrivals, s.blocks, AssistantSaid(m), mint, provider, model)
  {
    AssistantAccepted(s, m);
    NewCalls(s, arrivals, m.toolCalls);
    hide Inv, AcceptAssistant, AllAnswered, StartedBy, AnsweredBy, DeclaredBy, PendingAfter, Joined, VisibleText,
      AreStorable, AreNewAfter, AreNew, Knows;
  }

  lemma StartMayCome(s: State, arrivals: seq<Arrival>, call: ToolCall, mint: Mint, provider: string, model: string)
    requires IsStateOf(s, arrivals, provider, model)
    ensures AcceptToolStart(s, call, mint).1.Some?
            <==> MayCome(arrivals, s.blocks, ToolStarted(call), mint, provider, model)
  {
    StartAccepted(s, call, mint);
    hide Inv, AcceptToolStart, AllAnswered, StartedBy, AnsweredBy, DeclaredBy, PendingAfter, IsCanonical, PendingBlock;
  }

  lemma ResultMayCome(s: State, arrivals: seq<Arrival>, call: ToolCall, r: ToolResult, mint: Mint, provider: string,
                      model: string)
    requires IsStateOf(s, arrivals, provider, model)
    ensures AcceptToolResult(s, call, r).1.Some?
            <==> MayCome(arrivals, s.blocks, ToolAnswered(call, r), mint, provider, model)
  {
    ResultAccepted(s, call, r);
    hide Inv, AcceptToolResult, AllAnswered, StartedBy, AnsweredBy, DeclaredBy, PendingAfter, HasRoomForResult,
      IsBlockOf;
  }

  /** After any run an event is accepted if and only if it may come next. */
  lemma AcceptedExactly(provider: string, model: string, arrivals: seq<Arrival>, event: Event, mint: Mint)
    requires Run(Initial(provider, model), arrivals).Some? && IsMint(mint)
    ensures var s := Run(Initial(provider, model), arrivals).value.0;
            Accept(s, event, mint).1.Some? <==> MayCome(arrivals, s.blocks, event, mint, provider, model)
  {
    StateIsTheRun(provider, model, arrivals);
    var s := Run(Initial(provider, model), arrivals).value.0;
    hide Run, Initial, IsMint, IsStateOf, AcceptDelta, AcceptAssistant, AcceptToolStart, AcceptToolResult, MayCome;
    match event
    case TextDelta(content) => DeltaMayCome(s, arrivals, content, mint, provider, model);
    case AssistantSaid(m) => AssistantMayCome(s, arrivals, m, mint, provider, model);
    case ToolStarted(call) => StartMayCome(s, arrivals, call, mint, provider, model);
    case ToolAnswered(call, r) => ResultMayCome(s, arrivals, call, r, mint, provider, model);
  }

  lemma {:induction false} RunOneMore(s: State, arrivals: seq<Arrival>, a: Arrival)
    requires Run(s, arrivals).Some?
    ensures Run(s, arrivals + [a]).Some?
            <==> var t := Run(s, arrivals).value.0; IsFresh(a.mint, t.blocks) && Accept(t, a.event, a.mint).1.Some?
    decreases |arrivals|
  {
    hide Accept, IsFresh, IsMint;
    if arrivals == [] {
      assert [] + [a] == [a] && [a][1..] == [];
      if IsFresh(a.mint, s.blocks) {
        FreshIsMint(a.mint, s.blocks);
        assert Run(Accept(s, a.event, a.mint).0, []).Some?;
      }
    } else {
      assert (arrivals + [a])[1..] == arrivals[1..] + [a];
      FreshIsMint(arrivals[0].mint, s.blocks);
      RunOneMore(Accept(s, arrivals[0].event, arrivals[0].mint).0, arrivals[1..], a);
    }
  }

  /** So the runs of a reducer are exactly those in which every event may come where it comes. */
  lemma RunGoesOnExactly(provider: string, model: string, arrivals: seq<Arrival>, a: Arrival)
    requires Run(Initial(provider, model), arrivals).Some?
    ensures var s := Run(Initial(provider, model), arrivals).value.0;
            Run(Initial(provider, model), arrivals + [a]).Some?
            <==> IsFresh(a.mint, s.blocks) && MayCome(arrivals, s.blocks, a.event, a.mint, provider, model)
  {
    hide Run, Accept, MayCome, Initial, IsFresh, IsMint;
    RunOneMore(Initial(provider, model), arrivals, a);
    var s := Run(Initial(provider, model), arrivals).value.0;
    if IsFresh(a.mint, s.blocks) {
      FreshIsMint(a.mint, s.blocks);
      AcceptedExactly(provider, model, arrivals, a.event, a.mint);
    }
  }

  // ----- Finished exactly ----------------------------------------------------------------------------

  /** The last thing said is a message of the assistant without calls, and something of it is visible. */
  predicate IsConcluded(events: seq<Event>) {
    && events != []
    && var last := events[|events| - 1];
       && last.AssistantSaid? && last.message.toolCalls == []
       && VisibleText(last.message.content).Some? && !IsBlank(VisibleText(last.message.content).value)
  }

  lemma LastIsRecorded(chain: seq<Message>, events: seq<Event>, provider: string, model: string)
    requires Recorded([], chain, events, provider, model)
    ensures chain == [] <==> events == []
    ensures events != [] ==> Records(chain[|chain| - 1], events[|events| - 1], provider, model)
  {
    hide Records;
  }

  lemma AnswerIs(s: State, events: seq<Event>)
    requires Recorded([], s.chain, events, s.provider, s.model)
    ensures TerminalAnswer(s)
            == if IsConcluded(events) then VisibleText(events[|events| - 1].message.content) else None
  {
    LastIsRecorded(s.chain, events, s.provider, s.model);
    hide Recorded, VisibleText, IsBlank;
  }

  /** The envelope with this text and everything the reducer has. */
  function EnvelopeOf(s: State, answer: string): Envelope {
    Envelope(answer, Some(s.chain), s.blocks, s.compactions, s.sources, s.termination)
  }

  lemma FinishedIs(s: State)
    requires Inv(s)
    ensures Reduction.Finished(s).Some?
            <==> && TerminalAnswer(s).Some? && s.pending == [] && s.Unresolved() == {} && ChainFits(s)
                 && Safe(EnvelopeJson(EnvelopeOf(s, TerminalAnswer(s).value)))
    ensures Reduction.Finished(s).Some? ==> Reduction.Finished(s).value == EnvelopeOf(s, TerminalAnswer(s).value)
  {
    hide Inv, TerminalAnswer, ChainFits, Validated, EnvelopeJson, Safe;
    if TerminalAnswer(s).Some? && s.pending == [] && s.Unresolved() == {} {
      forall i | 0 <= i < |s.blocks| && s.blocks[i].ToolBlock?
        ensures IsTerminal(s.blocks[i])
      {
        NoPendingBlocks(s, i);
      }
      FinishedChainValidates(s);
    }
  }

  /** The assistant had the last word, no text came after it, no call is open, and everything keeps the limits. */
  predicate MayConclude(arrivals: seq<Arrival>, s: State) {
    && IsConcluded(Spoken(arrivals)) && PendingAfter([], arrivals) == [] && AllAnswered(arrivals) && ChainFits(s)
    && Safe(EnvelopeJson(EnvelopeOf(s, LastWord(arrivals))))
  }

  function LastWord(arrivals: seq<Arrival>): string
    requires IsConcluded(Spoken(arrivals))
  {
    VisibleText(Spoken(arrivals)[|Spoken(arrivals)| - 1].message.content).value
  }

  /** After any run `finish_success` succeeds if and only if it may, and gives the last word and what is on record. */
  lemma FinishesExactly(provider: string, model: string, arrivals: seq<Arrival>)
    requires Run(Initial(provider, model), arrivals).Some?
    ensures var s := Run(Initial(provider, model), arrivals).value.0;
            && (Reduction.Finished(s).Some? <==> MayConclude(arrivals, s))
            && (MayConclude(arrivals, s) ==> Reduction.Finished(s) == Some(EnvelopeOf(s, LastWord(arrivals))))
  {
    StateIsTheRun(provider, model, arrivals);
    ChainIsTheRun(Initial(provider, model), arrivals);
    var s := Run(Initial(provider, model), arrivals).value.0;
    hide Run, Inv, Spoken, AllAnswered, PendingAfter, IsConcluded, Recorded, Reduction.Finished, VisibleText, ChainFits,
      TerminalAnswer, EnvelopeJson, Safe;
    AnswerIs(s, Spoken(arrivals));
    FinishedIs(s);
  }
}
