/** Which lists of messages the validator accepts, said over what may follow what. */
module ChainRules {
  import opened Outcomes
  import opened Texts
  import opened JsonSafety
  import opened MessageChain

  // ----- One message ---------------------------------------------------------------------------------

  /** A list of dictionaries, a string or nothing, with calls, markers and a version of the right kind. */
  predicate IsGoodAssistant(m: Message) {
    && m.Message? && m.role == AssistantRole
    && Safe(m.content) && !m.content.Bool? && !m.content.Int? && !m.content.Float? && !m.content.Obj?
    && (m.content.Arr? ==> forall i :: 0 <= i < |m.content.items| ==> m.content.items[i].Obj?)
    && !m.toolCalls.WrongType?
    && (m.toolCalls.Given? ==> forall i :: 0 <= i < |m.toolCalls.value| ==> IsGoodCall(m.toolCalls.value[i]))
    && !m.reasoning.WrongType? && !m.compacted.WrongType? && !m.summaryCompacted.WrongType?
    && !m.modelInfo.WrongType?
    && (m.modelInfo.Given? ==> !m.modelInfo.value.provider.WrongType? && !m.modelInfo.value.model.WrongType?)
    && !m.version.WrongType? && (m.version.Given? ==> m.version.value >= 1)
  }

  /** A string for a named call. */
  predicate IsGoodResult(m: Message) {
    && m.Message? && m.role == ToolRole && m.content.Str? && !m.isError.WrongType?
    && m.toolCallId.Given? && !IsBlank(m.toolCallId.value) && m.name.Given? && !IsBlank(m.name.value)
  }

  predicate IsKept<T(==)>(kept: Field<T>, f: Field<T>) {
    if f.Given? then kept == f else kept.Missing?
  }

  predicate IsKeptOrNull(kept: Field<string>, f: Field<string>) {
    if f.Given? then kept == f else kept.NullValue?
  }

  /** Nothing is made up: every field is as it was, or gone where it was null, empty or not of this role. */
  predicate IsCleaned(n: Message, m: Message) {
    && n.Message? && m.Message? && n.role == m.role && n.content == m.content && n.otherKeys == []
    && if m.role == ToolRole then
         && n.toolCallId == m.toolCallId && n.name == m.name && IsKept(n.isError, m.isError)
         && n.toolCalls.Missing? && n.reasoning.Missing? && n.modelInfo.Missing? && n.compacted.Missing?
         && n.summaryCompacted.Missing? && n.version.Missing?
       else
         && (if m.toolCalls.Given? && |m.toolCalls.value| > 0 then n.toolCalls == m.toolCalls else n.toolCalls.Missing?)
         && IsKept(n.reasoning, m.reasoning) && IsKept(n.compacted, m.compacted)
         && IsKept(n.summaryCompacted, m.summaryCompacted) && n.version == m.version
         && (if m.modelInfo.Given? then
               && n.modelInfo.Given?
               && IsKeptOrNull(n.modelInfo.value.provider, m.modelInfo.value.provider)
               && IsKeptOrNull(n.modelInfo.value.model, m.modelInfo.value.model)
             else n.modelInfo.Missing?)
         && n.toolCallId.Missing? && n.name.Missing? && n.isError.Missing?
  }

  lemma NormalizedIs(m: Message)
    ensures Normalized(m).Some? <==> IsGoodAssistant(m) || IsGoodResult(m)
    ensures Normalized(m).Some? ==> IsCleaned(Normalized(m).value, m)
  {
    hide Safe, IsGoodCall, IsBlank;
  }

  // ----- What may follow what ------------------------------------------------------------------------

  /** The calls of all messages. */
  function AllCalls(chain: seq<Message>): seq<RawCall> {
    if chain == [] then [] else AllCalls(chain[..|chain| - 1]) + Calls(chain[|chain| - 1])
  }

  /** The ids that have a result. */
  function AnsweredIds(chain: seq<Message>): set<string> {
    set k | 0 <= k < |chain| && chain[k].Message? && chain[k].role == ToolRole && chain[k].toolCallId.Given?
      :: chain[k].toolCallId.value
  }

  predicate IsComplete(chain: seq<Message>) {
    forall c :: c in AllCalls(chain) ==> CallId(c) in AnsweredIds(chain)
  }

  /** An assistant waits for all results and declares new ids; a result answers a call of that name, once. */
  predicate MayFollow(before: seq<Message>, m: Message) {
    && m.Message?
    && match m.role
       case AssistantRole =>
         && IsComplete(before)
         && (forall i, j :: 0 <= i < j < |Calls(m)| ==> CallId(Calls(m)[i]) != CallId(Calls(m)[j]))
         && forall i :: 0 <= i < |Calls(m)| ==> forall c :: c in AllCalls(before) ==> CallId(c) != CallId(Calls(m)[i])
       case ToolRole =>
         && m.toolCallId.Given? && m.name.Given? && m.toolCallId.value !in AnsweredIds(before)
         && exists c :: c in AllCalls(before) && CallId(c) == m.toolCallId.value && CallName(c) == m.name.value
       case OtherRole => false
  }

  predicate IsWellFormed(chain: seq<Message>) {
    forall k :: 0 <= k < |chain| ==> MayFollow(chain[..k], chain[k])
  }

  /** The standing after a chain is what the chain says. */
  ghost predicate Stands(st: Standing, chain: seq<Message>) {
    && st.resolved == AnsweredIds(chain) && |st.declared| == |AllCalls(chain)|
    && (forall c :: c in AllCalls(chain) ==> CallId(c) in st.declared && st.declared[CallId(c)] == CallName(c))
    && forall id :: id in st.declared ==> exists c :: c in AllCalls(chain) && CallId(c) == id
  }

  /** No id stands there twice, and none is taken. */
  predicate AreNew(declared: map<string, string>, calls: seq<RawCall>) {
    && (forall i :: 0 <= i < |calls| ==> CallId(calls[i]) !in declared)
    && forall i, j :: 0 <= i < j < |calls| ==> CallId(calls[i]) != CallId(calls[j])
  }

  lemma NewNext(declared: map<string, string>, calls: seq<RawCall>)
    requires calls != []
    ensures var (init, last) := (calls[..|calls| - 1], calls[|calls| - 1]);
            AreNew(declared, calls)
            <==> && AreNew(declared, init) && CallId(last) !in declared
                 && forall c :: c in init ==> CallId(c) != CallId(last)
  {
    hide CallId;
    var (init, last) := (calls[..|calls| - 1], calls[|calls| - 1]);
    assert forall i :: 0 <= i < |init| ==> init[i] == calls[i] && init[i] in init;
  }

  /** What declaring adds. */
  predicate Adds(declared: map<string, string>, calls: seq<RawCall>, after: map<string, string>) {
    && |after| == |declared| + |calls|
    && (forall id :: id in declared ==> id in after && after[id] == declared[id])
    && (forall c :: c in calls ==> CallId(c) in after && after[CallId(c)] == CallName(c))
    && forall id :: id in after && id !in declared ==> exists c :: c in calls && CallId(c) == id
  }

  lemma AddsNext(declared: map<string, string>, calls: seq<RawCall>, before: map<string, string>)
    requires calls != [] && Adds(declared, calls[..|calls| - 1], before) && CallId(calls[|calls| - 1]) !in before
    ensures Adds(declared, calls, before[CallId(calls[|calls| - 1]) := CallName(calls[|calls| - 1])])
  {
    hide CallId, CallName;
    var (init, last) := (calls[..|calls| - 1], calls[|calls| - 1]);
    var after := before[CallId(last) := CallName(last)];
    assert calls == init + [last];
    assert |after| == |before| + 1;
    forall id | id in after && id !in declared
      ensures exists c :: c in calls && CallId(c) == id
    {
      if id == CallId(last) {
        assert last in calls;
      } else {
        var c :| c in init && CallId(c) == id;
        assert c in calls;
      }
    }
  }

  lemma {:induction false} DeclareIs(declared: map<string, string>, calls: seq<RawCall>)
    ensures Declare(declared, calls).Some? <==> AreNew(declared, calls)
    ensures Declare(declared, calls).Some? ==> Adds(declared, calls, Declare(declared, calls).value)
  {
    hide CallId, CallName;
    if calls != [] {
      var (init, last) := (calls[..|calls| - 1], calls[|calls| - 1]);
      DeclareIs(declared, init);
      NewNext(declared, calls);
      hide AreNew;
      if Declare(declared, init).Some? {
        var before := Declare(declared, init).value;
        if CallId(last) !in before {
          AddsNext(declared, calls, before);
        }
      }
    }
  }

  lemma AnsweredNext(chain: seq<Message>)
    requires chain != []
    ensures var (init, m) := (chain[..|chain| - 1], chain[|chain| - 1]);
            AnsweredIds(chain)
            == AnsweredIds(init)
               + if m.Message? && m.role == ToolRole && m.toolCallId.Given? then {m.toolCallId.value} else {}
  {
    var init := chain[..|chain| - 1];
    assert forall k :: 0 <= k < |init| ==> init[k] == chain[k];
  }

  lemma CompleteIs(st: Standing, chain: seq<Message>)
    requires Stands(st, chain)
    ensures st.Unresolved() == {} <==> IsComplete(chain)
  {
    hide AllCalls, AnsweredIds, CallId, CallName;
    if st.Unresolved() == {} {
      forall c | c in AllCalls(chain)
        ensures CallId(c) in AnsweredIds(chain)
      {
        assert CallId(c) !in st.Unresolved();
      }
    }
  }

  lemma NewIs(st: Standing, chain: seq<Message>, calls: seq<RawCall>)
    requires Stands(st, chain)
    ensures AreNew(st.declared, calls)
            <==> && (forall i, j :: 0 <= i < j < |calls| ==> CallId(calls[i]) != CallId(calls[j]))
                 && forall i :: 0 <= i < |calls| ==> forall c :: c in AllCalls(chain) ==> CallId(c) != CallId(calls[i])
  {
    hide AllCalls, AnsweredIds, CallId, CallName;
  }

  lemma MoreStand(st: Standing, chain: seq<Message>, calls: seq<RawCall>, after: map<string, string>)
    requires chain != [] && Stands(st, chain[..|chain| - 1]) && Adds(st.declared, calls, after)
    requires AllCalls(chain) == AllCalls(chain[..|chain| - 1]) + calls
    requires AnsweredIds(chain) == AnsweredIds(chain[..|chain| - 1])
    ensures Stands(Standing(after, st.resolved), chain)
  {
    hide AllCalls, AnsweredIds, CallId, CallName;
    var init := chain[..|chain| - 1];
    forall id | id in after
      ensures exists c :: c in AllCalls(chain) && CallId(c) == id
    {
      if id in st.declared {
        var c :| c in AllCalls(init) && CallId(c) == id;
        assert c in AllCalls(chain);
      } else {
        var c :| c in calls && CallId(c) == id;
        assert c in AllCalls(chain);
      }
    }
  }

  lemma AssistantExtends(st: Standing, chain: seq<Message>)
    requires chain != [] && Stands(st, chain[..|chain| - 1])
    requires chain[|chain| - 1].Message? && chain[|chain| - 1].role == AssistantRole
    ensures var (init, m) := (chain[..|chain| - 1], chain[|chain| - 1]);
            && (Extended(st, m).Some? <==> MayFollow(init, m))
            && (Extended(st, m).Some? ==> Stands(Extended(st, m).value, chain))
  {
    var (init, m) := (chain[..|chain| - 1], chain[|chain| - 1]);
    CompleteIs(st, init);
    DeclareIs(st.declared, Calls(m));
    NewIs(st, init, Calls(m));
    AnsweredNext(chain);
    assert AllCalls(chain) == AllCalls(init) + Calls(m);
    hide AllCalls, AnsweredIds, CallId, CallName, Calls, IsComplete, Declare, Stands, AreNew, Adds;
    assert AnsweredIds(chain) == AnsweredIds(init);
    DeclaringExtends(st, m);
    hide Extended, Standing.Unresolved;
    if Extended(st, m).Some? {
      MoreStand(st, chain, Calls(m), Declare(st.declared, Calls(m)).value);
    }
  }

  lemma DeclaringExtends(st: Standing, m: Message)
    requires m.Message? && m.role == AssistantRole
    ensures Extended(st, m)
            == if st.Unresolved() == {} && Declare(st.declared, Calls(m)).Some?
               then Some(Standing(Declare(st.declared, Calls(m)).value, st.resolved)) else None
  {
    hide Declare, Calls;
  }

  lemma ResultExtends(st: Standing, chain: seq<Message>)
    requires chain != [] && Stands(st, chain[..|chain| - 1])
    requires chain[|chain| - 1].Message? && chain[|chain| - 1].role == ToolRole
    ensures var (init, m) := (chain[..|chain| - 1], chain[|chain| - 1]);
            && (Extended(st, m).Some? <==> MayFollow(init, m))
            && (Extended(st, m).Some? ==> Stands(Extended(st, m).value, chain))
  {
    var (init, m) := (chain[..|chain| - 1], chain[|chain| - 1]);
    AnsweredNext(chain);
    assert AllCalls(chain) == AllCalls(init) by {
      assert AllCalls(init) + [] == AllCalls(init);
    }
    hide AllCalls, AnsweredIds, CallId, CallName;
    if m.toolCallId.Given? && m.toolCallId.value in st.declared {
      var c :| c in AllCalls(init) && CallId(c) == m.toolCallId.value;
      assert st.declared[CallId(c)] == CallName(c);
    }
  }

  /** The standing is there exactly if every message may follow those before it. */
  lemma {:induction false} ShapeIs(chain: seq<Message>)
    ensures Shape(chain).Some? <==> IsWellFormed(chain)
    ensures Shape(chain).Some? ==> Stands(Shape(chain).value, chain)
  {
    hide Extended, MayFollow, Stands;
    if chain == [] {
      NothingStands();
    } else {
      var (init, m) := (chain[..|chain| - 1], chain[|chain| - 1]);
      ShapeIs(init);
      assert forall k :: 0 <= k < |init| ==> init[..k] == chain[..k] && init[k] == chain[k];
      if Shape(init).Some? {
        OneMoreStands(Shape(init).value, chain);
      }
    }
  }

  lemma NothingStands()
    ensures Stands(NOTHING, [])
  {
  }

  lemma OneMoreStands(st: Standing, chain: seq<Message>)
    requires chain != [] && Stands(st, chain[..|chain| - 1])
    ensures var (init, m) := (chain[..|chain| - 1], chain[|chain| - 1]);
            && (Extended(st, m).Some? <==> MayFollow(init, m))
            && (Extended(st, m).Some? ==> Stands(Extended(st, m).value, chain))
  {
    hide Stands;
    var m := chain[|chain| - 1];
    if m.Message? && m.role == AssistantRole {
      AssistantExtends(st, chain);
    } else if m.Message? && m.role == ToolRole {
      ResultExtends(st, chain);
    }
  }

  // ----- The validator -------------------------------------------------------------------------------

  /** The cleaned messages, one for one. */
  predicate AreCleaned(chain: seq<Message>, messages: seq<Message>) {
    |chain| == |messages| && forall i :: 0 <= i < |chain| ==> IsCleaned(chain[i], messages[i])
  }

  predicate AreGood(messages: seq<Message>) {
    forall i :: 0 <= i < |messages| ==> IsGoodAssistant(messages[i]) || IsGoodResult(messages[i])
  }

  lemma {:induction false} NormalizedAre(messages: seq<Message>)
    ensures AllNormalized(messages).Some? <==> AreGood(messages)
    ensures AllNormalized(messages).Some? ==>
              && AreCleaned(AllNormalized(messages).value, messages)
              && forall i :: 0 <= i < |messages| ==> Normalized(messages[i]) == Some(AllNormalized(messages).value[i])
  {
    hide Normalized, IsGoodAssistant, IsGoodResult, IsCleaned;
    if messages != [] {
      var n := |messages| - 1;
      NormalizedAre(messages[..n]);
      NormalizedIs(messages[n]);
      assert forall i :: 0 <= i < n ==> messages[..n][i] == messages[i];
    }
  }

  lemma {:induction false} ScannedIs(messages: seq<Message>)
    ensures Scanned(messages).Some? ==> AllNormalized(messages).Some?
    ensures AllNormalized(messages).Some? ==>
              var chain := AllNormalized(messages).value;
              Scanned(messages)
              == if IsWellFormed(chain) && |AllCalls(chain)| <= MAX_TOOL_CALLS then Shape(chain) else None
  {
    hide Normalized, Extended, IsWellFormed, Stands, MayFollow;
    if messages == [] {
      ShapeIs([]);
    } else {
      var n := |messages| - 1;
      ScannedIs(messages[..n]);
      if AllNormalized(messages).Some? {
        var chain := AllNormalized(messages).value;
        var init := AllNormalized(messages[..n]).value;
        assert chain == init + [Normalized(messages[n]).value] && chain[..|chain| - 1] == init;
        ShapeIs(chain);
        ShapeIs(init);
        StandingCounts(init);
        StandingCounts(chain);
        assert |AllCalls(init)| <= |AllCalls(chain)|;
      }
    }
  }

  lemma StandingCounts(chain: seq<Message>)
    requires Shape(chain).Some? ==> Stands(Shape(chain).value, chain)
    ensures Shape(chain).Some? ==> |Shape(chain).value.declared| == |AllCalls(chain)|
  {
    hide Shape, AllCalls, AnsweredIds;
  }

  lemma {:induction false} CleanedCalls(chain: seq<Message>, messages: seq<Message>)
    requires AreCleaned(chain, messages)
    ensures AllCalls(chain) == AllCalls(messages)
  {
    if chain != [] {
      var n := |chain| - 1;
      assert AreCleaned(chain[..n], messages[..n]);
      CleanedCalls(chain[..n], messages[..n]);
    }
  }

  lemma CleanedAnswers(chain: seq<Message>, messages: seq<Message>)
    requires AreCleaned(chain, messages)
    ensures AnsweredIds(chain) == AnsweredIds(messages)
  {
    forall k | 0 <= k < |chain|
      ensures chain[k].role == messages[k].role && (chain[k].role == ToolRole ==>
                                                      chain[k].toolCallId == messages[k].toolCallId)
    {
    }
    hide IsCleaned;
  }

  /** Cleaning a message does not change what it declares or answers. */
  lemma CleanedFollows(chain: seq<Message>, messages: seq<Message>, k: nat)
    requires AreCleaned(chain, messages) && k < |chain|
    ensures MayFollow(chain[..k], chain[k]) <==> MayFollow(messages[..k], messages[k])
  {
    assert AreCleaned(chain[..k], messages[..k]);
    CleanedCalls(chain[..k], messages[..k]);
    CleanedAnswers(chain[..k], messages[..k]);
    hide AllCalls, AnsweredIds, CallId, CallName;
    assert IsCleaned(chain[k], messages[k]) && Calls(chain[k]) == Calls(messages[k]);
  }

  lemma CleanedIsWellFormed(chain: seq<Message>, messages: seq<Message>)
    requires AreCleaned(chain, messages)
    ensures IsWellFormed(chain) <==> IsWellFormed(messages)
    ensures IsComplete(chain) <==> IsComplete(messages)
  {
    CleanedCalls(chain, messages);
    CleanedAnswers(chain, messages);
    hide MayFollow, AllCalls, AnsweredIds, CallId;
    forall k | 0 <= k < |chain|
      ensures MayFollow(chain[..k], chain[k]) <==> MayFollow(messages[..k], messages[k])
    {
      CleanedFollows(chain, messages, k);
    }
  }

  lemma CleanedOnce(a: seq<Message>, b: seq<Message>, messages: seq<Message>)
    requires AreCleaned(a, messages) && AreCleaned(b, messages)
    ensures a == b
  {
    forall i | 0 <= i < |a|
      ensures a[i] == b[i]
    {
      assert IsCleaned(a[i], messages[i]) && IsCleaned(b[i], messages[i]);
    }
  }

  /** The cleaned messages are small enough to be stored together. */
  ghost predicate IsStorable(messages: seq<Message>) {
    exists chain :: AreCleaned(chain, messages) && Safe(ChainJson(chain))
  }

  /** Neither empty nor too long; every message good and in its place; no call too many and none without a result. */
  ghost predicate IsAcceptable(messages: seq<Message>) {
    && 0 < |messages| <= MAX_MESSAGES && AreGood(messages) && IsWellFormed(messages)
    && |AllCalls(messages)| <= MAX_TOOL_CALLS && IsComplete(messages) && IsStorable(messages)
  }

  /** The validator accepts exactly the acceptable lists, and gives them back as they were cleaned. */
  lemma ValidatedExactly(messages: seq<Message>)
    ensures Validated(messages).Some? <==> IsAcceptable(messages)
    ensures Validated(messages).Some? ==> AreCleaned(Validated(messages).value, messages)
  {
    NormalizedAre(messages);
    ScannedIs(messages);
    if AllNormalized(messages).Some? {
      var chain := AllNormalized(messages).value;
      ShapeIs(chain);
      if Shape(chain).Some? {
        CompleteIs(Shape(chain).value, chain);
      }
      CleanedIsWellFormed(chain, messages);
      CleanedCalls(chain, messages);
      StorableIs(chain, messages);
    }
    hide Scanned, AllNormalized, Shape, AllCalls, IsWellFormed, IsComplete, AreCleaned, AreGood, IsStorable, Safe,
      ChainJson;
  }

  lemma StorableIs(chain: seq<Message>, messages: seq<Message>)
    requires AreCleaned(chain, messages)
    ensures Safe(ChainJson(chain)) <==> IsStorable(messages)
  {
    if IsStorable(messages) {
      var other :| AreCleaned(other, messages) && Safe(ChainJson(other));
      CleanedOnce(chain, other, messages);
    }
    hide IsCleaned, Safe, MessageJson;
  }
}
