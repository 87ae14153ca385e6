/** Splitting what is left of a budget between the tool calls of one round. */
module ToolBudget {
  import opened Outcomes
  import opened JsonSafety
  import opened CanonicalText
  import opened ChatBlocks
  import opened TokenCounter

  // ----- Messages ------------------------------------------------------------------------------------

  function CallEntry(call: ToolCall): Json {
    Obj(["function", "id", "type"],
        [Obj(["arguments", "name"], [Str(Print(call.arguments)), Str(call.name)]), Str(call.id), Str("function")])
  }

  function CallEntries(calls: seq<ToolCall>): seq<Json> {
    if calls == [] then [] else [CallEntry(calls[0])] + CallEntries(calls[1..])
  }

  /** An assistant message without text that makes these calls. */
  function CallMessage(calls: seq<ToolCall>): Json {
    Obj(["content", "role", "tool_calls"], [Null, Str("assistant"), Arr(CallEntries(calls))])
  }

  function ResultMessage(r: ToolResult): Json {
    Obj(["content", "role", "tool_call_id"], [Str(r.content), Str("tool"), Str(r.callId)])
  }

  function ResultMessages(results: seq<ToolResult>): seq<Json> {
    if results == [] then [] else [ResultMessage(results[0])] + ResultMessages(results[1..])
  }

  // ----- The split -----------------------------------------------------------------------------------

  function Count(messages: seq<Json>, imageReserve: nat): nat {
    NoTools();
    CountIs(messages, [], imageReserve);
    CountModelInput(messages, [], imageReserve).value
  }

  /** `count_assistant_tool_call`. */
  function CountCall(call: ToolCall, imageReserve: nat): nat {
    Count([CallMessage([call])], imageReserve)
  }

  /** `count_tool_result`. */
  function CountResult(r: ToolResult, imageReserve: nat): nat {
    Count([ResultMessage(r)], imageReserve)
  }

  function CountCalls(calls: seq<ToolCall>, imageReserve: nat): nat {
    if calls == [] then 0 else CountCall(calls[0], imageReserve) + CountCalls(calls[1..], imageReserve)
  }

  function CountResults(results: seq<ToolResult>, imageReserve: nat): nat {
    if results == [] then 0 else CountResult(results[0], imageReserve) + CountResults(results[1..], imageReserve)
  }

  predicate HasPlainSchemas(tools: seq<ToolDefinition>) {
    ImagesOfAll(ToolPayloads(tools)) == 0
  }

  /** `_remaining_tokens`, which may be negative. */
  function RemainingTokens(budget: int, prior: seq<Json>, tools: seq<ToolDefinition>, calls: seq<ToolCall>,
                           imageReserve: nat): int
    requires HasPlainSchemas(tools)
  {
    budget - (CountModelInput(prior, tools, imageReserve).value + CountCalls(calls, imageReserve))
  }

  /** Every call of the round gets the same share, rounded down. */
  function Share(budget: int, prior: seq<Json>, tools: seq<ToolDefinition>, calls: seq<ToolCall>, imageReserve: nat)
    : int
    requires HasPlainSchemas(tools) && calls != []
  {
    RemainingTokens(budget, prior, tools, calls, imageReserve) / |calls|
  }

  /** `_sibling_tool_calls`: the calls of the assistant message that is being answered. */
  function SiblingCalls(terminal: Option<seq<ToolCall>>, call: ToolCall): (calls: seq<ToolCall>)
    ensures calls != [] && exists i :: 0 <= i < |calls| && calls[i].id == call.id
  {
    if terminal.Some? && exists i :: 0 <= i < |terminal.value| && terminal.value[i].id == call.id
    then terminal.value
    else
      assert [call][0].id == call.id;
      [call]
  }

  const TOO_LARGE :=
    "{\"code\":\"context_too_large\",\"message\":\"The tool result exceeds the remaining context budget.\"}"

  function TooLargeResult(call: ToolCall): ToolResult {
    ToolResult(call.id, TOO_LARGE, true,
               Obj(["code", "tool"], [Str("context_too_large"), Str(call.name)]))
  }

  /** `_fit_result`: the result, a note in its place, or `None` where the turn has to end. */
  function FitResult(call: ToolCall, candidate: ToolResult, remaining: int, imageReserve: nat): (r: Option<ToolResult>)
    ensures r.Some? ==> CountResult(r.value, imageReserve) <= remaining
    ensures CountResult(candidate, imageReserve) <= remaining ==> r == Some(candidate)
    ensures r.None? <==> remaining < CountResult(candidate, imageReserve)
                         && remaining < CountResult(TooLargeResult(call), imageReserve)
  {
    var result := if CountResult(candidate, imageReserve) > remaining then TooLargeResult(call) else candidate;
    if CountResult(result, imageReserve) <= remaining then Some(result) else None
  }

  const NOT_FOUND := "{\"code\":\"tool_not_found\",\"message\":\"The requested tool is unavailable.\"}"

  /** What `ToolRegistrySnapshot.execute` answers to a call of a tool that it does not know. */
  function NotFoundResult(call: ToolCall): ToolResult {
    ToolResult(call.id, NOT_FOUND, true, Obj(["code", "tool"], [Str("tool_not_found"), Str(call.name)]))
  }

  /** `terminal_budget_audit`, after which the turn ends. */
  function TerminalAudit(call: ToolCall): ToolResult {
    ToolResult(call.id, "{}", true,
               Obj(["code", "terminal", "tool"], [Str("context_too_large"), Bool(true), Str(call.name)]))
  }

  datatype Answer = Answer(result: ToolResult, terminal: bool)

  /**
   `execute_with_budget`: nothing remains, or the registry does not know the tool, in which case its answer is not
   fitted, or the tool's own result is fitted.
   */
  function Answered(call: ToolCall, isKnown: bool, candidate: ToolResult, share: int, imageReserve: nat): Answer {
    if share <= 0 then Answer(TerminalAudit(call), true)
    else if !isKnown then Answer(NotFoundResult(call), false)
    else
      match FitResult(call, candidate, share, imageReserve)
      case None => Answer(TerminalAudit(call), true)
      case Some(result) => Answer(result, false)
  }

  // ----- What a round counts -------------------------------------------------------------------------

  /** All results together count less than one by one: the empty input is counted once, beside the commas. */
  lemma {:induction false} ResultsTogether(results: seq<ToolResult>, imageReserve: nat)
    requires results != []
    ensures Count(ResultMessages(results), imageReserve) + 25 * (|results| - 1)
            == CountResults(results, imageReserve)
    decreases |results|
  {
    hide ResultMessage, CountModelInput;
    var rest := results[1..];
    if rest == [] {
      assert ResultMessages(results) == [ResultMessage(results[0])];
    } else {
      ResultsTogether(rest, imageReserve);
      NoTools();
      CountIsSubadditive([ResultMessage(results[0])], ResultMessages(rest), [], imageReserve);
    }
  }

  lemma PlainOne(a: Json)
    ensures NormalizedAll([a]) == [Normalized(a)] && ImagesOfAll([a]) == Images(a)
  {
    hide Normalized, Images;
    var rest: seq<Json> := [];
    assert [a][1..] == rest;
    assert NormalizedAll(rest) == [] && ImagesOfAll(rest) == 0;
  }

  lemma PlainPair(a: Json, b: Json)
    requires Normalized(a) == a && Normalized(b) == b && Images(a) == 0 && Images(b) == 0
    ensures NormalizedAll([a, b]) == [a, b] && ImagesOfAll([a, b]) == 0
  {
    hide Normalized, Images, NormalizedAll, ImagesOfAll;
    PlainOne(a);
    PlainOne(b);
    NormalizedJoin([a], [b]);
    assert [a, b] == [a] + [b];
  }

  lemma PlainObj(keys: seq<string>, values: seq<Json>)
    requires NormalizedAll(values) == values && ImagesOfAll(values) == 0 && !IsImageType(LookupIn(keys, values, "type"))
    ensures Normalized(Obj(keys, values)) == Obj(keys, values) && Images(Obj(keys, values)) == 0
  {
    hide NormalizedAll, ImagesOfAll, LookupIn, IsImageType;
  }

  lemma EntryIsPlain(call: ToolCall)
    ensures Normalized(CallEntry(call)) == CallEntry(call) && Images(CallEntry(call)) == 0
  {
    hide Print, LookupIn, NormalizedAll, ImagesOfAll;
    var inner := Obj(["arguments", "name"], [Str(Print(call.arguments)), Str(call.name)]);
    PlainPair(Str(Print(call.arguments)), Str(call.name));
    LookupFinds(inner.keys, inner.values, "type");
    PlainObj(inner.keys, inner.values);
    PlainTriple(inner, Str(call.id), Str("function"));
    var entry := CallEntry(call);
    LookupFinds(entry.keys, entry.values, "type");
    assert "type" !in entry.keys[..2];
    PlainObj(entry.keys, entry.values);
  }

  lemma PlainTriple(a: Json, b: Json, c: Json)
    requires Normalized(a) == a && Normalized(b) == b && Normalized(c) == c
    requires Images(a) == 0 && Images(b) == 0 && Images(c) == 0
    ensures NormalizedAll([a, b, c]) == [a, b, c] && ImagesOfAll([a, b, c]) == 0
  {
    hide Normalized, Images, NormalizedAll, ImagesOfAll;
    PlainOne(a);
    PlainPair(b, c);
    NormalizedJoin([a], [b, c]);
    assert [a, b, c] == [a] + [b, c];
  }

  lemma {:induction false} EntriesArePlain(calls: seq<ToolCall>)
    ensures NormalizedAll(CallEntries(calls)) == CallEntries(calls) && ImagesOfAll(CallEntries(calls)) == 0
    ensures |CallEntries(calls)| == |calls|
  {
    hide CallEntry;
    if calls != [] {
      EntryIsPlain(calls[0]);
      EntriesArePlain(calls[1..]);
      assert CallEntries(calls)[1..] == CallEntries(calls[1..]);
    }
  }

  /** The size of a call message beside that of its calls. */
  function CallFrame(): nat {
    2 + SizeOfKeys(["content", "role", "tool_calls"]) + 4 + Size(Str("assistant")) + 2 + 2
  }

  lemma CallFrameIs()
    ensures CallFrame() == 51
  {
    hide EscapedBytes;
    PlainBytes("content");
    PlainBytes("role");
    PlainBytes("tool_calls");
    PlainBytes("assistant");
    var keys := ["content", "role", "tool_calls"];
    assert keys[1..] == ["role", "tool_calls"] && keys[2..] == ["tool_calls"] && keys[1..][1..] == keys[2..];
    assert SizeOfKeys(keys[2..]) == 13;
    assert SizeOfKeys(keys[1..]) == 20;
  }

  lemma SizeOfThree(a: Json, b: Json, c: Json)
    ensures SizeOfAll([a, b, c]) == Size(a) + Size(b) + Size(c)
  {
    hide Size;
    assert [a, b, c][1..] == [b, c];
    SizeOfTwo(b, c);
  }

  lemma CallMessageWeighs(calls: seq<ToolCall>, imageReserve: nat)
    ensures Weight([CallMessage(calls)], imageReserve)
            == CallFrame() + SizeOfAll(CallEntries(calls)) + Commas(|calls|) + MESSAGE_FRAME_RESERVE
  {
    hide CallEntries, SizeOfKeys, EscapedBytes, LookupIn, NormalizedAll, ImagesOfAll, SizeOfAll;
    EntriesArePlain(calls);
    var m := CallMessage(calls);
    var list := Arr(CallEntries(calls));
    assert Normalized(list) == list && Images(list) == 0;
    PlainTriple(Null, Str("assistant"), list);
    LookupFinds(m.keys, m.values, "type");
    PlainObj(m.keys, m.values);
    SizeOfThree(Null, Str("assistant"), list);
    OneMessage(m, imageReserve);
  }

  lemma OneMessage(m: Json, imageReserve: nat)
    requires Normalized(m) == m && Images(m) == 0
    ensures Weight([m], imageReserve) == Size(m) + MESSAGE_FRAME_RESERVE
  {
    hide Size, Normalized, Images;
    assert [m][1..] == [];
    assert NormalizedAll([m]) == [m] && ImagesOfAll([m]) == 0 && SizeOfAll([m]) == Size(m);
  }

  /** One message with all calls counts less than the calls one by one: 92 for every call after the first. */
  lemma {:induction false} CallsTogether(calls: seq<ToolCall>, imageReserve: nat)
    requires calls != []
    ensures Count([CallMessage(calls)], imageReserve) + 92 * (|calls| - 1) == CountCalls(calls, imageReserve)
    decreases |calls|
  {
    hide CallMessage, CallEntry, Weight, Frame, CountModelInput, CallFrame, SizeOfAll, SizeOfKeys, EscapedBytes;
    NoTools();
    CallFrameIs();
    CountIs([CallMessage(calls)], [], imageReserve);
    CallMessageWeighs(calls, imageReserve);
    CountIs([CallMessage([calls[0]])], [], imageReserve);
    CallMessageWeighs([calls[0]], imageReserve);
    var rest := calls[1..];
    if rest == [] {
      assert calls == [calls[0]];
    } else {
      CallsTogether(rest, imageReserve);
      CountIs([CallMessage(rest)], [], imageReserve);
      CallMessageWeighs(rest, imageReserve);
      assert CallEntries(calls) == [CallEntry(calls[0])] + CallEntries(rest);
      SizesAdd([CallEntry(calls[0])], CallEntries(rest));
      assert CallEntries([calls[0]]) == [CallEntry(calls[0])];
    }
  }

  /** How much less a round counts as a whole than its messages, its calls and its results one by one. */
  function Saved(calls: nat, hasPrior: bool): int {
    117 * (calls - 1) + if hasPrior then 50 else 51
  }

  lemma RoundTogether(prior: seq<Json>, tools: seq<ToolDefinition>, calls: seq<ToolCall>, results: seq<ToolResult>,
                      imageReserve: nat)
    requires HasPlainSchemas(tools) && calls != [] && |results| == |calls|
    ensures CountModelInput(prior + [CallMessage(calls)] + ResultMessages(results), tools, imageReserve).value
            == CountModelInput(prior, tools, imageReserve).value + CountCalls(calls, imageReserve)
               + CountResults(results, imageReserve) - Saved(|calls|, prior != [])
  {
    hide CountModelInput, CallMessage, ToolPayloads, CountCalls, CountResults;
    assert ResultMessages(results) != [];
    hide ResultMessages;
    ResultsTogether(results, imageReserve);
    CallsTogether(calls, imageReserve);
    CountIsSubadditive(prior, [CallMessage(calls)], tools, imageReserve);
    CountIsSubadditive(prior + [CallMessage(calls)], ResultMessages(results), tools, imageReserve);
  }

  /** What one result counts, in closed form. */
  lemma ResultCounts(r: ToolResult, imageReserve: nat)
    ensures CountResult(r, imageReserve) == 88 + EscapedBytes(r.content) + EscapedBytes(r.callId)
  {
    hide EscapedBytes, LookupIn, NormalizedAll, ImagesOfAll, SizeOfAll, Weight, Frame;
    var m := ResultMessage(r);
    PlainTriple(Str(r.content), Str("tool"), Str(r.callId));
    LookupFinds(m.keys, m.values, "type");
    PlainObj(m.keys, m.values);
    SizeOfThree(Str(r.content), Str("tool"), Str(r.callId));
    ResultKeys();
    PlainBytes("tool");
    OneMessage(m, imageReserve);
    NoTools();
    CountIs([m], [], imageReserve);
  }

  lemma ResultKeys()
    ensures SizeOfKeys(["content", "role", "tool_call_id"]) == 32
  {
    hide EscapedBytes;
    PlainBytes("content");
    PlainBytes("role");
    PlainBytes("tool_call_id");
    var keys := ["content", "role", "tool_call_id"];
    assert keys[1..] == ["role", "tool_call_id"] && keys[2..] == ["tool_call_id"] && keys[1..][1..] == keys[2..];
    assert SizeOfKeys(keys[2..]) == 15;
    assert SizeOfKeys(keys[1..]) == 22;
  }

  // ----- Rounds --------------------------------------------------------------------------------------

  /** One round of tool calls; `known` says which of the tools the registry knows. */
  datatype Round = Round(
    budget: int, prior: seq<Json>, tools: seq<ToolDefinition>, calls: seq<ToolCall>, known: seq<bool>,
    imageReserve: nat)

  predicate IsRound(r: Round) {
    HasPlainSchemas(r.tools) && r.calls != [] && |r.known| == |r.calls|
  }

  function ShareOf(r: Round): int
    requires IsRound(r)
  {
    Share(r.budget, r.prior, r.tools, r.calls, r.imageReserve)
  }

  function RemainingOf(r: Round): int
    requires IsRound(r)
  {
    RemainingTokens(r.budget, r.prior, r.tools, r.calls, r.imageReserve)
  }

  function AnswerAt(r: Round, candidates: seq<ToolResult>, i: nat): Answer
    requires IsRound(r) && |candidates| == |r.calls| && i < |r.calls|
  {
    Answered(r.calls[i], r.known[i], candidates[i], ShareOf(r), r.imageReserve)
  }

  function Results(r: Round, candidates: seq<ToolResult>): (results: seq<ToolResult>)
    requires IsRound(r) && |candidates| == |r.calls|
    ensures |results| == |r.calls|
  {
    seq(|r.calls|, i requires 0 <= i < |r.calls| => AnswerAt(r, candidates, i).result)
  }

  /** Every tool answers to its own call, and no answer ends the turn. */
  predicate GoesOn(r: Round, candidates: seq<ToolResult>)
    requires IsRound(r)
  {
    && |candidates| == |r.calls|
    && forall i :: 0 <= i < |r.calls| ==>
         candidates[i].callId == r.calls[i].id && !AnswerAt(r, candidates, i).terminal
  }

  /** What the next model input counts: the messages before the round, its calls and its results. */
  function Total(r: Round, candidates: seq<ToolResult>): nat
    requires IsRound(r) && |candidates| == |r.calls|
  {
    CountModelInput(r.prior + [CallMessage(r.calls)] + ResultMessages(Results(r, candidates)), r.tools,
                    r.imageReserve).value
  }

  lemma TotalIs(r: Round, candidates: seq<ToolResult>)
    requires IsRound(r) && |candidates| == |r.calls|
    ensures Total(r, candidates)
            == r.budget - RemainingOf(r) + CountResults(Results(r, candidates), r.imageReserve)
               - Saved(|r.calls|, r.prior != [])
  {
    hide CountModelInput, CallMessage, ToolPayloads, CountCalls, CountResults, ResultMessages, Results, Saved;
    RoundTogether(r.prior, r.tools, r.calls, Results(r, candidates), r.imageReserve);
  }

  /** The least that a result for this call counts. */
  function LeastCount(call: ToolCall): nat {
    88 + EscapedBytes(call.id)
  }

  /** Some known tool cannot but end the turn, since its share is too small even for an empty result. */
  predicate MustEnd(r: Round)
    requires IsRound(r)
  {
    || ShareOf(r) <= 0
    || exists i :: 0 <= i < |r.calls| && r.known[i] && ShareOf(r) < LeastCount(r.calls[i])
  }

  /** What the results count at most: a known tool may use its share up, an unknown one answers what it answers. */
  function WorstCase(calls: seq<ToolCall>, known: seq<bool>, share: int, imageReserve: nat): int
    requires |calls| == |known|
  {
    if calls == [] then 0
    else
      (if known[0] then share else CountResult(NotFoundResult(calls[0]), imageReserve))
      + WorstCase(calls[1..], known[1..], share, imageReserve)
  }

  // ----- Exactly when the budget holds ---------------------------------------------------------------

  lemma {:induction false} CountedAtMost(calls: seq<ToolCall>, known: seq<bool>, results: seq<ToolResult>, share: int,
                                         imageReserve: nat)
    requires |calls| == |known| == |results|
    requires forall i :: 0 <= i < |calls| ==>
               if known[i] then CountResult(results[i], imageReserve) <= share
               else results[i] == NotFoundResult(calls[i])
    ensures CountResults(results, imageReserve) <= WorstCase(calls, known, share, imageReserve)
    decreases |calls|
  {
    hide CountResult, NotFoundResult;
    if calls != [] {
      CountedAtMost(calls[1..], known[1..], results[1..], share, imageReserve);
    }
  }

  lemma {:induction false} CountedExactly(calls: seq<ToolCall>, known: seq<bool>, results: seq<ToolResult>, share: int,
                                          imageReserve: nat)
    requires |calls| == |known| == |results|
    requires forall i :: 0 <= i < |calls| ==>
               if known[i] then CountResult(results[i], imageReserve) == share
               else results[i] == NotFoundResult(calls[i])
    ensures CountResults(results, imageReserve) == WorstCase(calls, known, share, imageReserve)
    decreases |calls|
  {
    hide CountResult, NotFoundResult;
    if calls != [] {
      CountedExactly(calls[1..], known[1..], results[1..], share, imageReserve);
    }
  }

  /** A result that uses up its share, if that is large enough for any. */
  function Filling(call: ToolCall, share: int): ToolResult {
    ToolResult(call.id, Filler(if share < LeastCount(call) then 0 else share - LeastCount(call)), false, Null)
  }

  function Filler(n: nat): string {
    seq(n, _ => 'a')
  }

  lemma FillingFills(call: ToolCall, share: int, imageReserve: nat)
    requires share >= LeastCount(call)
    ensures CountResult(Filling(call, share), imageReserve) == share
    ensures FitResult(call, Filling(call, share), share, imageReserve) == Some(Filling(call, share))
  {
    hide CountResult, EscapedBytes;
    ResultCounts(Filling(call, share), imageReserve);
    PlainBytes(Filler(share - LeastCount(call)));
  }

  lemma SmallSharesEnd(call: ToolCall, candidate: ToolResult, share: int, imageReserve: nat)
    requires share < LeastCount(call) && candidate.callId == call.id
    ensures Answered(call, true, candidate, share, imageReserve).terminal
  {
    hide CountResult, EscapedBytes;
    ResultCounts(candidate, imageReserve);
    ResultCounts(TooLargeResult(call), imageReserve);
  }

  lemma AnswersAreCounted(r: Round, candidates: seq<ToolResult>)
    requires IsRound(r) && GoesOn(r, candidates)
    ensures CountResults(Results(r, candidates), r.imageReserve)
            <= WorstCase(r.calls, r.known, ShareOf(r), r.imageReserve)
  {
    hide CountResult, CountResults, NotFoundResult, FitResult, Share, WorstCase, TerminalAudit;
    forall i | 0 <= i < |r.calls|
      ensures if r.known[i] then CountResult(Results(r, candidates)[i], r.imageReserve) <= ShareOf(r)
              else Results(r, candidates)[i] == NotFoundResult(r.calls[i])
    {
      assert !AnswerAt(r, candidates, i).terminal;
    }
    CountedAtMost(r.calls, r.known, Results(r, candidates), ShareOf(r), r.imageReserve);
  }

  /** Where no tool must end the turn, the worst case happens. */
  lemma WorstCaseHappens(r: Round) returns (candidates: seq<ToolResult>)
    requires IsRound(r) && !MustEnd(r)
    ensures GoesOn(r, candidates)
    ensures CountResults(Results(r, candidates), r.imageReserve)
            == WorstCase(r.calls, r.known, ShareOf(r), r.imageReserve)
  {
    hide CountResult, CountResults, NotFoundResult, FitResult, Share, WorstCase, LeastCount, Filler, ShareOf;
    candidates := seq(|r.calls|, i requires 0 <= i < |r.calls| => Filling(r.calls[i], ShareOf(r)));
    forall i | 0 <= i < |r.calls|
      ensures !AnswerAt(r, candidates, i).terminal
      ensures if r.known[i] then CountResult(Results(r, candidates)[i], r.imageReserve) == ShareOf(r)
              else Results(r, candidates)[i] == NotFoundResult(r.calls[i])
    {
      if r.known[i] {
        FillingFills(r.calls[i], ShareOf(r), r.imageReserve);
      }
    }
    CountedExactly(r.calls, r.known, Results(r, candidates), ShareOf(r), r.imageReserve);
  }

  lemma NothingGoesOn(r: Round, candidates: seq<ToolResult>)
    requires IsRound(r) && MustEnd(r)
    ensures !GoesOn(r, candidates)
  {
    hide EscapedBytes, Share, FitResult;
    if |candidates| == |r.calls| && forall i :: 0 <= i < |r.calls| ==> candidates[i].callId == r.calls[i].id {
      var i: nat := 0;
      if ShareOf(r) > 0 {
        i :| 0 <= i < |r.calls| && r.known[i] && ShareOf(r) < LeastCount(r.calls[i]);
        SmallSharesEnd(r.calls[i], candidates[i], ShareOf(r), r.imageReserve);
      }
      assert AnswerAt(r, candidates, i).terminal;
    }
  }

  /**
   Before any tool runs it is settled whether the round can exceed its budget: only the answers to unknown tools, whose
   text is fixed, can make it.
   */
  lemma BudgetHoldsExactly(r: Round)
    requires IsRound(r)
    ensures (forall candidates :: GoesOn(r, candidates) ==> Total(r, candidates) <= r.budget)
            <==> MustEnd(r)
                 || WorstCase(r.calls, r.known, ShareOf(r), r.imageReserve)
                    <= RemainingOf(r) + Saved(|r.calls|, r.prior != [])
  {
    hide GoesOn, Total, MustEnd, WorstCase, RemainingOf, ShareOf, Saved, CountResults, Results;
    if MustEnd(r) {
      forall candidates ensures !GoesOn(r, candidates) {
        NothingGoesOn(r, candidates);
      }
    } else {
      var worst := WorstCaseHappens(r);
      LengthOf(r, worst);
      TotalIs(r, worst);
      forall candidates | GoesOn(r, candidates)
        ensures |candidates| == |r.calls|
        ensures CountResults(Results(r, candidates), r.imageReserve)
                <= WorstCase(r.calls, r.known, ShareOf(r), r.imageReserve)
        ensures Total(r, candidates)
                == r.budget - RemainingOf(r) + CountResults(Results(r, candidates), r.imageReserve)
                   - Saved(|r.calls|, r.prior != [])
      {
        LengthOf(r, candidates);
        AnswersAreCounted(r, candidates);
        TotalIs(r, candidates);
      }
    }
  }

  lemma LengthOf(r: Round, candidates: seq<ToolResult>)
    requires IsRound(r) && GoesOn(r, candidates)
    ensures |candidates| == |r.calls|
  {
  }

  lemma {:induction false} WorstWithinShares(calls: seq<ToolCall>, known: seq<bool>, share: int, imageReserve: nat)
    requires |calls| == |known|
    requires forall i :: 0 <= i < |calls| && !known[i] ==>
               CountResult(NotFoundResult(calls[i]), imageReserve) <= share
    ensures WorstCase(calls, known, share, imageReserve) <= |calls| * share
    decreases |calls|
  {
    hide CountResult, NotFoundResult;
    if calls != [] {
      WorstWithinShares(calls[1..], known[1..], share, imageReserve);
    }
  }

  /**
   However many calls one round makes: if the answer to every unknown tool fits the share, then the messages before
   the round, its calls and all its results together count no more than the budget.
   */
  lemma SiblingsShareTheBudget(r: Round, candidates: seq<ToolResult>)
    requires IsRound(r) && GoesOn(r, candidates)
    requires forall i :: 0 <= i < |r.calls| && !r.known[i] ==>
               CountResult(NotFoundResult(r.calls[i]), r.imageReserve) <= ShareOf(r)
    ensures Total(r, candidates) <= r.budget
  {
    hide Total, WorstCase, Results, CountResult, CountResults, NotFoundResult, RemainingTokens, GoesOn;
    LengthOf(r, candidates);
    WorstWithinShares(r.calls, r.known, ShareOf(r), r.imageReserve);
    FloorTimes(RemainingOf(r), |r.calls|);
    AnswersAreCounted(r, candidates);
    TotalIs(r, candidates);
  }

  lemma FloorTimes(a: int, n: nat)
    requires n > 0
    ensures n * (a / n) <= a
  {
  }

  /** One call of an unknown tool and one token left for it: the turn goes on, above the budget. */
  lemma UnknownToolsMayExceed(prior: seq<Json>, tools: seq<ToolDefinition>, call: ToolCall, candidate: ToolResult,
                              imageReserve: nat)
    requires HasPlainSchemas(tools) && candidate.callId == call.id
    ensures exists r ::
              && IsRound(r) && r.prior == prior && r.tools == tools && r.calls == [call] && r.known == [false]
              && r.imageReserve == imageReserve && ShareOf(r) == 1
              && GoesOn(r, [candidate]) && Total(r, [candidate]) > r.budget
  {
    hide CountModelInput, CountCalls, CountResult, EscapedBytes, Total, Weight, Frame, ToolPayloads;
    CountIs(prior, tools, imageReserve);
    var used := CountModelInput(prior, tools, imageReserve).value + CountCalls([call], imageReserve);
    var r := Round(used + 1, prior, tools, [call], [false], imageReserve);
    assert RemainingOf(r) == 1;
    assert ShareOf(r) == 1;
    assert Results(r, [candidate]) == [NotFoundResult(call)];
    assert CountResults([NotFoundResult(call)], imageReserve) == CountResult(NotFoundResult(call), imageReserve);
    ResultCounts(NotFoundResult(call), imageReserve);
    TotalIs(r, [candidate]);
  }
}
