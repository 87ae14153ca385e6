/** Choosing the newest turns that fit the budget, and rendering them. */
module ContextSelection {
  import opened Outcomes
  import opened Utf8
  import opened Decimal
  import opened JsonSafety
  import opened CanonicalText
  import opened TokenCounter

  datatype UserContext =
    | TextContext(isAttachment: bool, name: string, text: string)
    | ImageContext(mimeType: string, base64: string)
    | SelectedDocuments

  datatype Turn = Turn(text: string, contexts: seq<UserContext>, assistants: seq<string>)

  /** What does not change while turns are chosen; the token budget and the reserve are as the caller gives them. */
  datatype Setup = Setup(
    platformPrompt: string, agentPrompt: string, agentsMd: Option<string>, tools: seq<ToolDefinition>,
    budget: int, toolResultReserve: int, imageReserve: nat)

  // ----- Rendering -----------------------------------------------------------------------------------

  function ContextText(isAttachment: bool, name: string, text: string): string {
    var source := if isAttachment then "chat attachment" else "knowledge retrieval";
    var metadata := Print(Obj(["name", "source"], [Str(name), Str(source)]));
    "[UNTRUSTED_CONTEXT metadata_utf8_bytes=" + Numeral(|Encode(metadata)|) + " content_utf8_bytes="
    + Numeral(|Encode(text)|) + "]\n" + metadata + "\n" + text + "\n[END_UNTRUSTED_CONTEXT]"
  }

  function TextPart(text: string): Json {
    Obj(["text", "type"], [Str(text), Str("text")])
  }

  function ContextParts(contexts: seq<UserContext>): seq<Json> {
    if contexts == [] then []
    else
      var first := match contexts[0]
        case TextContext(isAttachment, name, text) => [TextPart(ContextText(isAttachment, name, text))]
        case ImageContext(mimeType, base64) =>
          [Obj(["image_url", "type"],
               [Obj(["url"], [Str("data:" + mimeType + ";base64," + base64)]), Str("image_url")])]
        case SelectedDocuments => [];
      first + ContextParts(contexts[1..])
  }

  predicate IsRendered(c: UserContext) {
    !c.SelectedDocuments?
  }

  function UserContent(t: Turn): Json {
    if forall i :: 0 <= i < |t.contexts| ==> !IsRendered(t.contexts[i]) then Str(t.text)
    else Arr([TextPart(t.text)] + ContextParts(t.contexts))
  }

  function RoleMessage(role: string, content: Json): Json {
    Obj(["content", "role"], [content, Str(role)])
  }

  function AssistantMessages(texts: seq<string>): seq<Json> {
    seq(|texts|, i requires 0 <= i < |texts| => RoleMessage("assistant", Str(texts[i])))
  }

  function TurnMessages(t: Turn): seq<Json> {
    [RoleMessage("user", UserContent(t))] + AssistantMessages(t.assistants)
  }

  function AllTurnMessages(turns: seq<Turn>): seq<Json> {
    if turns == [] then [] else TurnMessages(turns[0]) + AllTurnMessages(turns[1..])
  }

  function SystemMessages(s: Setup): seq<Json> {
    [RoleMessage("system", Str(s.platformPrompt))]
    + (if s.agentPrompt != "" then [RoleMessage("system", Str(s.agentPrompt))] else [])
    + (if s.agentsMd.Some? && s.agentsMd.value != "" then [RoleMessage("system", Str(s.agentsMd.value))] else [])
  }

  /** `_render_messages`. */
  function Rendered(s: Setup, turns: seq<Turn>): seq<Json> {
    SystemMessages(s) + AllTurnMessages(turns)
  }

  // ----- Selecting -----------------------------------------------------------------------------------

  function Reserve(s: Setup): int {
    if s.tools == [] then 0 else s.toolResultReserve
  }

  /** Neither the budget nor the reserve nor a tool schema is refused. */
  predicate IsUsable(s: Setup) {
    s.budget > 0 && 0 <= Reserve(s) < s.budget && ImagesOfAll(ToolPayloads(s.tools)) == 0
  }

  function CountSelection(s: Setup, turns: seq<Turn>): int
    requires IsUsable(s)
  {
    CountModelInput(Rendered(s, turns), s.tools, s.imageReserve).value
  }

  predicate Fits(s: Setup, turns: seq<Turn>)
    requires IsUsable(s)
  {
    CountSelection(s, turns) <= s.budget - Reserve(s)
  }

  datatype Selection = Selection(turns: seq<Turn>, upperBound: int, limit: int)

  /** The newest turn is there, everything selected fits, and one more turn, or any more, would not. */
  predicate IsLongestSuffix(s: Setup, history: seq<Turn>, k: nat)
    requires IsUsable(s)
  {
    && k <= |history| && (history != [] ==> k < |history|)
    && Fits(s, history[k..])
    && forall j :: 0 <= j < k ==> !Fits(s, history[j..])
  }

  /** What has to fit in any case: the newest turn, or the prompts alone when there is no turn. */
  function Newest(history: seq<Turn>): seq<Turn> {
    if history == [] then [] else [history[|history| - 1]]
  }

  lemma {:induction false} TurnMessagesJoin(a: seq<Turn>, b: seq<Turn>)
    ensures AllTurnMessages(a + b) == AllTurnMessages(a) + AllTurnMessages(b)
  {
    if a == [] {
      assert a + b == b;
    } else {
      assert (a + b)[1..] == a[1..] + b;
      TurnMessagesJoin(a[1..], b);
    }
  }

  /** Leaving out the oldest turns never makes the count larger. */
  lemma FewerTurnsCountLess(s: Setup, older: seq<Turn>, newer: seq<Turn>)
    requires IsUsable(s)
    ensures CountSelection(s, newer) <= CountSelection(s, older + newer)
  {
    hide SystemMessages, TurnMessages, CountModelInput, ToolPayloads;
    TurnMessagesJoin(older, newer);
    var front := SystemMessages(s);
    InsertedMessagesCount(front, AllTurnMessages(older), AllTurnMessages(newer), s.tools, s.imageReserve);
    assert Rendered(s, older + newer) == front + AllTurnMessages(older) + AllTurnMessages(newer);
  }

  lemma LongerSuffixesFitLess(s: Setup, history: seq<Turn>, j: nat, k: nat)
    requires IsUsable(s) && j <= k <= |history| && Fits(s, history[j..])
    ensures Fits(s, history[k..])
  {
    hide CountSelection;
    FewerTurnsCountLess(s, history[j..k], history[k..]);
    assert history[j..] == history[j..k] + history[k..];
  }

  /** There is a budget, of which results keep less than all if there are tools, and the tools can be counted. */
  predicate HasBudget(s: Setup) {
    && s.budget > 0 && (s.tools != [] ==> 0 <= s.toolResultReserve < s.budget)
    && CountModelInput([], s.tools, s.imageReserve).Some?
  }

  /** With these turns, and with what results keep if there are tools, the budget is not exceeded. */
  predicate IsWithin(s: Setup, turns: seq<Turn>) {
    var count := CountModelInput(Rendered(s, turns), s.tools, s.imageReserve);
    count.Some? && count.value + (if s.tools != [] then s.toolResultReserve else 0) <= s.budget
  }

  /** What the newest turns are up to which everything fits, said over budget, reserve and counts. */
  predicate IsSelection(s: Setup, history: seq<Turn>, k: nat) {
    && k <= |history| && (history != [] ==> k < |history|)
    && IsWithin(s, history[k..]) && forall j :: 0 <= j < k ==> !IsWithin(s, history[j..])
  }

  lemma UsableIs(s: Setup)
    ensures IsUsable(s) <==> HasBudget(s)
  {
    hide ToolPayloads;
  }

  lemma FitsIs(s: Setup, turns: seq<Turn>)
    requires IsUsable(s)
    ensures Fits(s, turns) <==> IsWithin(s, turns)
  {
    hide ToolPayloads, Rendered;
  }

  /**
   `select_turns` succeeds if and only if there is a budget and the newest turn is within it, or the prompts alone where
   there is no turn; then it selects as many of the newest turns as are within it together.
   */
  lemma SelectionIs(s: Setup, history: seq<Turn>, k: nat)
    ensures IsUsable(s) && Fits(s, Newest(history))
            <==> HasBudget(s) && IsWithin(s, if history == [] then [] else [history[|history| - 1]])
    ensures IsUsable(s) ==>
              && (IsLongestSuffix(s, history, k) <==> IsSelection(s, history, k))
              && s.budget - Reserve(s) == s.budget - (if s.tools == [] then 0 else s.toolResultReserve)
    ensures IsUsable(s) && k <= |history| ==>
              CountModelInput(Rendered(s, history[k..]), s.tools, s.imageReserve)
              == Some(CountSelection(s, history[k..]))
  {
    UsableIs(s);
    if IsUsable(s) {
      forall turns
        ensures Fits(s, turns) <==> IsWithin(s, turns)
      {
        FitsIs(s, turns);
      }
      if k <= |history| {
        CountSucceeds(s, history[k..]);
      }
      hide Fits, CountSelection, CountModelInput, ToolPayloads, Rendered, HasBudget, IsWithin;
    }
  }

  lemma CountSucceeds(s: Setup, turns: seq<Turn>)
    requires IsUsable(s)
    ensures CountModelInput(Rendered(s, turns), s.tools, s.imageReserve) == Some(CountSelection(s, turns))
  {
    hide Rendered, ToolPayloads;
  }

  /** `select_turns`: turns are added from the newest on, until one does not fit any more. */
  method SelectTurns(s: Setup, history: seq<Turn>) returns (r: Option<Selection>, ghost k: nat)
    ensures r.Some? <==> IsUsable(s) && Fits(s, Newest(history))
    ensures r.Some? ==>
              && IsUsable(s) && IsLongestSuffix(s, history, k) && r.value.turns == history[k..]
              && r.value.upperBound == CountSelection(s, history[k..]) && r.value.limit == s.budget - Reserve(s)
  {
    hide CountSelection, ToolPayloads;
    k := 0;
    if !IsUsable(s) {
      return None, k;
    }
    var limit := s.budget - Reserve(s);
    var index := |history|;
    var selectedCount := CountSelection(s, []);
    assert history[index..] == [];
    while index > 0
      invariant 0 <= index <= |history|
      invariant selectedCount == CountSelection(s, history[index..])
      invariant index < |history| ==> Fits(s, history[index..])
    {
      var candidate := [history[index - 1]] + history[index..];
      assert candidate == history[index - 1..];
      var candidateCount := CountSelection(s, candidate);
      if candidateCount > limit {
        if index == |history| {
          assert candidate == Newest(history);
          return None, k;
        }
        break;
      }
      index, selectedCount := index - 1, candidateCount;
    }
    k := index;
    if index < |history| {
      LongerSuffixesFitLess(s, history, index, |history| - 1);
      assert history[|history| - 1..] == Newest(history);
    } else {
      assert history[index..] == Newest(history);
    }
    if selectedCount > limit {
      return None, k;
    }
    forall j | 0 <= j < k
      ensures !Fits(s, history[j..])
    {
      if Fits(s, history[j..]) {
        LongerSuffixesFitLess(s, history, j, k - 1);
      }
    }
    r := Some(Selection(history[index..], selectedCount, limit));
  }

  /** `render_selected`. */
  function RenderSelected(s: Setup, selection: Selection): Option<seq<Json>> {
    var messages := Rendered(s, selection.turns);
    var count :- CountModelInput(messages, s.tools, s.imageReserve);
    if count > selection.limit then None else Some(messages)
  }

  /** What `select_turns` selected, `render_selected` never refuses. */
  lemma SelectionsAreRendered(s: Setup, history: seq<Turn>, k: nat)
    requires IsUsable(s) && IsLongestSuffix(s, history, k)
    ensures RenderSelected(s, Selection(history[k..], CountSelection(s, history[k..]), s.budget - Reserve(s)))
            == Some(Rendered(s, history[k..]))
  {
    hide Rendered, ToolPayloads;
  }

  /** There is exactly one such selection. */
  lemma LongestSuffixIsUnique(s: Setup, history: seq<Turn>, j: nat, k: nat)
    requires IsUsable(s) && IsLongestSuffix(s, history, j) && IsLongestSuffix(s, history, k)
    ensures j == k
  {
    hide CountSelection;
  }
}
