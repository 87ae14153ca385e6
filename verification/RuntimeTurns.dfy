/** Rebuilding the conversation for the runtime from a Task's messages. */
module RuntimeTurns {
  import opened Outcomes
  import opened TaskRows
  import TaskLifecycle
  import opened JsonSafety
  import opened MC = MessageChain

  // ----- Projections ---------------------------------------------------------------------------------

  datatype Projected = Projected(fromAssistant: bool, content: Json)

  function ValueMessage(value: Option<string>): seq<Projected> {
    if value.Some? && value.value != "" then [Projected(true, Str(value.value))] else []
  }

  function ChainMessages(chain: seq<MC.Message>): seq<Projected> {
    seq(|chain|, i requires 0 <= i < |chain| =>
      if chain[i].Message? then Projected(chain[i].role == MC.AssistantRole, chain[i].content)
      else Projected(false, Null))
  }

  /** `project_assistant`: nothing in flight, at most the plain value of what failed, the chain of what completed. */
  function ProjectAssistant(x: Subtask): seq<Projected> {
    var value := if x.result.Some? then x.result.value.value else None;
    match x.status
    case Pending => []
    case Running => []
    case Failed => ValueMessage(value)
    case Cancelled => ValueMessage(value)
    case Completed =>
      if x.result.Some? && x.result.value.chain.Some? && MC.Validated(x.result.value.chain.value).Some?
      then ChainMessages(MC.Validated(x.result.value.chain.value).value)
      else ValueMessage(value)
  }

  predicate HasText(block: Json) {
    block.Obj? && Lookup(block, "text").Some? && Lookup(block, "text").value.Str?
  }

  function BlockText(block: Json): string {
    if HasText(block) then Lookup(block, "text").value.text else ""
  }

  function BlockTexts(blocks: seq<Json>): string {
    if blocks == [] then "" else BlockText(blocks[0]) + BlockTexts(blocks[1..])
  }

  /** `_projected_assistant_text`. */
  function ProjectedText(content: Json): string {
    match content
    case Str(s) => s
    case Arr(blocks) => BlockTexts(blocks)
    case _ => ""
  }

  // ----- Turns ---------------------------------------------------------------------------------------

  /** One assistant text: the subtask it comes from and its place among that subtask's messages. */
  datatype Part = Part(subtask: nat, index: nat, text: string)

  datatype Turn = Turn(user: nat, text: string, contexts: seq<nat>, assistants: seq<Part>)

  function PartsOf(x: Subtask, projected: seq<Projected>): seq<Part> {
    if projected == [] then []
    else
      var n := |projected| - 1;
      var text := ProjectedText(projected[n].content);
      PartsOf(x, projected[..n]) + if projected[n].fromAssistant && text != "" then [Part(x.id, n, text)] else []
  }

  /** What an assistant message contributes to the conversation. */
  function Answer(x: Subtask): seq<Part> {
    PartsOf(x, ProjectAssistant(x))
  }

  /** Work in flight is never replayed, and of work that ended otherwise at most its plain value. */
  lemma UnfinishedShowsAtMostItsValue(x: Subtask)
    requires x.status != Completed
    ensures IsLive(x.status) ==> Answer(x) == []
    ensures var value := if x.result.Some? then x.result.value.value else None;
            !IsLive(x.status) ==>
              Answer(x) == if value.Some? && value.value != "" then [Part(x.id, 0, value.value)] else []
  {
    assert PartsOf(x, []) == [];
    forall p: Projected ensures PartsOf(x, [p]) == if p.fromAssistant && ProjectedText(p.content) != ""
                                                   then [Part(x.id, 0, ProjectedText(p.content))] else [] {
      assert [p][..0] == [];
    }
  }

  /** Each block that has a string under `text` adds that string, in order, and everything else adds nothing. */
  lemma {:induction false} TextsAreJoined(blocks: seq<Json>, block: Json)
    ensures ProjectedText(Arr([])) == ""
    ensures ProjectedText(Arr(blocks + [block]))
            == ProjectedText(Arr(blocks))
               + if block.Obj? && Lookup(block, "text").Some? && Lookup(block, "text").value.Str?
                 then Lookup(block, "text").value.text else ""
  {
    hide Lookup;
    if blocks == [] {
      assert blocks + [block] == [block] && [block][1..] == [] && BlockTexts([]) == "";
      assert BlockText(block) + "" == BlockText(block) && "" + BlockText(block) == BlockText(block);
    } else {
      TextsAreJoined(blocks[1..], block);
      assert (blocks + [block])[1..] == blocks[1..] + [block];
      var (first, rest, last) := (BlockText(blocks[0]), BlockTexts(blocks[1..]), BlockText(block));
      assert BlockTexts(blocks + [block]) == first + (rest + last) == first + rest + last;
    }
  }

  /** The message at this place is the assistant's and says something. */
  predicate Speaks(chain: seq<MC.Message>, i: nat) {
    && i < |chain| && chain[i].Message? && chain[i].role == MC.AssistantRole
    && ProjectedText(chain[i].content) != ""
  }

  /** The first `n` messages of the chain: what the assistant says in them, in order, and nothing else. */
  predicate AreSpoken(parts: seq<Part>, x: Subtask, chain: seq<MC.Message>, n: nat) {
    && (forall k :: 0 <= k < |parts| ==>
          && parts[k].subtask == x.id && parts[k].index < n && Speaks(chain, parts[k].index)
          && parts[k].text == ProjectedText(chain[parts[k].index].content))
    && (forall j, k :: 0 <= j < k < |parts| ==> parts[j].index < parts[k].index)
    && forall i :: 0 <= i < n && Speaks(chain, i) ==> exists k :: 0 <= k < |parts| && parts[k].index == i
  }

  lemma {:induction false} PartsAreSpoken(x: Subtask, chain: seq<MC.Message>, n: nat)
    requires n <= |chain|
    ensures AreSpoken(PartsOf(x, ChainMessages(chain)[..n]), x, chain, n)
  {
    hide ProjectedText, AreSpoken;
    if n == 0 {
      NothingIsSpoken(x, chain);
    } else {
      PartsAreSpoken(x, chain, n - 1);
      assert ChainMessages(chain)[..n][..n - 1] == ChainMessages(chain)[..n - 1];
      OneMoreIsSpoken(PartsOf(x, ChainMessages(chain)[..n - 1]), x, chain, n - 1);
    }
  }

  lemma NothingIsSpoken(x: Subtask, chain: seq<MC.Message>)
    ensures AreSpoken([], x, chain, 0)
  {
  }

  lemma OneMoreIsSpoken(before: seq<Part>, x: Subtask, chain: seq<MC.Message>, n: nat)
    requires n < |chain| && AreSpoken(before, x, chain, n)
    ensures Speaks(chain, n) ==> AreSpoken(before + [Part(x.id, n, ProjectedText(chain[n].content))], x, chain, n + 1)
    ensures !Speaks(chain, n) ==> AreSpoken(before + [], x, chain, n + 1)
  {
    hide ProjectedText;
    assert before + [] == before;
    if Speaks(chain, n) {
      var parts := before + [Part(x.id, n, ProjectedText(chain[n].content))];
      forall i | 0 <= i < n + 1 && Speaks(chain, i)
        ensures exists k :: 0 <= k < |parts| && parts[k].index == i
      {
        if i < n {
          var k :| 0 <= k < |before| && before[k].index == i;
          assert parts[k].index == i;
        } else {
          assert parts[|before|].index == i;
        }
      }
    }
  }

  /**
   Of completed work the next turn is told exactly what the assistant's own messages in the validated chain say, in
   their order, and where there is no such chain at most the plain value.
   */
  lemma CompletedShowsItsChain(x: Subtask)
    requires x.status == Completed
    ensures x.result.Some? && x.result.value.chain.Some? && MC.Validated(x.result.value.chain.value).Some? ==>
              var chain := MC.Validated(x.result.value.chain.value).value;
              AreSpoken(Answer(x), x, chain, |chain|)
    ensures var value := if x.result.Some? then x.result.value.value else None;
            !(x.result.Some? && x.result.value.chain.Some? && MC.Validated(x.result.value.chain.value).Some?) ==>
              Answer(x) == if value.Some? && value.value != "" then [Part(x.id, 0, value.value)] else []
  {
    hide MC.Validated, AreSpoken;
    if x.result.Some? && x.result.value.chain.Some? && MC.Validated(x.result.value.chain.value).Some? {
      var chain := MC.Validated(x.result.value.chain.value).value;
      PartsAreSpoken(x, chain, |chain|);
      assert ChainMessages(chain)[..|chain|] == ChainMessages(chain);
    } else {
      assert PartsOf(x, []) == [];
      var value := if x.result.Some? then x.result.value.value else None;
      if value.Some? && value.value != "" {
        assert [Projected(true, Str(value.value))][..0] == [];
      }
    }
  }

  function ContextsOf(contexts: map<nat, seq<nat>>, user: nat): seq<nat> {
    if user in contexts then contexts[user] else []
  }

  /** The turns so far and the message id of the last user: `None` where `_runtime_turns` raises `history_invalid`. */
  function Turns(subtasks: seq<Subtask>, contexts: map<nat, seq<nat>>): Option<(seq<Turn>, Option<nat>)> {
    if subtasks == [] then Some(([], None))
    else
      var (turns, current) :- Turns(subtasks[..|subtasks| - 1], contexts);
      Extended(turns, current, subtasks[|subtasks| - 1], contexts)
  }

  function Extended(turns: seq<Turn>, current: Option<nat>, x: Subtask, contexts: map<nat, seq<nat>>)
    : Option<(seq<Turn>, Option<nat>)>
  {
    if x.role == User then
      Some((turns + [Turn(x.id, x.prompt, ContextsOf(contexts, x.id), [])], Some(x.messageId)))
    else if turns == [] then Some((turns, current))
    else if x.parent != current then None
    else
      var parts := Answer(x);
      var last := turns[|turns| - 1];
      Some((if parts == [] then turns else turns[|turns| - 1 := last.(assistants := last.assistants + parts)], current))
  }

  function UpTo(subtasks: seq<Subtask>, cutoff: nat): seq<Subtask> {
    if subtasks == [] then []
    else
      var last := subtasks[|subtasks| - 1];
      UpTo(subtasks[..|subtasks| - 1], cutoff) + if last.messageId <= cutoff then [last] else []
  }

  /** `_runtime_turns`: the messages up to the cutoff, and then the loop that grows the list of turns. */
  method BuildTurns(subtasks: seq<Subtask>, cutoff: nat, contexts: map<nat, seq<nat>>)
    returns (r: Option<seq<Turn>>)
    ensures Turns(UpTo(subtasks, cutoff), contexts).Some? ==> r == Some(Turns(UpTo(subtasks, cutoff), contexts).value.0)
    ensures Turns(UpTo(subtasks, cutoff), contexts).None? ==> r == None
  {
    hide Answer, ContextsOf, UpTo, Turns;
    var kept: seq<Subtask> := [];
    UpToNext(subtasks, 0, cutoff);
    for i := 0 to |subtasks|
      invariant kept == UpTo(subtasks[..i], cutoff)
    {
      UpToNext(subtasks, i + 1, cutoff);
      if subtasks[i].messageId <= cutoff {
        kept := kept + [subtasks[i]];
      }
    }
    assert subtasks[..|subtasks|] == subtasks;
    var turns: seq<Turn> := [];
    var current: Option<nat> := None;
    assert kept[..0] == [];
    NoTurns(contexts);
    for i := 0 to |kept|
      invariant Turns(kept[..i], contexts) == Some((turns, current))
    {
      TurnsNext(kept, i + 1, contexts);
      var x := kept[i];
      if x.role == User {
        turns := turns + [Turn(x.id, x.prompt, ContextsOf(contexts, x.id), [])];
        current := Some(x.messageId);
      } else if turns != [] {
        if x.parent != current {
          InvalidStays(kept, i + 1, contexts);
          return None;
        }
        var parts := Answer(x);
        if parts != [] {
          var last := turns[|turns| - 1];
          turns := turns[|turns| - 1 := last.(assistants := last.assistants + parts)];
        }
      }
    }
    assert kept[..|kept|] == kept;
    r := Some(turns);
  }

  lemma {:induction false} InvalidStays(subtasks: seq<Subtask>, n: nat, contexts: map<nat, seq<nat>>)
    requires n <= |subtasks| && Turns(subtasks[..n], contexts).None?
    ensures Turns(subtasks, contexts).None?
  {
    hide Extended;
    if n == |subtasks| {
      assert subtasks[..n] == subtasks;
    } else {
      var init := subtasks[..|subtasks| - 1];
      assert init[..n] == subtasks[..n];
      InvalidStays(init, n, contexts);
    }
  }

  // ----- Histories are always valid ------------------------------------------------------------------

  lemma {:induction false} UpToIsAPrefix(subtasks: seq<Subtask>, n: nat, cutoff: nat)
    requires IsOrdered(subtasks) && n <= |subtasks|
    ensures UpTo(subtasks[..n], cutoff) == subtasks[..if n <= cutoff then n else cutoff]
  {
    hide IsOrdered, UpTo;
    UpToNext(subtasks, n, cutoff);
    if n > 0 {
      UpToIsAPrefix(subtasks, n - 1, cutoff);
      RowAt(subtasks, n - 1);
      assert subtasks[..n] == subtasks[..n - 1] + [subtasks[n - 1]];
    }
  }

  lemma UpToNext(subtasks: seq<Subtask>, n: nat, cutoff: nat)
    requires n <= |subtasks|
    ensures UpTo(subtasks[..n], cutoff)
            == if n == 0 then []
               else UpTo(subtasks[..n - 1], cutoff)
                    + if subtasks[n - 1].messageId <= cutoff then [subtasks[n - 1]] else []
  {
    if n > 0 {
      assert subtasks[..n][..n - 1] == subtasks[..n - 1];
    }
  }

  lemma NoTurns(contexts: map<nat, seq<nat>>)
    ensures Turns([], contexts) == Some(([], None))
  {
  }

  lemma TurnsNext(subtasks: seq<Subtask>, n: nat, contexts: map<nat, seq<nat>>)
    requires 0 < n <= |subtasks|
    ensures Turns(subtasks[..n], contexts)
            == match Turns(subtasks[..n - 1], contexts)
               case None => None
               case Some((turns, current)) => Extended(turns, current, subtasks[n - 1], contexts)
  {
    hide Extended;
    assert subtasks[..n][..n - 1] == subtasks[..n - 1];
  }

  /** The user message at place `2 * k` with its own contexts, and what the assistant after it contributes. */
  predicate IsTurnOf(turn: Turn, subtasks: seq<Subtask>, n: nat, k: nat, contexts: map<nat, seq<nat>>)
    requires 2 * k < n <= |subtasks|
  {
    var user := subtasks[2 * k];
    && turn.user == user.id && turn.text == user.prompt && turn.contexts == ContextsOf(contexts, user.id)
    && turn.assistants == if 2 * k + 1 < n then Answer(subtasks[2 * k + 1]) else []
  }

  /** One turn per user message, in order, and the last user's message id. */
  predicate IsHistory(subtasks: seq<Subtask>, n: nat, turns: seq<Turn>, current: Option<nat>,
                      contexts: map<nat, seq<nat>>)
    requires n <= |subtasks|
  {
    && |turns| == (n + 1) / 2
    && (forall k :: 0 <= k < |turns| ==> IsTurnOf(turns[k], subtasks, n, k, contexts))
    && current == (if n == 0 then None else Some(2 * |turns| - 1))
  }

  lemma UserExtends(subtasks: seq<Subtask>, n: nat, turns: seq<Turn>, current: Option<nat>,
                    contexts: map<nat, seq<nat>>)
    requires n < |subtasks| && n % 2 == 0 && IsHistory(subtasks, n, turns, current, contexts)
    requires subtasks[n].role == User && subtasks[n].messageId == n + 1
    ensures var next := Extended(turns, current, subtasks[n], contexts);
            next.Some? && IsHistory(subtasks, n + 1, next.value.0, next.value.1, contexts)
  {
    hide Answer, ContextsOf;
  }

  lemma AssistantExtends(subtasks: seq<Subtask>, n: nat, turns: seq<Turn>, current: Option<nat>,
                         contexts: map<nat, seq<nat>>)
    requires n < |subtasks| && n % 2 == 1 && IsHistory(subtasks, n, turns, current, contexts)
    requires subtasks[n].role == Assistant && subtasks[n].parent == Some(n)
    ensures var next := Extended(turns, current, subtasks[n], contexts);
            next.Some? && IsHistory(subtasks, n + 1, next.value.0, next.value.1, contexts)
  {
    hide Answer, ContextsOf;
  }

  lemma RowAt(subtasks: seq<Subtask>, n: nat)
    requires IsOrdered(subtasks) && n < |subtasks|
    ensures n % 2 == 0 ==> subtasks[n].role == User && subtasks[n].messageId == n + 1
    ensures n % 2 == 1 ==> subtasks[n].role == Assistant && subtasks[n].parent == Some(n)
    ensures subtasks[n].messageId == n + 1
  {
  }

  lemma {:induction false} OrderedHistoriesAreValid(subtasks: seq<Subtask>, n: nat, contexts: map<nat, seq<nat>>)
    requires IsOrdered(subtasks) && n <= |subtasks|
    ensures Turns(subtasks[..n], contexts).Some?
    ensures var (turns, current) := Turns(subtasks[..n], contexts).value;
            IsHistory(subtasks, n, turns, current, contexts)
  {
    hide Extended, IsOrdered, IsTurnOf;
    if n > 0 {
      OrderedHistoriesAreValid(subtasks, n - 1, contexts);
      hide Turns, IsHistory;
      TurnsNext(subtasks, n, contexts);
      var (turns, current) := Turns(subtasks[..n - 1], contexts).value;
      RowAt(subtasks, n - 1);
      if n % 2 == 1 {
        UserExtends(subtasks, n - 1, turns, current, contexts);
      } else {
        AssistantExtends(subtasks, n - 1, turns, current, contexts);
      }
    }
  }

  /** Every earlier user message with what answered it, and at the end the current one without an answer. */
  predicate IsGiven(turns: seq<Turn>, subtasks: seq<Subtask>, userIndex: nat, contexts: map<nat, seq<nat>>) {
    && userIndex < |subtasks| && userIndex % 2 == 0
    && |turns| == userIndex / 2 + 1
    && (forall k :: 0 <= k < |turns| ==> IsTurnOf(turns[k], subtasks, userIndex + 1, k, contexts))
    && turns[|turns| - 1].assistants == []
  }

  /** `prepare_send` up to the new user message. */
  lemma SendSeesAValidHistory(r: Rows, prompt: string, userId: nat, assistantId: nat, contexts: map<nat, seq<nat>>)
    requires IsOrdered(r.subtasks)
    ensures var t := TurnCreated(r, prompt, userId, assistantId).subtasks;
            var i := |r.subtasks|;
            && t[i].id == userId && t[i].prompt == prompt
            && Turns(UpTo(t, t[i].messageId), contexts).Some?
            && IsGiven(Turns(UpTo(t, t[i].messageId), contexts).value.0, t, i, contexts)
  {
    hide Turns, UpTo, IsOrdered, IsHistory, IsGiven;
    TurnKeepsOrder(r, prompt, userId, assistantId);
    var t := TurnCreated(r, prompt, userId, assistantId).subtasks;
    var i := |r.subtasks|;
    SentAt(r, prompt, userId, assistantId);
    UpToIsAPrefix(t, |t|, i + 1);
    assert t[..|t|] == t;
    OrderedHistoriesAreValid(t, i + 1, contexts);
    var (turns, current) := Turns(t[..i + 1], contexts).value;
    HistoryIsGiven(t, i, turns, current, contexts);
  }

  lemma PendingAddsNothing(subtasks: seq<Subtask>, n: nat, contexts: map<nat, seq<nat>>)
    requires IsOrdered(subtasks) && 0 < n <= |subtasks| && subtasks[n - 1].status == Pending
    requires subtasks[n - 1].role == Assistant
    ensures Turns(subtasks[..n], contexts) == Turns(subtasks[..n - 1], contexts)
  {
    hide Turns, IsHistory, IsOrdered, Extended;
    OrderedHistoriesAreValid(subtasks, n - 1, contexts);
    OrderedHistoriesAreValid(subtasks, n, contexts);
    TurnsNext(subtasks, n, contexts);
    var (turns, current) := Turns(subtasks[..n - 1], contexts).value;
    PendingExtendsNothing(turns, current, subtasks[n - 1], contexts);
  }

  lemma PendingExtendsNothing(turns: seq<Turn>, current: Option<nat>, x: Subtask, contexts: map<nat, seq<nat>>)
    requires x.status == Pending && x.role == Assistant && Extended(turns, current, x, contexts).Some?
    ensures Extended(turns, current, x, contexts) == Some((turns, current))
  {
    hide ContextsOf;
    assert PartsOf(x, []) == [];
  }

  lemma HistoryIsGiven(subtasks: seq<Subtask>, i: nat, turns: seq<Turn>, current: Option<nat>,
                       contexts: map<nat, seq<nat>>)
    requires i < |subtasks| && i % 2 == 0 && IsHistory(subtasks, i + 1, turns, current, contexts)
    ensures IsGiven(turns, subtasks, i, contexts)
  {
    hide Answer, ContextsOf;
    assert IsTurnOf(turns[i / 2], subtasks, i + 1, i / 2, contexts);
  }

  lemma ResetKeepsOrder(r: Rows, id: nat)
    requires IsOrdered(r.subtasks) && ResetFailed(r, id).Some?
    ensures var t := ResetFailed(r, id).value.subtasks;
            var i := IndexOf(r.subtasks, id);
            && i.Some? && |t| == |r.subtasks| && i.value % 2 == 1 && i.value > 0
            && IsOrdered(t) && t[i.value].id == id && t[i.value].status == Pending
  {
  }

  /** `prepare_retry`, of any failed assistant: its parent is there, and the history ends with it. */
  lemma RetrySeesAValidHistory(r: Rows, id: nat, contexts: map<nat, seq<nat>>)
    requires IsOrdered(r.subtasks) && ResetFailed(r, id).Some?
    ensures var t := ResetFailed(r, id).value.subtasks;
            var i := IndexOf(r.subtasks, id).value;
            && 0 < i < |t| && t[i].id == id && t[i].parent == Some(t[i - 1].messageId) && t[i - 1].role == User
            && Turns(UpTo(t, t[i].messageId), contexts).Some?
            && IsGiven(Turns(UpTo(t, t[i].messageId), contexts).value.0, t, i - 1, contexts)
  {
    hide Turns, UpTo, IsOrdered, ResetFailed, IsHistory, IsGiven;
    var t := ResetFailed(r, id).value.subtasks;
    ResetKeepsOrder(r, id);
    var i := IndexOf(r.subtasks, id).value;
    RowAt(t, i);
    RowAt(t, i - 1);
    UpToIsAPrefix(t, |t|, i + 1);
    assert t[..|t|] == t;
    OrderedHistoriesAreValid(t, i, contexts);
    var (turns, current) := Turns(t[..i], contexts).value;
    HistoryIsGiven(t, i - 1, turns, current, contexts);
    PendingAddsNothing(t, i + 1, contexts);
  }

  /** No run of Task steps ever leads to a history that a send or a retry could not replay. */
  lemma EveryReachableHistoryIsValid(steps: seq<TaskLifecycle.Step>, prompt: string, userId: nat, assistantId: nat,
                                     id: nat, contexts: map<nat, seq<nat>>)
    requires TaskLifecycle.Run(TaskLifecycle.START, steps).rows.Some?
    ensures var r := TaskLifecycle.Run(TaskLifecycle.START, steps).rows.value;
            var sent := TurnCreated(r, prompt, userId, assistantId).subtasks;
            && Turns(UpTo(sent, |r.subtasks| + 1), contexts).Some?
            && IsGiven(Turns(UpTo(sent, |r.subtasks| + 1), contexts).value.0, sent, |r.subtasks|, contexts)
            && (ResetFailed(r, id).Some? ==>
                  var retried := ResetFailed(r, id).value.subtasks;
                  var i := IndexOf(r.subtasks, id).value;
                  && i > 0 && i < |retried|
                  && Turns(UpTo(retried, retried[i].messageId), contexts).Some?
                  && IsGiven(Turns(UpTo(retried, retried[i].messageId), contexts).value.0, retried, i - 1, contexts))
  {
    hide Turns, UpTo, TaskLifecycle.Run, TurnCreated, ResetFailed, IsGiven;
    TaskLifecycle.TaskStatusIsTheAssistants(steps);
    var r := TaskLifecycle.Run(TaskLifecycle.START, steps).rows.value;
    SendSeesAValidHistory(r, prompt, userId, assistantId, contexts);
    SentAt(r, prompt, userId, assistantId);
    if ResetFailed(r, id).Some? {
      RetrySeesAValidHistory(r, id, contexts);
    }
  }

  lemma SentAt(r: Rows, prompt: string, userId: nat, assistantId: nat)
    requires IsOrdered(r.subtasks)
    ensures var t := TurnCreated(r, prompt, userId, assistantId).subtasks;
            && |r.subtasks| % 2 == 0 && |t| == |r.subtasks| + 2
            && t[|r.subtasks|].messageId == |r.subtasks| + 1
  {
    hide MaxMessageId;
    MaxIsTheLength(r.subtasks);
  }
}
