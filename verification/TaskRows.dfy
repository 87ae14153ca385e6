/** One Task and its Subtasks as the repository changes them; `None` is a transaction that raises and rolls back. */
module TaskRows {
  import opened Outcomes
  import MessageChain

  datatype Status = Pending | Running | Completed | Failed | Cancelled

  datatype Role = User | Assistant

  /** What is left of a stored result where histories are concerned. */
  datatype StoredResult = StoredResult(value: Option<string>, chain: Option<seq<MessageChain.Message>>)

  datatype Subtask = Subtask(
    id: nat, role: Role, messageId: nat, parent: Option<nat>, prompt: string, status: Status, progress: int,
    result: Option<StoredResult>, error: Option<string>)

  /** Subtasks in the order of `list_subtasks`: by message id. */
  datatype Rows = Rows(status: Status, isActive: bool, subtasks: seq<Subtask>)

  predicate IsLive(status: Status) {
    status == Pending || status == Running
  }

  // ----- Finding rows --------------------------------------------------------------------------------

  function IndexOf(subtasks: seq<Subtask>, id: nat): (r: Option<nat>)
    ensures r.Some? ==> r.value < |subtasks| && subtasks[r.value].id == id
    ensures r.None? ==> forall i :: 0 <= i < |subtasks| ==> subtasks[i].id != id
  {
    if subtasks == [] then None
    else if subtasks[|subtasks| - 1].id == id then Some(|subtasks| - 1)
    else IndexOf(subtasks[..|subtasks| - 1], id)
  }

  /** `select max(message_id)`. */
  function MaxMessageId(subtasks: seq<Subtask>): Option<nat> {
    if subtasks == [] then None
    else
      var last := subtasks[|subtasks| - 1].messageId;
      match MaxMessageId(subtasks[..|subtasks| - 1])
      case None => Some(last)
      case Some(m) => Some(if m > last then m else last)
  }

  /** `_get_owned_assistant`: the assistant's index, while the Task is not deleted. */
  function OwnedAssistant(r: Rows, id: nat): Option<nat> {
    if !r.isActive then None
    else
      var i :- IndexOf(r.subtasks, id);
      if r.subtasks[i].role == Assistant then Some(i) else None
  }

  // ----- The repository's transitions ----------------------------------------------------------------

  /** `create_turn`: a finished USER message and a pending ASSISTANT message after everything there is. */
  function TurnCreated(r: Rows, prompt: string, userId: nat, assistantId: nat): Rows {
    var previous := MaxMessageId(r.subtasks);
    var first := if previous.Some? then previous.value + 1 else 1;
    Rows(Pending, r.isActive,
         r.subtasks
         + [Subtask(userId, User, first, previous, prompt, Completed, 100, None, None),
            Subtask(assistantId, Assistant, first + 1, Some(first), "", Pending, 0, None, None)])
  }

  function Clamped(progress: int): int {
    if progress < 0 then 0 else if progress > 100 then 100 else progress
  }

  function MarkedRunning(r: Rows, id: nat): Option<Rows> {
    var i :- OwnedAssistant(r, id);
    var x := r.subtasks[i];
    if x.status != Pending then None
    else
      Some(r.(status := Running,
              subtasks := r.subtasks[i := x.(status := Running, progress := Clamped(x.progress))]))
  }

  function FinishedAssistant(r: Rows, id: nat, status: Status, result: Option<StoredResult>, error: Option<string>)
    : Option<Rows>
  {
    if status != Completed && status != Failed then None
    else
      var i :- OwnedAssistant(r, id);
      var x := r.subtasks[i];
      if !IsLive(x.status) then None
      else
        Some(r.(status := status,
                subtasks := r.subtasks[i := x.(status := status, progress := 100, result := result, error := error)]))
  }

  function CancelledAssistant(r: Rows, id: nat, result: Option<StoredResult>): Option<Rows> {
    var i :- OwnedAssistant(r, id);
    var x := r.subtasks[i];
    if !IsLive(x.status) then None
    else
      Some(r.(status := Cancelled,
              subtasks := r.subtasks[i := x.(status := Cancelled, progress := 100, result := result, error := None)]))
  }

  /** `fail_active_assistant`: two conditional updates; the flag says whether the first one matched a row. */
  function FailedActive(r: Rows, id: nat, result: Option<StoredResult>, error: string): Option<(Rows, bool)> {
    match IndexOf(r.subtasks, id)
    case None => Some((r, false))
    case Some(i) =>
      var x := r.subtasks[i];
      if x.role != Assistant || !IsLive(x.status) then Some((r, false))
      else if !r.isActive || !IsLive(r.status) then None
      else
        Some((r.(status := Failed,
                 subtasks := r.subtasks[i := x.(status := Failed, progress := 100, result := result,
                                                error := Some(error))]),
              true))
  }

  /** `reset_failed_assistant`, which any failed assistant allows, not only the last one. */
  function ResetFailed(r: Rows, id: nat): Option<Rows> {
    var i :- OwnedAssistant(r, id);
    var x := r.subtasks[i];
    if x.status != Failed then None
    else
      Some(r.(status := Pending,
              subtasks := r.subtasks[i := x.(status := Pending, progress := 0, result := None, error := None)]))
  }

  function Interrupted(x: Subtask): Subtask {
    if x.role == Assistant && IsLive(x.status)
    then x.(status := Failed, progress := 100, error := Some("generation_interrupted"))
    else x
  }

  /** `recover_interrupted`, for this Task: it is failed when one of its assistants was. */
  function Recovered(r: Rows): Rows {
    if exists i :: 0 <= i < |r.subtasks| && r.subtasks[i].role == Assistant && IsLive(r.subtasks[i].status) then
      Rows(Failed, r.isActive, seq(|r.subtasks|, i requires 0 <= i < |r.subtasks| => Interrupted(r.subtasks[i])))
    else r
  }

  /** `soft_delete_if_terminal`. */
  function SoftDeleted(r: Rows): Option<Rows> {
    if r.isActive && !IsLive(r.status) then Some(r.(isActive := false)) else None
  }

  // ----- The rows, changed in place ------------------------------------------------------------------

  class TaskTable {
    var status: Status
    var isActive: bool
    var subtasks: seq<Subtask>

    function Contents(): Rows
      reads this
    {
      Rows(status, isActive, subtasks)
    }

    constructor ()
      ensures Contents() == Rows(Pending, true, [])
    {
      status, isActive, subtasks := Pending, true, [];
    }

    method CreateTurn(prompt: string, userId: nat, assistantId: nat)
      modifies this
      ensures Contents() == TurnCreated(old(Contents()), prompt, userId, assistantId)
    {
      var previous: Option<nat> := None;
      for i := 0 to |subtasks|
        invariant previous == MaxMessageId(subtasks[..i])
        invariant Contents() == old(Contents())
      {
        assert subtasks[..i + 1][..i] == subtasks[..i];
        if previous.None? || previous.value <= subtasks[i].messageId {
          previous := Some(subtasks[i].messageId);
        }
      }
      assert subtasks[..|subtasks|] == subtasks;
      var first := if previous.Some? then previous.value + 1 else 1;
      status := Pending;
      subtasks := subtasks
      + [Subtask(userId, User, first, previous, prompt, Completed, 100, None, None),
         Subtask(assistantId, Assistant, first + 1, Some(first), "", Pending, 0, None, None)];
    }

    method MarkRunning(id: nat) returns (ok: bool)
      modifies this
      ensures ok ==> MarkedRunning(old(Contents()), id) == Some(Contents())
      ensures !ok ==> MarkedRunning(old(Contents()), id) == None && Contents() == old(Contents())
    {
      var i := OwnedAssistant(Contents(), id);
      if i.None? || subtasks[i.value].status != Pending {
        return false;
      }
      var x := subtasks[i.value];
      subtasks := subtasks[i.value := x.(status := Running, progress := Clamped(x.progress))];
      status := Running;
      ok := true;
    }

    method FinishAssistant(id: nat, outcome: Status, result: Option<StoredResult>, error: Option<string>)
      returns (ok: bool)
      modifies this
      ensures ok ==> FinishedAssistant(old(Contents()), id, outcome, result, error) == Some(Contents())
      ensures !ok ==> FinishedAssistant(old(Contents()), id, outcome, result, error) == None
                      && Contents() == old(Contents())
    {
      if outcome != Completed && outcome != Failed {
        return false;
      }
      var i := OwnedAssistant(Contents(), id);
      if i.None? || !IsLive(subtasks[i.value].status) {
        return false;
      }
      subtasks := subtasks[i.value := subtasks[i.value].(status := outcome, progress := 100, result := result,
                                                         error := error)];
      status := outcome;
      ok := true;
    }

    method CancelAssistant(id: nat, result: Option<StoredResult>) returns (ok: bool)
      modifies this
      ensures ok ==> CancelledAssistant(old(Contents()), id, result) == Some(Contents())
      ensures !ok ==> CancelledAssistant(old(Contents()), id, result) == None && Contents() == old(Contents())
    {
      var i := OwnedAssistant(Contents(), id);
      if i.None? || !IsLive(subtasks[i.value].status) {
        return false;
      }
      subtasks := subtasks[i.value := subtasks[i.value].(status := Cancelled, progress := 100, result := result,
                                                         error := None)];
      status := Cancelled;
      ok := true;
    }

    /** Two conditional updates in one transaction, which is rolled back when only the first one matches. */
    method FailActiveAssistant(id: nat, result: Option<StoredResult>, error: string) returns (changed: Option<bool>)
      modifies this
      ensures changed.Some? ==> FailedActive(old(Contents()), id, result, error) == Some((Contents(), changed.value))
      ensures changed.None? ==> FailedActive(old(Contents()), id, result, error) == None
                                && Contents() == old(Contents())
    {
      var before := subtasks;
      var i := IndexOf(subtasks, id);
      if i.None? || subtasks[i.value].role != Assistant || !IsLive(subtasks[i.value].status) {
        return Some(false);
      }
      subtasks := subtasks[i.value := subtasks[i.value].(status := Failed, progress := 100, result := result,
                                                         error := Some(error))];
      if !isActive || !IsLive(status) {
        subtasks := before;
        return None;
      }
      status := Failed;
      changed := Some(true);
    }

    method ResetFailedAssistant(id: nat) returns (ok: bool)
      modifies this
      ensures ok ==> ResetFailed(old(Contents()), id) == Some(Contents())
      ensures !ok ==> ResetFailed(old(Contents()), id) == None && Contents() == old(Contents())
    {
      var i := OwnedAssistant(Contents(), id);
      if i.None? || subtasks[i.value].status != Failed {
        return false;
      }
      subtasks := subtasks[i.value := subtasks[i.value].(status := Pending, progress := 0, result := None,
                                                         error := None)];
      status := Pending;
      ok := true;
    }

    method RecoverInterrupted() returns (count: nat)
      modifies this
      ensures Contents() == Recovered(old(Contents()))
      ensures count == 0 <==> Contents() == old(Contents())
    {
      count := 0;
      ghost var before := subtasks;
      for i := 0 to |subtasks|
        invariant |subtasks| == |before| && isActive == old(isActive) && status == old(status)
        invariant forall k :: 0 <= k < i ==> subtasks[k] == Interrupted(before[k])
        invariant forall k :: i <= k < |subtasks| ==> subtasks[k] == before[k]
        invariant count == 0 <==> forall k :: 0 <= k < i ==> !(before[k].role == Assistant && IsLive(before[k].status))
      {
        var x := subtasks[i];
        if x.role == Assistant && IsLive(x.status) {
          subtasks := subtasks[i := x.(status := Failed, progress := 100, error := Some("generation_interrupted"))];
          count := count + 1;
        }
      }
      if count > 0 {
        status := Failed;
        assert subtasks == Recovered(old(Contents())).subtasks;
        ghost var k :| 0 <= k < |before| && before[k].role == Assistant && IsLive(before[k].status);
        assert subtasks[k] != before[k];
      } else {
        assert subtasks == before;
      }
    }

    method SoftDelete() returns (ok: bool)
      modifies this
      ensures ok ==> SoftDeleted(old(Contents())) == Some(Contents())
      ensures !ok ==> SoftDeleted(old(Contents())) == None && Contents() == old(Contents())
    {
      ok := isActive && !IsLive(status);
      isActive := isActive && !ok;
    }
  }

  // ----- What every transition keeps -----------------------------------------------------------------

  /** Message ids are 1, 2, 3, ..., alternating USER and ASSISTANT, each after its parent. */
  predicate IsOrdered(subtasks: seq<Subtask>) {
    && |subtasks| % 2 == 0
    && forall i :: 0 <= i < |subtasks| ==>
         && subtasks[i].messageId == i + 1
         && subtasks[i].parent == (if i == 0 then None else Some(i))
         && (subtasks[i].role == User <==> i % 2 == 0)
         && (subtasks[i].role == User ==> subtasks[i].status == Completed)
  }

  predicate HasDistinctIds(subtasks: seq<Subtask>) {
    forall i, j :: 0 <= i < j < |subtasks| ==> subtasks[i].id != subtasks[j].id
  }

  /** The Task is pending or running exactly when one and only one assistant is, and then with the same status. */
  predicate IsConsistent(r: Rows) {
    && (forall i :: 0 <= i < |r.subtasks| && IsLive(r.subtasks[i].status) ==> r.subtasks[i].status == r.status)
    && (forall i, j :: 0 <= i < |r.subtasks| && 0 <= j < |r.subtasks| ==>
          IsLive(r.subtasks[i].status) && IsLive(r.subtasks[j].status) ==> i == j)
    && (IsLive(r.status) ==> exists i :: 0 <= i < |r.subtasks| && IsLive(r.subtasks[i].status))
    && (!r.isActive ==> !IsLive(r.status))
  }

  predicate Inv(r: Rows) {
    IsOrdered(r.subtasks) && HasDistinctIds(r.subtasks) && IsConsistent(r)
  }

  /** The ids that the database gives to new rows are new. */
  predicate AreNew(subtasks: seq<Subtask>, userId: nat, assistantId: nat) {
    userId != assistantId
    && forall i :: 0 <= i < |subtasks| ==> subtasks[i].id != userId && subtasks[i].id != assistantId
  }

  lemma {:induction false} MaxIsTheLength(subtasks: seq<Subtask>)
    requires forall i :: 0 <= i < |subtasks| ==> subtasks[i].messageId == i + 1
    ensures MaxMessageId(subtasks) == if subtasks == [] then None else Some(|subtasks|)
  {
    if subtasks != [] {
      MaxIsTheLength(subtasks[..|subtasks| - 1]);
    }
  }

  lemma TurnKeepsOrder(r: Rows, prompt: string, userId: nat, assistantId: nat)
    requires IsOrdered(r.subtasks)
    ensures IsOrdered(TurnCreated(r, prompt, userId, assistantId).subtasks)
  {
    hide MaxMessageId;
    MaxIsTheLength(r.subtasks);
    var (before, after) := (r.subtasks, TurnCreated(r, prompt, userId, assistantId).subtasks);
    forall i | 0 <= i < |after|
      ensures after[i].messageId == i + 1 && after[i].parent == (if i == 0 then None else Some(i))
      ensures (after[i].role == User <==> i % 2 == 0) && (after[i].role == User ==> after[i].status == Completed)
    {
      if i < |before| {
        assert after[i] == before[i];
      }
    }
  }

  lemma TurnKeepsIds(r: Rows, prompt: string, userId: nat, assistantId: nat)
    requires HasDistinctIds(r.subtasks) && AreNew(r.subtasks, userId, assistantId)
    ensures HasDistinctIds(TurnCreated(r, prompt, userId, assistantId).subtasks)
  {
    hide MaxMessageId;
  }

  lemma TurnIsConsistent(r: Rows, prompt: string, userId: nat, assistantId: nat)
    requires r.isActive && forall i :: 0 <= i < |r.subtasks| ==> !IsLive(r.subtasks[i].status)
    ensures IsConsistent(TurnCreated(r, prompt, userId, assistantId))
  {
    hide MaxMessageId;
    var after := TurnCreated(r, prompt, userId, assistantId);
    assert after.subtasks[|r.subtasks| + 1].status == Pending;
    assert forall i :: 0 <= i < |after.subtasks| && i != |r.subtasks| + 1 ==> !IsLive(after.subtasks[i].status);
  }

  lemma TurnCreatedKeeps(r: Rows, prompt: string, userId: nat, assistantId: nat)
    requires IsOrdered(r.subtasks) && HasDistinctIds(r.subtasks) && AreNew(r.subtasks, userId, assistantId)
    requires r.isActive && forall i :: 0 <= i < |r.subtasks| ==> !IsLive(r.subtasks[i].status)
    ensures Inv(TurnCreated(r, prompt, userId, assistantId))
  {
    hide IsOrdered, HasDistinctIds, IsConsistent, TurnCreated;
    TurnKeepsOrder(r, prompt, userId, assistantId);
    TurnKeepsIds(r, prompt, userId, assistantId);
    TurnIsConsistent(r, prompt, userId, assistantId);
  }

  /** Changing the one live assistant, or making one live where none is. */
  lemma ChangedKeeps(r: Rows, i: nat, x: Subtask)
    requires Inv(r) && i < |r.subtasks| && r.subtasks[i].role == Assistant
    requires x == r.subtasks[i].(status := x.status, progress := x.progress, result := x.result, error := x.error)
    requires IsLive(r.subtasks[i].status) || (!IsLive(r.status) && x.status == Pending)
    requires r.isActive
    ensures Inv(r.(status := x.status, subtasks := r.subtasks[i := x]))
  {
    var after := r.subtasks[i := x];
    assert after[i] == x;
    assert forall k :: 0 <= k < |after| && k != i ==> after[k] == r.subtasks[k];
  }

  lemma RecoveredKeeps(r: Rows)
    requires Inv(r)
    ensures Inv(Recovered(r))
  {
    if exists i :: 0 <= i < |r.subtasks| && r.subtasks[i].role == Assistant && IsLive(r.subtasks[i].status) {
      var after := Recovered(r).subtasks;
      assert forall i :: 0 <= i < |after| ==> after[i] == Interrupted(r.subtasks[i]);
      assert forall i :: 0 <= i < |after| ==> !IsLive(after[i].status);
    }
  }
}
