/** Cancelling and finishing one execution: whoever comes first decides, and only once. */
module TaskExecution {
  import opened Outcomes
  import opened TaskRows

  /** The guarded fields of a `TaskExecutionState`; streams are known by a number. */
  datatype Control = Control(cancelRequested: bool, terminal: Option<Status>, stream: Option<nat>)

  const FRESH := Control(false, None, None)

  /** Whether the cancel was accepted, and the stream that is then to be closed. */
  function RequestedCancel(c: Control): (Control, bool, Option<nat>) {
    if c.terminal.Some? || c.cancelRequested then (c, false, None)
    else (c.(cancelRequested := true), true, c.stream)
  }

  function AttachedStream(c: Control, stream: nat): (Control, bool) {
    if c.terminal.Some? then (c, false) else (c.(stream := Some(stream)), !c.cancelRequested)
  }

  function ClaimedTerminal(c: Control, desired: Status): (Control, Option<Status>) {
    if c.terminal.Some? then (c, None)
    else
      var outcome := if c.cancelRequested then Cancelled else desired;
      (c.(terminal := Some(outcome)), Some(outcome))
  }

  class TaskExecutionState {
    const userId: nat
    const taskId: nat
    const assistantSubtaskId: nat
    var cancelRequested: bool
    var terminal: Option<Status>
    var stream: Option<nat>

    function Contents(): Control
      reads this
    {
      Control(cancelRequested, terminal, stream)
    }

    constructor (userId: nat, taskId: nat, assistantSubtaskId: nat)
      ensures Contents() == FRESH
      ensures this.userId == userId && this.taskId == taskId && this.assistantSubtaskId == assistantSubtaskId
    {
      this.userId, this.taskId, this.assistantSubtaskId := userId, taskId, assistantSubtaskId;
      cancelRequested, terminal, stream := false, None, None;
    }

    method RequestCancel() returns (won: bool, toClose: Option<nat>)
      modifies this
      ensures won <==> old(terminal.None? && !cancelRequested)
      ensures cancelRequested == (won || old(cancelRequested)) && terminal == old(terminal) && stream == old(stream)
      ensures toClose == if won then old(stream) else None
      ensures (Contents(), won, toClose) == RequestedCancel(old(Contents()))
    {
      if terminal.Some? || cancelRequested {
        return false, None;
      }
      cancelRequested := true;
      won, toClose := true, stream;
    }

    method AttachStream(started: nat) returns (goOn: bool)
      modifies this
      ensures goOn <==> old(terminal.None? && !cancelRequested)
      ensures stream == if old(terminal.None?) then Some(started) else old(stream)
      ensures cancelRequested == old(cancelRequested) && terminal == old(terminal)
      ensures (Contents(), goOn) == AttachedStream(old(Contents()), started)
    {
      if terminal.Some? {
        return false;
      }
      stream := Some(started);
      goOn := !cancelRequested;
    }

    method ClaimTerminal(desired: Status) returns (outcome: Option<Status>)
      modifies this
      ensures outcome == if old(terminal.Some?) then None else Some(if old(cancelRequested) then Cancelled else desired)
      ensures terminal == if old(terminal.Some?) then old(terminal) else outcome
      ensures cancelRequested == old(cancelRequested) && stream == old(stream)
      ensures (Contents(), outcome) == ClaimedTerminal(old(Contents()), desired)
    {
      if terminal.Some? {
        return None;
      }
      outcome := Some(if cancelRequested then Cancelled else desired);
      terminal := outcome;
    }
  }

  /** The states that may still be cancelled, by Task. */
  class TaskExecutionCancellationRegistry {
    var byTask: map<nat, TaskExecutionState>

    ghost predicate Valid()
      reads this, byTask.Values
    {
      forall t :: t in byTask ==> byTask[t].taskId == t
    }

    constructor ()
      ensures Valid() && byTask == map[]
    {
      byTask := map[];
    }

    method Prepare(userId: nat, taskId: nat, assistantSubtaskId: nat) returns (state: TaskExecutionState)
      requires Valid()
      modifies this
      ensures Valid() && fresh(state) && state.Contents() == FRESH
      ensures state.userId == userId && state.assistantSubtaskId == assistantSubtaskId
      ensures byTask == old(byTask)[taskId := state]
    {
      state := new TaskExecutionState(userId, taskId, assistantSubtaskId);
      byTask := byTask[taskId := state];
    }

    /** The prepared state of this very assistant, or a new one in its place. */
    method Claim(userId: nat, taskId: nat, assistantSubtaskId: nat) returns (state: TaskExecutionState)
      requires Valid()
      modifies this
      ensures Valid() && taskId in byTask && byTask[taskId] == state
      ensures state.userId == userId && state.assistantSubtaskId == assistantSubtaskId
      ensures byTask == old(byTask)[taskId := state]
      ensures !fresh(state) ==> byTask == old(byTask)
      ensures fresh(state) ==>
                && state.Contents() == FRESH
                && (taskId in old(byTask) ==>
                      old(byTask)[taskId].userId != userId
                      || old(byTask)[taskId].assistantSubtaskId != assistantSubtaskId)
    {
      if taskId in byTask && byTask[taskId].userId == userId
         && byTask[taskId].assistantSubtaskId == assistantSubtaskId {
        return byTask[taskId];
      }
      state := Prepare(userId, taskId, assistantSubtaskId);
    }

    method RequestCancel(userId: nat, taskId: nat) returns (won: bool, toClose: Option<nat>)
      requires Valid()
      modifies if taskId in byTask then {byTask[taskId]} else {}
      ensures won <==>
              && taskId in byTask && byTask[taskId].userId == userId
              && old(byTask[taskId].terminal.None? && !byTask[taskId].cancelRequested)
      ensures won ==> byTask[taskId].cancelRequested && toClose == old(byTask[taskId].stream)
      ensures !won ==> toClose == None
      ensures taskId in byTask ==>
                byTask[taskId].Contents()
                == if byTask[taskId].userId == userId then RequestedCancel(old(byTask[taskId].Contents())).0
                   else old(byTask[taskId].Contents())
    {
      if taskId !in byTask || byTask[taskId].userId != userId {
        return false, None;
      }
      won, toClose := byTask[taskId].RequestCancel();
    }

    method Discard(state: TaskExecutionState)
      requires Valid()
      modifies this
      ensures Valid()
      ensures byTask == if state.taskId in old(byTask) && old(byTask)[state.taskId] == state
                        then old(byTask) - {state.taskId} else old(byTask)
    {
      if state.taskId in byTask && byTask[state.taskId] == state {
        byTask := byTask - {state.taskId};
      }
    }
  }

  // ----- Histories of one state ----------------------------------------------------------------------

  datatype Call = CancelCall | AttachCall(stream: nat) | ClaimCall(desired: Status)

  function After(calls: seq<Call>): Control {
    if calls == [] then FRESH
    else
      var before := After(calls[..|calls| - 1]);
      match calls[|calls| - 1]
      case CancelCall => RequestedCancel(before).0
      case AttachCall(stream) => AttachedStream(before, stream).0
      case ClaimCall(desired) => ClaimedTerminal(before, desired).0
  }

  /** The `i`th call is a cancel request that was accepted. */
  predicate CancelWon(calls: seq<Call>, i: nat) {
    i < |calls| && calls[i].CancelCall? && RequestedCancel(After(calls[..i])).1
  }

  /** What the `i`th call claims, if it is a terminal claim that succeeds. */
  function Claimed(calls: seq<Call>, i: nat): Option<Status> {
    if i < |calls| && calls[i].ClaimCall? then ClaimedTerminal(After(calls[..i]), calls[i].desired).1 else None
  }

  /** The flags of a state are the history of its calls. */
  lemma {:induction false} StateIsHistory(calls: seq<Call>, n: nat)
    requires n <= |calls|
    ensures After(calls[..n]).cancelRequested <==> exists i: nat :: i < n && CancelWon(calls, i)
    ensures After(calls[..n]).terminal.Some? <==> exists i: nat :: i < n && Claimed(calls, i).Some?
  {
    if n > 0 {
      StateIsHistory(calls, n - 1);
      assert calls[..n][..n - 1] == calls[..n - 1];
      assert CancelWon(calls, n - 1) || !CancelWon(calls, n - 1);
      assert Claimed(calls, n - 1).Some? || Claimed(calls, n - 1).None?;
    }
  }

  /** At most one terminal claim succeeds. */
  lemma OneTerminalClaim(calls: seq<Call>, i: nat, j: nat)
    requires Claimed(calls, i).Some? && Claimed(calls, j).Some?
    ensures i == j
  {
    StateIsHistory(calls, i);
    StateIsHistory(calls, j);
  }

  /** The claim says CANCELLED, whatever was desired, if a cancel was accepted before it; otherwise what was desired. */
  lemma ClaimSeesEarlierCancel(calls: seq<Call>, i: nat)
    requires Claimed(calls, i).Some?
    ensures Claimed(calls, i).value
            == if exists k: nat :: k < i && CancelWon(calls, k) then Cancelled else calls[i].desired
  {
    StateIsHistory(calls, i);
  }

  /** After the claim every cancel is refused; and only one cancel is ever accepted. */
  lemma CancelIsRefusedAfterClaim(calls: seq<Call>, i: nat, k: nat)
    requires CancelWon(calls, k)
    ensures Claimed(calls, i).Some? ==> k < i
    ensures CancelWon(calls, i) ==> i == k
  {
    StateIsHistory(calls, k);
    if i < |calls| {
      StateIsHistory(calls, i);
    }
  }
}
