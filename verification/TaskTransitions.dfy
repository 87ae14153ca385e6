/**
 What each transition of the repository makes of a Task and its messages, field by field, and what that amounts to over
 runs: an interrupted execution can be retried, and an execution that nobody disturbs ends as it should.
 */
module TaskTransitions {
  import opened Outcomes
  import opened TaskRows
  import opened TaskExecution
  import opened TaskLifecycle

  // ----- One row -------------------------------------------------------------------------------------

  /** Row `i` and the Task's status may differ, and nothing else does. */
  predicate OnlyRow(before: Rows, after: Rows, i: nat) {
    && |after.subtasks| == |before.subtasks| && after.isActive == before.isActive
    && forall k :: 0 <= k < |before.subtasks| && k != i ==> after.subtasks[k] == before.subtasks[k]
  }

  /** The same message of the same turn. */
  predicate IsSameMessage(x: Subtask, y: Subtask) {
    x.id == y.id && x.role == y.role && x.messageId == y.messageId && x.parent == y.parent && x.prompt == y.prompt
  }

  /** The assistant of this id, at this place. */
  predicate IsAssistantAt(r: Rows, id: nat, i: nat) {
    i < |r.subtasks| && r.subtasks[i].id == id && r.subtasks[i].role == Assistant && HasDistinctIds(r.subtasks)
  }

  lemma FoundAt(r: Rows, id: nat, i: nat)
    requires IsAssistantAt(r, id, i)
    ensures IndexOf(r.subtasks, id) == Some(i) && (r.isActive ==> OwnedAssistant(r, id) == Some(i))
    ensures !r.isActive ==> OwnedAssistant(r, id) == None
  {
    hide IndexOf;
  }

  lemma MarkedRunningIs(r: Rows, id: nat, i: nat)
    requires IsAssistantAt(r, id, i)
    ensures MarkedRunning(r, id).Some? <==> r.isActive && r.subtasks[i].status == Pending
    ensures MarkedRunning(r, id).Some? ==>
              var (x, t) := (r.subtasks[i], MarkedRunning(r, id).value);
              var y := t.subtasks[i];
              && OnlyRow(r, t, i) && t.status == Running && IsSameMessage(x, y) && y.status == Running
              && y.result == x.result && y.error == x.error
              && 0 <= y.progress <= 100 && (0 <= x.progress <= 100 ==> y.progress == x.progress)
  {
    FoundAt(r, id, i);
    hide IndexOf;
  }

  lemma FinishedIs(r: Rows, id: nat, i: nat, outcome: Status, result: Option<StoredResult>, error: Option<string>)
    requires IsAssistantAt(r, id, i)
    ensures FinishedAssistant(r, id, outcome, result, error).Some?
            <==> && r.isActive && (outcome == Completed || outcome == Failed)
                 && (r.subtasks[i].status == Pending || r.subtasks[i].status == Running)
    ensures FinishedAssistant(r, id, outcome, result, error).Some? ==>
              var (x, t) := (r.subtasks[i], FinishedAssistant(r, id, outcome, result, error).value);
              var y := t.subtasks[i];
              && OnlyRow(r, t, i) && t.status == outcome && IsSameMessage(x, y) && y.status == outcome
              && y.progress == 100 && y.result == result && y.error == error
  {
    FoundAt(r, id, i);
    hide IndexOf;
  }

  lemma CancelledIs(r: Rows, id: nat, i: nat, result: Option<StoredResult>)
    requires IsAssistantAt(r, id, i)
    ensures CancelledAssistant(r, id, result).Some?
            <==> r.isActive && (r.subtasks[i].status == Pending || r.subtasks[i].status == Running)
    ensures CancelledAssistant(r, id, result).Some? ==>
              var (x, t) := (r.subtasks[i], CancelledAssistant(r, id, result).value);
              var y := t.subtasks[i];
              && OnlyRow(r, t, i) && t.status == Cancelled && IsSameMessage(x, y) && y.status == Cancelled
              && y.progress == 100 && y.result == result && y.error == None
  {
    FoundAt(r, id, i);
    hide IndexOf;
  }

  /** The fallback fails a live assistant of a live Task, does nothing to a finished one, and raises for the rest. */
  lemma FailedActiveIs(r: Rows, id: nat, i: nat, result: Option<StoredResult>, error: string)
    requires IsAssistantAt(r, id, i)
    ensures r.subtasks[i].status != Pending && r.subtasks[i].status != Running ==>
              FailedActive(r, id, result, error) == Some((r, false))
    ensures r.subtasks[i].status == Pending || r.subtasks[i].status == Running ==>
              (FailedActive(r, id, result, error).Some? <==>
                 r.isActive && (r.status == Pending || r.status == Running))
    ensures (r.subtasks[i].status == Pending || r.subtasks[i].status == Running)
            && FailedActive(r, id, result, error).Some? ==>
              var (x, t) := (r.subtasks[i], FailedActive(r, id, result, error).value.0);
              var y := t.subtasks[i];
              && FailedActive(r, id, result, error).value.1
              && OnlyRow(r, t, i) && t.status == Failed && IsSameMessage(x, y) && y.status == Failed
              && y.progress == 100 && y.result == result && y.error == Some(error)
  {
    FoundAt(r, id, i);
    hide IndexOf;
  }

  lemma ResetIs(r: Rows, id: nat, i: nat)
    requires IsAssistantAt(r, id, i)
    ensures ResetFailed(r, id).Some? <==> r.isActive && r.subtasks[i].status == Failed
    ensures ResetFailed(r, id).Some? ==>
              var (x, t) := (r.subtasks[i], ResetFailed(r, id).value);
              var y := t.subtasks[i];
              && OnlyRow(r, t, i) && t.status == Pending && IsSameMessage(x, y) && y.status == Pending
              && y.progress == 0 && y.result == None && y.error == None
  {
    FoundAt(r, id, i);
    hide IndexOf;
  }

  /** A deleted Task is hidden, exactly if it was there and at rest; its messages stay. */
  lemma SoftDeletedIs(r: Rows)
    ensures SoftDeleted(r).Some? <==> r.isActive && r.status != Pending && r.status != Running
    ensures SoftDeleted(r).Some? ==>
              var t := SoftDeleted(r).value;
              !t.isActive && t.status == r.status && t.subtasks == r.subtasks
  {
  }

  /** A new turn: a finished USER message with the prompt, and a pending ASSISTANT message that answers it. */
  lemma TurnIs(r: Rows, prompt: string, userId: nat, assistantId: nat)
    requires IsOrdered(r.subtasks)
    ensures var (n, t) := (|r.subtasks|, TurnCreated(r, prompt, userId, assistantId));
            && t.status == Pending && t.isActive == r.isActive && |t.subtasks| == n + 2 && t.subtasks[..n] == r.subtasks
            && t.subtasks[n] == Subtask(userId, User, n + 1, if n == 0 then None else Some(n), prompt, Completed, 100,
                                        None, None)
            && t.subtasks[n + 1] == Subtask(assistantId, Assistant, n + 2, Some(n + 1), "", Pending, 0, None, None)
  {
    hide MaxMessageId;
    MaxIsTheLength(r.subtasks);
  }

  // ----- Recovery ------------------------------------------------------------------------------------

  predicate HasLiveAssistant(r: Rows) {
    exists i :: 0 <= i < |r.subtasks| && r.subtasks[i].role == Assistant
                && (r.subtasks[i].status == Pending || r.subtasks[i].status == Running)
  }

  /** What recovery makes of a message: an assistant that was pending or running has failed; others stay. */
  predicate IsRecovered(x: Subtask, y: Subtask) {
    if x.role == Assistant && (x.status == Pending || x.status == Running) then
      && IsSameMessage(x, y) && y.status == Failed && y.progress == 100 && y.error == Some("generation_interrupted")
      && y.result == x.result
    else y == x
  }

  lemma RecoveredIs(r: Rows)
    ensures var t := Recovered(r);
            && |t.subtasks| == |r.subtasks| && t.isActive == r.isActive
            && (forall i :: 0 <= i < |r.subtasks| ==> IsRecovered(r.subtasks[i], t.subtasks[i]))
            && t.status == if HasLiveAssistant(r) then Failed else r.status
  {
    if HasLiveAssistant(r) {
      var i :| 0 <= i < |r.subtasks| && r.subtasks[i].role == Assistant && IsLive(r.subtasks[i].status);
    }
  }

  /**
   After a recovery, in every reachable world: assistants that were pending or running have failed as interrupted, every
   other message is what it was, the Task has failed exactly if there was such an assistant, and while it is not deleted
   that assistant can be retried.
   */
  lemma RecoveryFailsInterrupted(steps: seq<Step>, i: nat)
    requires Run(START, steps).rows.Some?
    ensures var (r, recovered) := (Run(START, steps).rows.value, Apply(Run(START, steps), Recover));
            && recovered.rows.Some? && recovered == Run(START, steps).(rows := recovered.rows)
            && var t := recovered.rows.value;
               && |t.subtasks| == |r.subtasks| && t.isActive == r.isActive
               && (forall k :: 0 <= k < |r.subtasks| ==> IsRecovered(r.subtasks[k], t.subtasks[k]))
               && t.status == (if HasLiveAssistant(r) then Failed else r.status)
               && (i < |r.subtasks| && r.subtasks[i].role == Assistant
                   && (r.subtasks[i].status == Pending || r.subtasks[i].status == Running) ==>
                     (ResetFailed(t, r.subtasks[i].id).Some? <==> r.isActive))
  {
    hide Run, Recovered, ResetFailed, HasLiveAssistant;
    StartIsOk();
    EveryRunKeepsTheRows(START, steps);
    var r := Run(START, steps).rows.value;
    RecoveredIs(r);
    var t := Recovered(r);
    if i < |r.subtasks| && r.subtasks[i].role == Assistant
       && (r.subtasks[i].status == Pending || r.subtasks[i].status == Running)
    {
      assert IsRecovered(r.subtasks[i], t.subtasks[i]);
      IdsStay(r, t);
      ResetIs(t, r.subtasks[i].id, i);
    }
  }

  lemma IdsStay(r: Rows, t: Rows)
    requires TaskRows.Inv(r) && |t.subtasks| == |r.subtasks|
    requires forall k :: 0 <= k < |r.subtasks| ==> IsRecovered(r.subtasks[k], t.subtasks[k])
    ensures HasDistinctIds(t.subtasks)
  {
    forall a, b | 0 <= a < b < |t.subtasks|
      ensures t.subtasks[a].id != t.subtasks[b].id
    {
      assert IsRecovered(r.subtasks[a], t.subtasks[a]) && IsRecovered(r.subtasks[b], t.subtasks[b]);
      assert r.subtasks[a].id != r.subtasks[b].id;
    }
  }

  // ----- When something raises -----------------------------------------------------------------------

  /** Only where one execution stands has changed. */
  predicate OnlyMoves(w: World, t: World, run: nat, phase: Phase)
    requires run in w.runs
  {
    t == w.(runs := w.runs[run := Execution(w.runs[run].subtask, w.runs[run].state, phase)])
  }

  /**
   Where an exception leads: one before the claim to a failure, one in that failure out of the execution; one while an
   outcome is stored to the fallback, or out if a failure was being stored; and one in `partial_result`, which only a
   cancelled outcome and the fallback call, out of the execution.
   */
  lemma RaisingLeads(w: World, run: nat, result: Option<StoredResult>, error: string)
    requires run in w.runs && w.rows.Some? && ControlOf(w, run).Some?
    ensures var phase := w.runs[run].phase;
            && (phase.Starting? && !ControlOf(w, run).value.cancelRequested ==>
                  OnlyMoves(w, Apply(w, MarkRunning(run, RaisedBefore)), run, Finishing(Failed)))
            && (phase.Finishing? ==>
                  OnlyMoves(w, Apply(w, Claim(run, true)), run,
                            if phase.desired == Failed then Leaving else Finishing(Failed)))
            && (phase.Persisting? ==>
                  OnlyMoves(w, Apply(w, Persist(run, RaisedBefore, result, error)), run,
                            if phase.outcome == Failed then Leaving else FallingBack))
            && (phase.FallingBack? ==> OnlyMoves(w, Apply(w, Fallback(run, RaisedBefore, result)), run, Leaving))
            && (if phase == Persisting(Cancelled) || phase.FallingBack?
                then OnlyMoves(w, Apply(w, LoseResult(run)), run, Leaving)
                else Apply(w, LoseResult(run)) == w)
  {
    hide MarkedRunning, Stored, FailedActive, ClaimedTerminal;
  }

  // ----- A turn that nobody disturbs -----------------------------------------------------------------

  /** From the stored turn to the end of its execution; the cancel comes while it streams. */
  function TurnSteps(run: nat, s: nat, cancelled: bool, failed: bool, result: Option<StoredResult>, error: string)
    : seq<Step>
  {
    [Register(run), Begin(run), MarkRunning(run, Returned)]
    + (if cancelled then [Cancel(s)] else [])
    + [EndStream(run, failed), Claim(run, false), Persist(run, Returned, result, error), Discard(run)]
  }

  function OutcomeOf(cancelled: bool, failed: bool): Status {
    if cancelled then Cancelled else if failed then Failed else Completed
  }

  lemma RunOne(w: World, step: Step, rest: seq<Step>)
    ensures Run(w, [step] + rest) == Run(Apply(w, step), rest) && Run(w, []) == w
  {
    hide Apply;
    assert ([step] + rest)[1..] == rest;
  }

  /** The execution of this assistant is at this place, with its own state. */
  predicate IsAt(w: World, run: nat, id: nat, s: nat, control: Control, phase: Phase) {
    && run in w.runs && w.runs[run] == Execution(id, Some(s), phase)
    && s in w.states && w.states[s] == StateOf(id, control) && w.registered == Some(s)
  }

  lemma Begins(w: World, run: nat, id: nat)
    requires run in w.runs && w.runs[run] == Execution(id, None, Committed)
    ensures var t := Apply(Apply(w, Register(run)), Begin(run));
            IsAt(t, run, id, w.next, FRESH, Starting) && t.rows == w.rows
  {
  }

  lemma Runs(w: World, run: nat, id: nat, s: nat, i: nat)
    requires IsAt(w, run, id, s, FRESH, Starting) && w.rows.Some? && IsAssistantAt(w.rows.value, id, i)
    requires w.rows.value.isActive && w.rows.value.subtasks[i].status == Pending
    ensures var t := Apply(w, MarkRunning(run, Returned));
            && IsAt(t, run, id, s, FRESH, Streaming) && t.rows.Some?
            && IsAssistantAt(t.rows.value, id, i) && t.rows.value.isActive
            && OnlyRow(w.rows.value, t.rows.value, i)
            && IsSameMessage(w.rows.value.subtasks[i], t.rows.value.subtasks[i])
            && t.rows.value.subtasks[i].status == Running
  {
    hide MarkedRunning;
    var r := w.rows.value;
    MarkedRunningIs(r, id, i);
    StillDistinct(r, MarkedRunning(r, id).value, i);
  }

  lemma StillDistinct(r: Rows, t: Rows, i: nat)
    requires HasDistinctIds(r.subtasks) && i < |r.subtasks| && OnlyRow(r, t, i)
    requires IsSameMessage(r.subtasks[i], t.subtasks[i])
    ensures HasDistinctIds(t.subtasks)
  {
    assert forall k :: 0 <= k < |r.subtasks| ==> t.subtasks[k].id == r.subtasks[k].id;
  }

  lemma Ends(w: World, run: nat, id: nat, s: nat, cancelled: bool, failed: bool)
    requires IsAt(w, run, id, s, FRESH, Streaming)
    ensures var c := if cancelled then Apply(w, Cancel(s)) else w;
            var t := Apply(Apply(c, EndStream(run, failed)), Claim(run, false));
            && run in t.runs && t.runs[run] == Execution(id, Some(s), Persisting(OutcomeOf(cancelled, failed)))
            && t.rows == w.rows
  {
    var c := if cancelled then Apply(w, Cancel(s)) else w;
    assert IsAt(c, run, id, s, Control(cancelled, None, None), Streaming) && c.rows == w.rows;
    var e := Apply(c, EndStream(run, failed));
    assert IsAt(e, run, id, s, Control(cancelled, None, None),
                Finishing(if failed then Failed else if cancelled then Cancelled else Completed));
  }

  lemma Saves(w: World, run: nat, id: nat, s: nat, i: nat, outcome: Status, result: Option<StoredResult>, error: string)
    requires run in w.runs && w.runs[run] == Execution(id, Some(s), Persisting(outcome))
    requires outcome == Completed || outcome == Failed || outcome == Cancelled
    requires w.rows.Some? && IsAssistantAt(w.rows.value, id, i) && w.rows.value.isActive
    requires w.rows.value.subtasks[i].status == Running
    ensures var t := Apply(Apply(w, Persist(run, Returned, result, error)), Discard(run));
            && run !in t.runs && t.rows.Some? && IsSavedTurn(w.rows.value, t.rows.value, i, outcome, result, error)
  {
    hide FinishedAssistant, CancelledAssistant;
    var r := w.rows.value;
    FinishedIs(r, id, i, outcome, result, if outcome == Failed then Some(error) else None);
    CancelledIs(r, id, i, result);
  }

  /** The Task and its assistant in row `i` ended with this outcome. */
  predicate IsSavedTurn(before: Rows, after: Rows, i: nat, outcome: Status, result: Option<StoredResult>,
                        error: string)
  {
    && i < |before.subtasks| && OnlyRow(before, after, i) && after.status == outcome
    && IsSameMessage(before.subtasks[i], after.subtasks[i])
    && after.subtasks[i].status == outcome && after.subtasks[i].progress == 100 && after.subtasks[i].result == result
    && after.subtasks[i].error == if outcome == Failed then Some(error) else None
  }

  /**
   An execution that nobody disturbs takes its pending assistant to COMPLETED with its result, or to FAILED if the
   stream failed, or to CANCELLED if a cancel came while it streamed; the Task ends with the same status, and nothing
   else changes.
   */
  lemma UndisturbedTurnEnds(w: World, run: nat, id: nat, i: nat, cancelled: bool, failed: bool,
                            result: Option<StoredResult>, error: string)
    requires run in w.runs && w.runs[run] == Execution(id, None, Committed)
    requires w.rows.Some? && IsAssistantAt(w.rows.value, id, i)
    requires w.rows.value.isActive && w.rows.value.subtasks[i].status == Pending
    ensures var t := Run(w, TurnSteps(run, w.next, cancelled, failed, result, error));
            && run !in t.runs && t.rows.Some?
            && IsSavedTurn(w.rows.value, t.rows.value, i, OutcomeOf(cancelled, failed), result, error)
  {
    hide Apply, IsAt, OnlyRow, HasDistinctIds, IsSavedTurn, Run;
    var s := w.next;
    Begins(w, run, id);
    var begun := Apply(Apply(w, Register(run)), Begin(run));
    Runs(begun, run, id, s, i);
    var running := Apply(begun, MarkRunning(run, Returned));
    Ends(running, run, id, s, cancelled, failed);
    var asked := if cancelled then Apply(running, Cancel(s)) else running;
    var claimed := Apply(Apply(asked, EndStream(run, failed)), Claim(run, false));
    var outcome := OutcomeOf(cancelled, failed);
    Saves(claimed, run, id, s, i, outcome, result, error);
    var t := Apply(Apply(claimed, Persist(run, Returned, result, error)), Discard(run));
    SavedThrough(w.rows.value, running.rows.value, t.rows.value, i, outcome, result, error);
    StepsLead(w, run, s, cancelled, failed, result, error);
  }

  lemma SavedThrough(a: Rows, b: Rows, c: Rows, i: nat, outcome: Status, result: Option<StoredResult>, error: string)
    requires i < |a.subtasks| && OnlyRow(a, b, i) && IsSameMessage(a.subtasks[i], b.subtasks[i])
    requires IsSavedTurn(b, c, i, outcome, result, error)
    ensures IsSavedTurn(a, c, i, outcome, result, error)
  {
  }

  lemma StepsLead(w: World, run: nat, s: nat, cancelled: bool, failed: bool, result: Option<StoredResult>,
                  error: string)
    ensures var running := Apply(Apply(Apply(w, Register(run)), Begin(run)), MarkRunning(run, Returned));
            var asked := if cancelled then Apply(running, Cancel(s)) else running;
            var claimed := Apply(Apply(asked, EndStream(run, failed)), Claim(run, false));
            Run(w, TurnSteps(run, s, cancelled, failed, result, error))
            == Apply(Apply(claimed, Persist(run, Returned, result, error)), Discard(run))
  {
    hide Apply, Run;
    var end := [EndStream(run, failed), Claim(run, false), Persist(run, Returned, result, error), Discard(run)];
    var middle := (if cancelled then [Cancel(s)] else []) + end;
    var registered := Apply(w, Register(run));
    var begun := Apply(registered, Begin(run));
    var running := Apply(begun, MarkRunning(run, Returned));
    assert TurnSteps(run, s, cancelled, failed, result, error)
        == [Register(run)] + ([Begin(run)] + ([MarkRunning(run, Returned)] + middle));
    RunOne(w, Register(run), [Begin(run)] + ([MarkRunning(run, Returned)] + middle));
    RunOne(registered, Begin(run), [MarkRunning(run, Returned)] + middle);
    RunOne(begun, MarkRunning(run, Returned), middle);
    if cancelled {
      RunOne(running, Cancel(s), end);
    } else {
      assert middle == end;
    }
    var asked := if cancelled then Apply(running, Cancel(s)) else running;
    assert end == [EndStream(run, failed)] + ([Claim(run, false)]
                  + ([Persist(run, Returned, result, error)] + ([Discard(run)] + [])));
    var ended := Apply(asked, EndStream(run, failed));
    var claimed := Apply(ended, Claim(run, false));
    var saved := Apply(claimed, Persist(run, Returned, result, error));
    RunOne(asked, EndStream(run, failed),
           [Claim(run, false)] + ([Persist(run, Returned, result, error)] + ([Discard(run)] + [])));
    RunOne(ended, Claim(run, false), [Persist(run, Returned, result, error)] + ([Discard(run)] + []));
    RunOne(claimed, Persist(run, Returned, result, error), [Discard(run)] + []);
    RunOne(saved, Discard(run), []);
    RunOne(Apply(saved, Discard(run)), Discard(run), []);
  }

  /** A send, to a new Task or to one at rest, gives such a turn, and so does the retry of a failed assistant. */
  lemma SendsAndRetriesCommit(steps: seq<Step>, prompt: string, userId: nat, assistantId: nat, id: nat, i: nat)
    ensures var w := Run(START, steps);
            var r := if w.rows.Some? then w.rows.value else Rows(Pending, true, []);
            var t := Apply(w, Send(prompt, userId, assistantId, false));
            AreNew(r.subtasks, userId, assistantId) ==>
              if w.rows.Some? && (!r.isActive || r.status == Pending || r.status == Running) then t == w
              else
                && t.runs == w.runs[w.next := Execution(assistantId, None, Committed)]
                && t.rows == Some(TurnCreated(r, prompt, userId, assistantId))
                && IsAssistantAt(t.rows.value, assistantId, |r.subtasks| + 1)
    ensures var w := Run(START, steps);
            var t := Apply(w, Retry(id, false));
            w.rows.Some? && IsAssistantAt(w.rows.value, id, i) ==>
              if !w.rows.value.isActive || w.rows.value.status == Pending || w.rows.value.status == Running
                 || w.rows.value.subtasks[i].status != Failed
              then t == w
              else
                && t.runs == w.runs[w.next := Execution(id, None, Committed)] && t.rows.Some?
                && IsAssistantAt(t.rows.value, id, i) && OnlyRow(w.rows.value, t.rows.value, i)
                && t.rows.value.subtasks[i].status == Pending
  {
    hide Run, TurnCreated, ResetFailed;
    StartIsOk();
    EveryRunKeepsTheRows(START, steps);
    var w := Run(START, steps);
    var r := if w.rows.Some? then w.rows.value else Rows(Pending, true, []);
    TurnIs(r, prompt, userId, assistantId);
    if AreNew(r.subtasks, userId, assistantId) {
      TurnKeepsIds(r, prompt, userId, assistantId);
    }
    if IsAssistantAt(r, id, i) {
      ResetIs(r, id, i);
      if ResetFailed(r, id).Some? {
        StillDistinct(r, ResetFailed(r, id).value, i);
      }
    }
  }
}
