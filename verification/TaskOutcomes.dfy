/**
 What an execution leaves behind: when its outcome is saved for good, and exactly when its assistant stays live.
 */
module TaskOutcomes {
  import opened Outcomes
  import opened TaskRows
  import opened TaskExecution
  import opened TaskLifecycle

  // ----- The three outcomes --------------------------------------------------------------------------

  predicate IsOutcome(status: Status) {
    status == Completed || status == Failed || status == Cancelled
  }

  predicate PhaseOk(phase: Phase) {
    match phase
    case Finishing(desired) => IsOutcome(desired)
    case Persisting(outcome) => IsOutcome(outcome)
    case _ => true
  }

  predicate OutcomesOk(w: World) {
    forall r :: r in w.runs ==> PhaseOk(w.runs[r].phase)
  }

  lemma StepKeepsOutcomes(w: World, step: Step)
    requires OutcomesOk(w)
    ensures OutcomesOk(Apply(w, step))
  {
    hide TurnCreated, ResetFailed, MarkedRunning, Stored, FailedActive, Recovered, SoftDeleted, AreNew, RequestedCancel;
  }

  lemma {:induction false} RunKeepsOutcomes(w: World, steps: seq<Step>)
    requires OutcomesOk(w)
    ensures OutcomesOk(Run(w, steps))
    decreases |steps|
  {
    hide Apply, OutcomesOk;
    if steps != [] {
      StepKeepsOutcomes(w, steps[0]);
      RunKeepsOutcomes(Apply(w, steps[0]), steps[1..]);
    }
  }

  // ----- Saving an outcome ---------------------------------------------------------------------------

  /** The assistant of execution `r` is row `i`, and live. */
  predicate IsAwaiting(w: World, r: nat, i: nat) {
    && r in w.runs && w.rows.Some?
    && IndexOf(w.rows.value.subtasks, w.runs[r].subtask) == Some(i)
    && i < |w.rows.value.subtasks| && IsLive(w.rows.value.subtasks[i].status)
  }

  /** Row `i` was saved with this outcome and result, and no other row was changed. */
  predicate IsSaved(before: Rows, after: Rows, i: nat, outcome: Status, result: Option<StoredResult>) {
    && i < |before.subtasks| == |after.subtasks|
    && after.status == outcome && after.subtasks[i].status == outcome && after.subtasks[i].result == result
    && forall k :: 0 <= k < |before.subtasks| && k != i ==> after.subtasks[k] == before.subtasks[k]
  }

  lemma LiveRowsCanBeStored(rows: Rows, id: nat, i: nat, outcome: Status, result: Option<StoredResult>, error: string)
    requires TaskRows.Inv(rows) && IndexOf(rows.subtasks, id) == Some(i) && i < |rows.subtasks|
    requires IsLive(rows.subtasks[i].status) && IsOutcome(outcome)
    ensures rows.isActive && rows.subtasks[i].role == Assistant
    ensures Stored(rows, id, outcome, result, error).Some?
    ensures FailedActive(rows, id, result, error).Some?
    ensures IsSaved(rows, FailedActive(rows, id, result, error).value.0, i, Failed, result)
  {
    hide IndexOf;
  }

  /**
   Storing the claimed outcome of a live assistant saves it, unless something raised before the transaction took effect;
   then the assistant stays live, and the execution falls back, except from a failure.
   */
  lemma PersistDecides(before: seq<Step>, r: nat, i: nat, fate: Fate, result: Option<StoredResult>, error: string)
    requires var w := Run(START, before); IsAwaiting(w, r, i) && w.runs[r].phase.Persisting?
    ensures var w := Run(START, before);
            var outcome := w.runs[r].phase.outcome;
            var t := Apply(w, Persist(r, fate, result, error));
            && IsOutcome(outcome) && t.rows.Some?
            && (fate == RaisedBefore ==>
                  t.rows == w.rows && At(t, r, if outcome == Failed then Leaving else FallingBack))
            && (fate != RaisedBefore ==> IsSaved(w.rows.value, t.rows.value, i, outcome, result))
            && (fate == Returned ==> At(t, r, Leaving))
  {
    hide Run, IndexOf;
    StartIsOk();
    EveryRunKeepsTheRows(START, before);
    assert OutcomesOk(START);
    RunKeepsOutcomes(START, before);
    var w := Run(START, before);
    var (rows, id, outcome) := (w.rows.value, w.runs[r].subtask, w.runs[r].phase.outcome);
    assert PhaseOk(w.runs[r].phase);
    LiveRowsCanBeStored(rows, id, i, outcome, result, error);
    StoredWritesItsOwnRow(rows, id, outcome, result, error);
    hide Stored, RowsOk;
  }

  /** Falling back fails a live assistant, unless something raises before that transaction too: then it stays live. */
  lemma FallbackDecides(before: seq<Step>, r: nat, i: nat, fate: Fate, result: Option<StoredResult>)
    requires var w := Run(START, before); IsAwaiting(w, r, i) && w.runs[r].phase.FallingBack?
    ensures var w := Run(START, before);
            var t := Apply(w, Fallback(r, fate, result));
            && At(t, r, Leaving) && t.rows.Some?
            && (fate == RaisedBefore ==> t.rows == w.rows)
            && (fate != RaisedBefore ==> IsSaved(w.rows.value, t.rows.value, i, Failed, result))
  {
    hide Run, IndexOf;
    StartIsOk();
    EveryRunKeepsTheRows(START, before);
    var w := Run(START, before);
    LiveRowsCanBeStored(w.rows.value, w.runs[r].subtask, i, Failed, result, "generation_persistence_failed");
    hide FailedActive, RowsOk;
  }

  // ----- Leaving -------------------------------------------------------------------------------------

  /** The steps by which an execution that holds a claim can come to leave. */
  predicate IsLast(step: Step, r: nat) {
    || (step.Persist? && step.run == r)
    || (step.Fallback? && step.run == r)
    || (step.LoseResult? && step.run == r)
  }

  /** Something raised before the step's transaction took effect. */
  predicate RaisedFirst(step: Step) {
    step.LoseResult? || ((step.Persist? || step.Fallback?) && step.fate == RaisedBefore)
  }

  /**
   An execution that holds its claim over a live assistant leaves it live by a last step exactly if something raised
   before that step's transaction took effect.
   */
  lemma LeavesLiveExactly(before: seq<Step>, r: nat, i: nat, step: Step)
    requires var w := Run(START, before); IsAwaiting(w, r, i) && HoldsClaim(w, r)
    requires IsLast(step, r) && At(Apply(Run(START, before), step), r, Leaving)
    ensures var t := Apply(Run(START, before), step);
            && t.rows.Some? && i < |t.rows.value.subtasks|
            && (IsLive(t.rows.value.subtasks[i].status) <==> RaisedFirst(step))
  {
    hide Run, IndexOf, Stored, FailedActive;
    var w := Run(START, before);
    match step
    case Persist(_, fate, result, error) =>
      if w.runs[r].phase.Persisting? {
        PersistDecides(before, r, i, fate, result, error);
      }
    case Fallback(_, fate, result) =>
      if w.runs[r].phase.FallingBack? {
        FallbackDecides(before, r, i, fate, result);
      }
    case LoseResult(_) =>
  }

  // ----- And afterwards ------------------------------------------------------------------------------

  predicate Retries(step: Step, id: nat) {
    step.Retry? && step.id == id
  }

  /** A terminal message stays exactly what it is for as long as it is not retried. */
  lemma {:induction false} TerminalUntilRetried(w: World, steps: seq<Step>, i: nat)
    requires w.rows.Some? && i < |w.rows.value.subtasks| && !IsLive(w.rows.value.subtasks[i].status)
    requires forall k :: 0 <= k < |steps| ==> !Retries(steps[k], w.rows.value.subtasks[i].id)
    ensures Run(w, steps).rows.Some? && i < |Run(w, steps).rows.value.subtasks|
    ensures Run(w, steps).rows.value.subtasks[i] == w.rows.value.subtasks[i]
    decreases |steps|
  {
    hide Apply;
    if steps != [] {
      TerminalRowsStay(w, steps[0]);
      assert !Retries(steps[0], w.rows.value.subtasks[i].id);
      var next := Apply(w, steps[0]);
      assert next.rows.value.subtasks[i] == w.rows.value.subtasks[i];
      forall k | 0 <= k < |steps[1..]|
        ensures !Retries(steps[1..][k], w.rows.value.subtasks[i].id)
      {
        assert steps[1..][k] == steps[k + 1];
      }
      TerminalUntilRetried(next, steps[1..], i);
    }
  }

  /**
   An execution that claimed an outcome while its assistant was live, and whose transaction took effect, leaves exactly
   that outcome and its result, whatever happens later, until that message is retried.
   */
  lemma ClaimedOutcomesStay(before: seq<Step>, r: nat, i: nat, fate: Fate, result: Option<StoredResult>, error: string,
                            later: seq<Step>)
    requires var w := Run(START, before); IsAwaiting(w, r, i) && w.runs[r].phase.Persisting?
    requires fate != RaisedBefore
    requires var w := Run(START, before);
             forall k :: 0 <= k < |later| ==> !Retries(later[k], w.runs[r].subtask)
    ensures var w := Run(START, before);
            var end := Run(Apply(w, Persist(r, fate, result, error)), later);
            && end.rows.Some? && i < |end.rows.value.subtasks|
            && end.rows.value.subtasks[i].status == w.runs[r].phase.outcome
            && end.rows.value.subtasks[i].result == result
  {
    var w := Run(START, before);
    PersistDecides(before, r, i, fate, result, error);
    var t := Apply(w, Persist(r, fate, result, error));
    TerminalRowKeepsId(w, r, i, fate, result, error);
    TerminalUntilRetried(t, later, i);
  }

  lemma TerminalRowKeepsId(w: World, r: nat, i: nat, fate: Fate, result: Option<StoredResult>, error: string)
    requires IsAwaiting(w, r, i) && w.runs[r].phase.Persisting?
    ensures var t := Apply(w, Persist(r, fate, result, error));
            t.rows.Some? && i < |t.rows.value.subtasks| && t.rows.value.subtasks[i].id == w.runs[r].subtask
  {
    hide IndexOf;
  }
}
