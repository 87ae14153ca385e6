/**
 All runs of one Task: sends, retries, executions that start, stream, claim, persist and fall back, cancels, crashes,
 recoveries and deletes, interleaved in any order. Every database transaction is one step, and may fail before or
 after it takes effect.
 */
module TaskLifecycle {
  import opened Outcomes
  import opened TaskRows
  import opened TaskExecution

  /** Where `prepare_send`, `prepare_retry` and `execute` are, between two steps. */
  datatype Phase =
    | Committed                        // the turn is stored; about to register a state
    | Prepared                         // about to be executed
    | Starting                         // owns its state; about to mark the assistant running
    | Streaming
    | Finishing(desired: Status)       // about to claim the terminal outcome
    | Persisting(outcome: Status)      // claimed; about to store it
    | FallingBack                      // storing raised; about to fail the assistant if it is still active
    | Leaving                          // about to discard its state

  /** One prepared turn and its execution; `state` names the control that it claimed. */
  datatype Execution = Execution(subtask: nat, state: Option<nat>, phase: Phase)

  datatype StateOf = StateOf(subtask: nat, control: Control)

  datatype World = World(
    rows: Option<Rows>,
    states: map<nat, StateOf>,         // every `TaskExecutionState` that was made for this Task
    registered: Option<nat>,
    runs: map<nat, Execution>,
    next: nat)

  const START := World(None, map[], None, map[], 0)

  datatype Fate = Returned | RaisedBefore | RaisedAfter

  datatype Step =
    | Send(prompt: string, userId: nat, assistantId: nat, fails: bool)
    | Retry(id: nat, fails: bool)
    | Register(run: nat)
    | ExecuteAgain(run: nat)           // the same prepared turn is executed once more
    | Begin(run: nat)
    | MarkRunning(run: nat, fate: Fate)
    | EndStream(run: nat, failed: bool)
    | Claim(run: nat, raises: bool)
    | Persist(run: nat, fate: Fate, result: Option<StoredResult>, error: string)
    | Fallback(run: nat, fate: Fate, result: Option<StoredResult>)
    | LoseResult(run: nat)             // `partial_result` raises after the claim
    | Discard(run: nat)
    | Abandon(run: nat)                // the generator is closed before it started
    | Cancel(state: nat)
    | Restart                          // the process ends, and with it every execution
    | Recover
    | Delete

  function Goto(w: World, run: nat, phase: Phase): World
    requires run in w.runs
  {
    w.(runs := w.runs[run := w.runs[run].(phase := phase)])
  }

  predicate At(w: World, run: nat, phase: Phase) {
    run in w.runs && w.runs[run].phase == phase
  }

  /** The control of the state that an execution claimed. */
  function ControlOf(w: World, run: nat): Option<Control> {
    if run !in w.runs || w.runs[run].state.None? || w.runs[run].state.value !in w.states then None
    else Some(w.states[w.runs[run].state.value].control)
  }

  function WithRun(w: World, rows: Rows, subtask: nat): World {
    w.(rows := Some(rows), runs := w.runs[w.next := Execution(subtask, None, Committed)], next := w.next + 1)
  }

  // ----- Steps ---------------------------------------------------------------------------------------

  /** `prepare_send`: for a new Task, or for one that is neither deleted nor active. */
  function DoSend(w: World, prompt: string, userId: nat, assistantId: nat, fails: bool): World {
    var before := if w.rows.Some? then w.rows.value else Rows(Pending, true, []);
    if fails || (w.rows.Some? && (!before.isActive || IsLive(before.status))) then w
    else if !AreNew(before.subtasks, userId, assistantId) then w
    else WithRun(w, TurnCreated(before, prompt, userId, assistantId), assistantId)
  }

  /** `prepare_retry`: any failed assistant whose parent is there. */
  function DoRetry(w: World, id: nat, fails: bool): World {
    if w.rows.None? || IsLive(w.rows.value.status) || fails then w
    else
      match ResetFailed(w.rows.value, id)
      case None => w
      case Some(rows) => WithRun(w, rows, id)
  }

  function NewState(w: World, subtask: nat): World {
    w.(states := w.states[w.next := StateOf(subtask, FRESH)], registered := Some(w.next), next := w.next + 1)
  }

  function DoRegister(w: World, run: nat): World {
    if !At(w, run, Committed) then w else Goto(NewState(w, w.runs[run].subtask), run, Prepared)
  }

  function DoExecuteAgain(w: World, run: nat): World {
    if run !in w.runs then w
    else w.(runs := w.runs[w.next := Execution(w.runs[run].subtask, None, Prepared)], next := w.next + 1)
  }

  /** `claim` of the registry: the registered state of this assistant, or a new one. */
  function DoBegin(w: World, run: nat): World {
    if !At(w, run, Prepared) then w
    else
      var subtask := w.runs[run].subtask;
      var found := w.registered.Some? && w.registered.value in w.states
                   && w.states[w.registered.value].subtask == subtask;
      var ready := if found then w else NewState(w, subtask);
      ready.(runs := ready.runs[run := Execution(subtask, ready.registered, Starting)])
  }

  function DoMarkRunning(w: World, run: nat, fate: Fate): World {
    if !At(w, run, Starting) || ControlOf(w, run).None? || w.rows.None? then w
    else if ControlOf(w, run).value.cancelRequested then Goto(w, run, Finishing(Cancelled))
    else if fate == RaisedBefore then Goto(w, run, Finishing(Failed))
    else
      match MarkedRunning(w.rows.value, w.runs[run].subtask)
      case None => Goto(w, run, Finishing(Failed))
      case Some(rows) =>
        Goto(w.(rows := Some(rows)), run, if fate == Returned then Streaming else Finishing(Failed))
  }

  /** The loop over the runtime events ends; a failure is an exception or the closing of the generator. */
  function DoEndStream(w: World, run: nat, failed: bool): World {
    if !At(w, run, Streaming) || ControlOf(w, run).None? then w
    else
      Goto(w, run, Finishing(if failed then Failed
                             else if ControlOf(w, run).value.cancelRequested then Cancelled
                             else Completed))
  }

  /** `_finish_execution` up to the claim; the result may fail to validate before it. */
  function DoClaim(w: World, run: nat, raises: bool): World {
    if run !in w.runs || !w.runs[run].phase.Finishing? || ControlOf(w, run).None? then w
    else
      var desired := w.runs[run].phase.desired;
      if raises then Goto(w, run, if desired == Failed then Leaving else Finishing(Failed))
      else
        var s := w.runs[run].state.value;
        var (control, outcome) := ClaimedTerminal(w.states[s].control, desired);
        var claimed := w.(states := w.states[s := w.states[s].(control := control)]);
        Goto(claimed, run, if outcome.None? then Leaving else Persisting(outcome.value))
  }

  /** The transaction that stores an outcome. */
  function Stored(r: Rows, id: nat, outcome: Status, result: Option<StoredResult>, error: string): Option<Rows> {
    match outcome
    case Completed => FinishedAssistant(r, id, Completed, result, None)
    case Cancelled => CancelledAssistant(r, id, result)
    case _ => FinishedAssistant(r, id, Failed, result, Some(error))
  }

  function DoPersist(w: World, run: nat, fate: Fate, result: Option<StoredResult>, error: string): World {
    if run !in w.runs || !w.runs[run].phase.Persisting? || w.rows.None? then w
    else
      var outcome := w.runs[run].phase.outcome;
      var raised := if outcome == Failed then Leaving else FallingBack;
      match Stored(w.rows.value, w.runs[run].subtask, outcome, result, error)
      case None => Goto(w, run, raised)
      case Some(rows) =>
        if fate == RaisedBefore then Goto(w, run, raised)
        else Goto(w.(rows := Some(rows)), run, if fate == Returned then Leaving else raised)
  }

  function DoFallback(w: World, run: nat, fate: Fate, result: Option<StoredResult>): World {
    if !At(w, run, FallingBack) || w.rows.None? then w
    else
      match FailedActive(w.rows.value, w.runs[run].subtask, result, "generation_persistence_failed")
      case None => Goto(w, run, Leaving)
      case Some((rows, _)) =>
        if fate == RaisedBefore then Goto(w, run, Leaving) else Goto(w.(rows := Some(rows)), run, Leaving)
  }

  /**
   `partial_result` raises once the outcome is claimed: for a run that a cancel turned, or before the fallback. In the
   handler it raises again, so nothing is stored.
   */
  function DoLoseResult(w: World, run: nat): World {
    if At(w, run, Persisting(Cancelled)) || At(w, run, FallingBack) then Goto(w, run, Leaving) else w
  }

  function DoDiscard(w: World, run: nat): World {
    if !At(w, run, Leaving) then w
    else
      w.(runs := w.runs - {run},
         registered := if w.registered.Some? && w.registered == w.runs[run].state then None else w.registered)
  }

  function DoAbandon(w: World, run: nat): World {
    if run in w.runs && (w.runs[run].phase.Committed? || w.runs[run].phase.Prepared? || w.runs[run].phase.Starting?)
    then w.(runs := w.runs - {run})
    else w
  }

  function DoCancel(w: World, s: nat): World {
    if s !in w.states then w
    else w.(states := w.states[s := w.states[s].(control := RequestedCancel(w.states[s].control).0)])
  }

  function Apply(w: World, step: Step): World {
    match step
    case Send(prompt, userId, assistantId, fails) => DoSend(w, prompt, userId, assistantId, fails)
    case Retry(id, fails) => DoRetry(w, id, fails)
    case Register(run) => DoRegister(w, run)
    case ExecuteAgain(run) => DoExecuteAgain(w, run)
    case Begin(run) => DoBegin(w, run)
    case MarkRunning(run, fate) => DoMarkRunning(w, run, fate)
    case EndStream(run, failed) => DoEndStream(w, run, failed)
    case Claim(run, raises) => DoClaim(w, run, raises)
    case Persist(run, fate, result, error) => DoPersist(w, run, fate, result, error)
    case Fallback(run, fate, result) => DoFallback(w, run, fate, result)
    case LoseResult(run) => DoLoseResult(w, run)
    case Discard(run) => DoDiscard(w, run)
    case Abandon(run) => DoAbandon(w, run)
    case Cancel(state) => DoCancel(w, state)
    case Restart => w.(runs := map[], registered := None)
    case Recover => if w.rows.None? then w else w.(rows := Some(Recovered(w.rows.value)))
    case Delete =>
      if w.rows.None? || SoftDeleted(w.rows.value).None? then w
      else w.(rows := SoftDeleted(w.rows.value))
  }

  function Run(w: World, steps: seq<Step>): World
    decreases |steps|
  {
    if steps == [] then w else Run(Apply(w, steps[0]), steps[1..])
  }

  // ----- The rows ------------------------------------------------------------------------------------

  ghost predicate RowsOk(rows: Option<Rows>) {
    rows.Some? ==> TaskRows.Inv(rows.value)
  }

  /** What a step may do to the rows: nothing, or one transition of the repository. */
  ghost predicate OneTransition(before: Option<Rows>, after: Option<Rows>) {
    || after == before
    || (after.Some? && exists prompt, u, a :: NewTurn(before, after.value, prompt, u, a))
    || (before.Some? && after.Some? && exists id :: ChangedOne(before.value, after.value, id))
    || (before.Some? && after.Some? && after.value == Recovered(before.value))
    || (before.Some? && after == SoftDeleted(before.value))
  }

  ghost predicate NewTurn(before: Option<Rows>, t: Rows, prompt: string, u: nat, a: nat) {
    var r := if before.Some? then before.value else Rows(Pending, true, []);
    && AreNew(r.subtasks, u, a) && t == TurnCreated(r, prompt, u, a)
    && (before.Some? ==> r.isActive && !IsLive(r.status))
  }

  /** One transition of one assistant. */
  ghost predicate ChangedOne(r: Rows, t: Rows, id: nat) {
    || (!IsLive(r.status) && ResetFailed(r, id) == Some(t))
    || MarkedRunning(r, id) == Some(t)
    || (exists outcome, result, error :: Stored(r, id, outcome, result, error) == Some(t))
    || (exists result, error :: FailedActive(r, id, result, error) == Some((t, true)))
  }

  lemma SendTransition(w: World, prompt: string, u: nat, a: nat, fails: bool)
    ensures OneTransition(w.rows, DoSend(w, prompt, u, a, fails).rows)
  {
    hide TurnCreated, AreNew;
    var after := DoSend(w, prompt, u, a, fails).rows;
    assert after == w.rows || NewTurn(w.rows, after.value, prompt, u, a);
  }

  lemma RetryTransition(w: World, id: nat, fails: bool)
    ensures OneTransition(w.rows, DoRetry(w, id, fails).rows)
  {
    hide ResetFailed;
    if w.rows.Some? && !IsLive(w.rows.value.status) && !fails && ResetFailed(w.rows.value, id).Some? {
      assert ChangedOne(w.rows.value, ResetFailed(w.rows.value, id).value, id);
    }
  }

  lemma RunningTransition(w: World, run: nat, fate: Fate)
    ensures OneTransition(w.rows, DoMarkRunning(w, run, fate).rows)
  {
    hide MarkedRunning;
    if run in w.runs && w.rows.Some? && MarkedRunning(w.rows.value, w.runs[run].subtask).Some? {
      assert ChangedOne(w.rows.value, MarkedRunning(w.rows.value, w.runs[run].subtask).value, w.runs[run].subtask);
    }
  }

  lemma PersistTransition(w: World, run: nat, fate: Fate, result: Option<StoredResult>, error: string)
    ensures OneTransition(w.rows, DoPersist(w, run, fate, result, error).rows)
  {
    hide Stored;
    if run in w.runs && w.runs[run].phase.Persisting? && w.rows.Some? {
      var t := Stored(w.rows.value, w.runs[run].subtask, w.runs[run].phase.outcome, result, error);
      assert t.Some? ==> ChangedOne(w.rows.value, t.value, w.runs[run].subtask);
    }
  }

  lemma UnmatchedChangesNothing(r: Rows, id: nat, result: Option<StoredResult>, error: string)
    ensures FailedActive(r, id, result, error).Some? && !FailedActive(r, id, result, error).value.1 ==>
              FailedActive(r, id, result, error).value.0 == r
  {
  }

  lemma FallbackTransition(w: World, run: nat, fate: Fate, result: Option<StoredResult>)
    ensures OneTransition(w.rows, DoFallback(w, run, fate, result).rows)
  {
    hide FailedActive;
    if At(w, run, FallingBack) && w.rows.Some? {
      UnmatchedChangesNothing(w.rows.value, w.runs[run].subtask, result, "generation_persistence_failed");
      var t := FailedActive(w.rows.value, w.runs[run].subtask, result, "generation_persistence_failed");
      if t.Some? && t.value.1 {
        assert ChangedOne(w.rows.value, t.value.0, w.runs[run].subtask);
      }
    }
  }

  lemma StepTransition(w: World, step: Step)
    ensures OneTransition(w.rows, Apply(w, step).rows)
  {
    hide OneTransition, DoSend, DoRetry, DoMarkRunning, DoPersist, DoFallback, Recovered, SoftDeleted;
    match step
    case Send(prompt, u, a, fails) => SendTransition(w, prompt, u, a, fails);
    case Retry(id, fails) => RetryTransition(w, id, fails);
    case MarkRunning(run, fate) => RunningTransition(w, run, fate);
    case Persist(run, fate, result, error) => PersistTransition(w, run, fate, result, error);
    case Fallback(run, fate, result) => FallbackTransition(w, run, fate, result);
    case _ => OtherTransition(w.rows, Apply(w, step).rows);
  }

  lemma OtherTransition(before: Option<Rows>, after: Option<Rows>)
    requires after == before || (before.Some? && (after == Some(Recovered(before.value))
                                                  || (after.Some? && after == SoftDeleted(before.value))))
    ensures OneTransition(before, after)
  {
    hide Recovered, SoftDeleted;
  }

  lemma NobodyLive(r: Rows)
    requires TaskRows.Inv(r) && !IsLive(r.status)
    ensures forall i :: 0 <= i < |r.subtasks| ==> !IsLive(r.subtasks[i].status)
  {
  }

  lemma ChangedOneKeeps(r: Rows, t: Rows, id: nat)
    requires TaskRows.Inv(r) && ChangedOne(r, t, id)
    ensures TaskRows.Inv(t)
  {
    hide IsOrdered, HasDistinctIds, IsConsistent;
    var i := IndexOf(r.subtasks, id).value;
    assert r.isActive && r.subtasks[i].role == Assistant;
    ChangedKeeps(r, i, t.subtasks[i]);
    assert t == r.(status := t.subtasks[i].status, subtasks := r.subtasks[i := t.subtasks[i]]);
  }

  lemma TransitionKeeps(before: Option<Rows>, after: Option<Rows>)
    requires RowsOk(before) && OneTransition(before, after)
    ensures RowsOk(after)
  {
    hide ChangedOne, Recovered, NewTurn, IsOrdered, HasDistinctIds;
    if after != before {
      if before.Some? && after == Some(Recovered(before.value)) {
        RecoveredKeeps(before.value);
      } else if before.Some? && after == SoftDeleted(before.value) {
      } else if before.Some? && after.Some? && exists id :: ChangedOne(before.value, after.value, id) {
        var id :| ChangedOne(before.value, after.value, id);
        ChangedOneKeeps(before.value, after.value, id);
      } else {
        TurnKeeps(before, after);
      }
    }
  }

  lemma TurnKeeps(before: Option<Rows>, after: Option<Rows>)
    requires RowsOk(before) && after.Some?
    requires exists prompt, u, a :: NewTurn(before, after.value, prompt, u, a)
    ensures RowsOk(after)
  {
    hide TurnCreated, AreNew;
    var r := if before.Some? then before.value else Rows(Pending, true, []);
    var prompt, u, a :| NewTurn(before, after.value, prompt, u, a);
    if before.Some? {
      NobodyLive(r);
    }
    TurnCreatedKeeps(r, prompt, u, a);
  }

  /** In every run the Task is active exactly when one assistant is, and its messages stay numbered and alternating. */
  lemma {:induction false} EveryRunKeepsTheRows(w: World, steps: seq<Step>)
    requires RowsOk(w.rows)
    ensures RowsOk(Run(w, steps).rows)
    decreases |steps|
  {
    hide RowsOk, Apply, OneTransition;
    if steps != [] {
      StepTransition(w, steps[0]);
      TransitionKeeps(w.rows, Apply(w, steps[0]).rows);
      EveryRunKeepsTheRows(Apply(w, steps[0]), steps[1..]);
    }
  }

  // ----- Terminal rows -------------------------------------------------------------------------------

  /** Every terminal assistant of `before` is still what it was, except a failed one that is pending again. */
  ghost predicate KeepsTerminals(before: Option<Rows>, after: Option<Rows>, retried: set<nat>) {
    before.Some? ==>
      && after.Some? && |before.value.subtasks| <= |after.value.subtasks|
      && forall i :: 0 <= i < |before.value.subtasks| && !IsLive(before.value.subtasks[i].status) ==>
           || after.value.subtasks[i] == before.value.subtasks[i]
           || (before.value.subtasks[i].status == Failed && before.value.subtasks[i].id in retried)
  }

  function RetriedBy(step: Step): set<nat> {
    if step.Retry? then {step.id} else {}
  }

  lemma OthersKeepTerminals(before: Option<Rows>, after: Option<Rows>)
    requires after == before || (before.Some? && (after == Some(Recovered(before.value))
                                                  || (after.Some? && after == SoftDeleted(before.value))))
    ensures KeepsTerminals(before, after, {})
  {
  }

  lemma SendKeepsTerminals(w: World, prompt: string, u: nat, a: nat, fails: bool)
    ensures KeepsTerminals(w.rows, DoSend(w, prompt, u, a, fails).rows, {})
  {
    hide MaxMessageId, AreNew;
  }

  lemma RetryKeepsTerminals(w: World, id: nat, fails: bool)
    ensures KeepsTerminals(w.rows, DoRetry(w, id, fails).rows, {id})
  {
  }

  lemma StoredKeepsTerminals(r: Rows, id: nat, outcome: Status, result: Option<StoredResult>, error: string)
    ensures Stored(r, id, outcome, result, error).Some? ==>
              KeepsTerminals(Some(r), Stored(r, id, outcome, result, error), {})
  {
  }

  lemma RunningKeepsTerminals(r: Rows, id: nat)
    ensures MarkedRunning(r, id).Some? ==> KeepsTerminals(Some(r), MarkedRunning(r, id), {})
  {
  }

  lemma FailedKeepsTerminals(r: Rows, id: nat, result: Option<StoredResult>, error: string)
    ensures FailedActive(r, id, result, error).Some? ==>
              KeepsTerminals(Some(r), Some(FailedActive(r, id, result, error).value.0), {})
  {
  }

  lemma SameKeepsTerminals(rows: Option<Rows>)
    ensures KeepsTerminals(rows, rows, {})
  {
  }

  /** Whatever step is taken, a terminal row changes only by a retry of that row when it was FAILED. */
  lemma TerminalRowsStay(w: World, step: Step)
    ensures KeepsTerminals(w.rows, Apply(w, step).rows, RetriedBy(step))
  {
    hide KeepsTerminals, DoSend, DoRetry, MarkedRunning, Stored, FailedActive, Recovered, SoftDeleted;
    SameKeepsTerminals(w.rows);
    match step
    case Send(prompt, u, a, fails) => SendKeepsTerminals(w, prompt, u, a, fails);
    case Retry(id, fails) => RetryKeepsTerminals(w, id, fails);
    case MarkRunning(run, _) =>
      if run in w.runs && w.rows.Some? {
        RunningKeepsTerminals(w.rows.value, w.runs[run].subtask);
      }
    case Persist(run, _, result, error) =>
      if run in w.runs && w.runs[run].phase.Persisting? && w.rows.Some? {
        StoredKeepsTerminals(w.rows.value, w.runs[run].subtask, w.runs[run].phase.outcome, result, error);
      }
    case Fallback(run, _, result) =>
      if run in w.runs && w.rows.Some? {
        FailedKeepsTerminals(w.rows.value, w.runs[run].subtask, result, "generation_persistence_failed");
      }
    case _ => OthersKeepTerminals(w.rows, Apply(w, step).rows);
  }

  /** A completed or cancelled assistant stays exactly that, results included, for ever. */
  lemma {:induction false} DoneIsDone(w: World, steps: seq<Step>, i: nat)
    requires w.rows.Some? && i < |w.rows.value.subtasks|
    requires w.rows.value.subtasks[i].status == Completed || w.rows.value.subtasks[i].status == Cancelled
    ensures Run(w, steps).rows.Some? && i < |Run(w, steps).rows.value.subtasks|
    ensures Run(w, steps).rows.value.subtasks[i] == w.rows.value.subtasks[i]
    decreases |steps|
  {
    hide Apply;
    if steps != [] {
      TerminalRowsStay(w, steps[0]);
      DoneIsDone(Apply(w, steps[0]), steps[1..], i);
    }
  }

  /** Storing an outcome writes the row of its own assistant, with its result, and the Task's status; nothing else. */
  lemma StoredWritesItsOwnRow(r: Rows, id: nat, outcome: Status, result: Option<StoredResult>, error: string)
    requires outcome == Completed || outcome == Failed || outcome == Cancelled
    requires Stored(r, id, outcome, result, error).Some?
    ensures var t := Stored(r, id, outcome, result, error).value;
            var i := IndexOf(r.subtasks, id);
            && i.Some? && |t.subtasks| == |r.subtasks| && t.status == outcome && t.isActive == r.isActive
            && IsLive(r.subtasks[i.value].status) && r.subtasks[i.value].role == Assistant
            && t.subtasks[i.value].status == outcome && t.subtasks[i.value].result == result
            && t.subtasks[i.value].progress == 100
            && t.subtasks[i.value].error == (if outcome == Failed then Some(error) else None)
            && forall k :: 0 <= k < |r.subtasks| && k != i.value ==> t.subtasks[k] == r.subtasks[k]
  {
  }

  // ----- Claims --------------------------------------------------------------------------------------

  /** A state that was cancelled and has an outcome was cancelled in time, and its outcome is CANCELLED. */
  ghost predicate ControlOk(c: Control) {
    c.cancelRequested && c.terminal.Some? ==> c.terminal == Some(Cancelled)
  }

  /** Whoever stores an outcome has claimed it, and is the only one who has. */
  ghost predicate ClaimsOk(w: World) {
    && (forall s :: s in w.states ==> s < w.next && ControlOk(w.states[s].control))
    && (forall r :: r in w.runs ==> r < w.next && (w.runs[r].state.Some? ==> w.runs[r].state.value in w.states))
    && (forall r :: r in w.runs && w.runs[r].phase.Persisting? ==>
          ControlOf(w, r).Some? && ControlOf(w, r).value.terminal == Some(w.runs[r].phase.outcome))
    && (forall q, r :: HoldsClaim(w, q) && HoldsClaim(w, r) && w.runs[q].state == w.runs[r].state ==> q == r)
    && (forall r :: HoldsClaim(w, r) ==>
          ControlOf(w, r).Some? && ControlOf(w, r).value.terminal.Some?)
  }

  predicate HoldsClaim(w: World, r: nat) {
    r in w.runs && (w.runs[r].phase.Persisting? || w.runs[r].phase.FallingBack?)
  }

  lemma StartIsOk()
    ensures ClaimsOk(START) && RowsOk(START.rows)
  {
  }

  lemma RowsDoNotMatter(w: World, rows: Option<Rows>)
    requires ClaimsOk(w)
    ensures ClaimsOk(w.(rows := rows))
  {
    hide ControlOk;
    var t := w.(rows := rows);
    assert forall r :: HoldsClaim(t, r) <==> HoldsClaim(w, r);
    assert forall r :: ControlOf(t, r) == ControlOf(w, r);
  }

  lemma GotoKeeps(w: World, run: nat, phase: Phase)
    requires ClaimsOk(w) && run in w.runs && !phase.Persisting? && (phase.FallingBack? ==> HoldsClaim(w, run))
    ensures ClaimsOk(Goto(w, run, phase))
  {
    hide ControlOk;
    var t := Goto(w, run, phase);
    forall r | HoldsClaim(t, r)
      ensures HoldsClaim(w, r) && t.runs[r].state == w.runs[r].state && ControlOf(t, r) == ControlOf(w, r)
    {
    }
  }

  lemma NewStateKeeps(w: World, subtask: nat)
    requires ClaimsOk(w)
    ensures ClaimsOk(NewState(w, subtask))
  {
    var t := NewState(w, subtask);
    forall r | r in t.runs
      ensures HoldsClaim(t, r) == HoldsClaim(w, r) && (HoldsClaim(w, r) ==> ControlOf(t, r) == ControlOf(w, r))
    {
    }
  }

  /** A new execution, or one that begins, holds no claim. */
  lemma RunBeginsKeeps(w: World, run: nat, x: Execution)
    requires ClaimsOk(w) && run < w.next && !x.phase.Persisting? && !x.phase.FallingBack?
    requires x.state.Some? ==> x.state.value in w.states
    ensures ClaimsOk(w.(runs := w.runs[run := x]))
  {
    hide ControlOk;
    var t := w.(runs := w.runs[run := x]);
    forall r | HoldsClaim(t, r)
      ensures r != run && HoldsClaim(w, r) && t.runs[r] == w.runs[r] && ControlOf(t, r) == ControlOf(w, r)
    {
    }
  }

  lemma NextKeeps(w: World, n: nat)
    requires ClaimsOk(w) && n >= w.next
    ensures ClaimsOk(w.(next := n))
  {
    hide ControlOk;
    var t := w.(next := n);
    assert forall r :: HoldsClaim(t, r) <==> HoldsClaim(w, r);
    assert forall r :: ControlOf(t, r) == ControlOf(w, r);
  }

  lemma RunEndsKeeps(w: World, run: nat, registered: Option<nat>)
    requires ClaimsOk(w)
    ensures ClaimsOk(w.(runs := w.runs - {run}, registered := registered))
  {
    hide ControlOk;
    var t := w.(runs := w.runs - {run}, registered := registered);
    forall r | HoldsClaim(t, r)
      ensures HoldsClaim(w, r) && t.runs[r] == w.runs[r] && ControlOf(t, r) == ControlOf(w, r)
    {
    }
  }

  /** The first claim of a state; nobody else can hold one. */
  lemma FirstClaimKeeps(w: World, run: nat, desired: Status)
    requires ClaimsOk(w) && run in w.runs && ControlOf(w, run).Some? && ControlOf(w, run).value.terminal.None?
    ensures var s := w.runs[run].state.value;
            var (control, outcome) := ClaimedTerminal(w.states[s].control, desired);
            var claimed := w.(states := w.states[s := w.states[s].(control := control)]);
            outcome.Some? && ClaimsOk(Goto(claimed, run, Persisting(outcome.value)))
  {
    var s := w.runs[run].state.value;
    var (control, outcome) := ClaimedTerminal(w.states[s].control, desired);
    var claimed := w.(states := w.states[s := w.states[s].(control := control)]);
    var t := Goto(claimed, run, Persisting(outcome.value));
    forall r | HoldsClaim(w, r)
      ensures w.runs[r].state != Some(s)
    {
    }
    forall r | HoldsClaim(t, r) && r != run
      ensures HoldsClaim(w, r) && t.runs[r] == w.runs[r] && ControlOf(t, r) == ControlOf(w, r)
    {
    }
  }

  lemma DoClaimKeeps(w: World, run: nat, raises: bool)
    requires ClaimsOk(w)
    ensures ClaimsOk(DoClaim(w, run, raises))
  {
    hide ClaimsOk, Goto;
    if run in w.runs && w.runs[run].phase.Finishing? && ControlOf(w, run).Some? {
      var desired := w.runs[run].phase.desired;
      if raises {
        GotoKeeps(w, run, if desired == Failed then Leaving else Finishing(Failed));
      } else if ControlOf(w, run).value.terminal.Some? {
        var s := w.runs[run].state.value;
        assert w.states[s := w.states[s].(control := w.states[s].control)] == w.states;
        GotoKeeps(w, run, Leaving);
      } else {
        FirstClaimKeeps(w, run, desired);
      }
    }
  }

  lemma DoCancelKeeps(w: World, s: nat)
    requires ClaimsOk(w)
    ensures ClaimsOk(DoCancel(w, s))
  {
    if s in w.states {
      var t := DoCancel(w, s);
      assert t.states[s].control.terminal == w.states[s].control.terminal;
      forall r | r in w.runs
        ensures HoldsClaim(t, r) == HoldsClaim(w, r)
        ensures ControlOf(w, r).Some? == ControlOf(t, r).Some?
        ensures ControlOf(w, r).Some? ==> ControlOf(t, r).value.terminal == ControlOf(w, r).value.terminal
      {
      }
    }
  }

  lemma DoBeginKeeps(w: World, run: nat)
    requires ClaimsOk(w)
    ensures ClaimsOk(DoBegin(w, run))
  {
    hide NewState, ControlOk;
    if At(w, run, Prepared) {
      var subtask := w.runs[run].subtask;
      var found := w.registered.Some? && w.registered.value in w.states
        && w.states[w.registered.value].subtask == subtask;
      var ready := if found then w else NewState(w, subtask);
      NewStateKeeps(w, subtask);
      NewStateIsThere(w, subtask);
      hide ClaimsOk;
      RunIsKnown(w, run);
      RunBeginsKeeps(ready, run, Execution(subtask, ready.registered, Starting));
    }
  }

  lemma NewStateIsThere(w: World, subtask: nat)
    ensures var t := NewState(w, subtask);
            t.registered.Some? && t.registered.value in t.states && t.next == w.next + 1 && t.runs == w.runs
  {
  }

  lemma RunIsKnown(w: World, run: nat)
    requires ClaimsOk(w) && run in w.runs
    ensures run < w.next
  {
    hide ControlOk;
  }

  /** An execution moves on without a claim; the rows may change. */
  lemma PhaseKeeps(w: World, run: nat, rows: Option<Rows>, phase: Phase)
    requires ClaimsOk(w) && run in w.runs && !phase.Persisting? && (phase.FallingBack? ==> HoldsClaim(w, run))
    ensures ClaimsOk(Goto(w.(rows := rows), run, phase))
    ensures ClaimsOk(Goto(w, run, phase))
  {
    hide ClaimsOk, Goto;
    RowsDoNotMatter(w, rows);
    GotoKeeps(w.(rows := rows), run, phase);
    GotoKeeps(w, run, phase);
  }

  lemma DoMarkRunningKeeps(w: World, run: nat, fate: Fate)
    requires ClaimsOk(w)
    ensures ClaimsOk(DoMarkRunning(w, run, fate))
  {
    hide ClaimsOk, Goto, MarkedRunning;
    if run in w.runs && w.rows.Some? {
      var rows := MarkedRunning(w.rows.value, w.runs[run].subtask);
      PhaseKeeps(w, run, rows, Finishing(Cancelled));
      PhaseKeeps(w, run, rows, Finishing(Failed));
      PhaseKeeps(w, run, rows, Streaming);
    }
  }

  lemma DoEndStreamKeeps(w: World, run: nat, failed: bool)
    requires ClaimsOk(w)
    ensures ClaimsOk(DoEndStream(w, run, failed))
  {
    hide ClaimsOk, Goto;
    if run in w.runs {
      PhaseKeeps(w, run, w.rows, Finishing(Failed));
      PhaseKeeps(w, run, w.rows, Finishing(Cancelled));
      PhaseKeeps(w, run, w.rows, Finishing(Completed));
    }
  }

  lemma DoPersistKeeps(w: World, run: nat, fate: Fate, result: Option<StoredResult>, error: string)
    requires ClaimsOk(w)
    ensures ClaimsOk(DoPersist(w, run, fate, result, error))
  {
    hide ClaimsOk, Goto, Stored;
    if run in w.runs && w.runs[run].phase.Persisting? && w.rows.Some? {
      var rows := Stored(w.rows.value, w.runs[run].subtask, w.runs[run].phase.outcome, result, error);
      PhaseKeeps(w, run, rows, Leaving);
      PhaseKeeps(w, run, rows, FallingBack);
    }
  }

  lemma DoFallbackKeeps(w: World, run: nat, fate: Fate, result: Option<StoredResult>)
    requires ClaimsOk(w)
    ensures ClaimsOk(DoFallback(w, run, fate, result))
  {
    hide ClaimsOk, Goto, FailedActive;
    if At(w, run, FallingBack) && w.rows.Some? {
      var t := FailedActive(w.rows.value, w.runs[run].subtask, result, "generation_persistence_failed");
      PhaseKeeps(w, run, if t.Some? then Some(t.value.0) else None, Leaving);
    }
  }

  lemma StepKeepsClaims(w: World, step: Step)
    requires ClaimsOk(w)
    ensures ClaimsOk(Apply(w, step))
  {
    hide ClaimsOk, DoClaim, DoCancel, DoBegin, DoMarkRunning, DoEndStream, DoPersist, DoFallback, NewState, Goto;
    hide TurnCreated, AreNew, ResetFailed, Recovered, SoftDeleted;
    match step
    case Send(_, _, _, _) => RunAddedKeeps(w, Apply(w, step));
    case Retry(_, _) => RunAddedKeeps(w, Apply(w, step));
    case Register(run) =>
      if At(w, run, Committed) {
        NewStateKeeps(w, w.runs[run].subtask);
        NewStateIsThere(w, w.runs[run].subtask);
        GotoKeeps(NewState(w, w.runs[run].subtask), run, Prepared);
      }
    case ExecuteAgain(run) => RunAddedKeeps(w, Apply(w, step));
    case Begin(run) => DoBeginKeeps(w, run);
    case MarkRunning(run, fate) => DoMarkRunningKeeps(w, run, fate);
    case EndStream(run, failed) => DoEndStreamKeeps(w, run, failed);
    case Claim(run, raises) => DoClaimKeeps(w, run, raises);
    case Persist(run, fate, result, error) => DoPersistKeeps(w, run, fate, result, error);
    case Fallback(run, fate, result) => DoFallbackKeeps(w, run, fate, result);
    case LoseResult(run) =>
      if run in w.runs {
        GotoKeeps(w, run, Leaving);
      }
    case Discard(run) => RunEndsKeeps(w, run, Apply(w, step).registered);
    case Abandon(run) => RunEndsKeeps(w, run, w.registered);
    case Cancel(state) => DoCancelKeeps(w, state);
    case Restart => AllRunsEnd(w);
    case Recover => RowsDoNotMatter(w, Apply(w, step).rows);
    case Delete => RowsDoNotMatter(w, Apply(w, step).rows);
  }

  lemma AllRunsEnd(w: World)
    requires ClaimsOk(w)
    ensures ClaimsOk(w.(runs := map[], registered := None))
  {
    hide ControlOk;
  }

  lemma RunAddedKeeps(w: World, t: World)
    requires ClaimsOk(w)
    requires t == w || (w.next in t.runs
                        && t == w.(rows := t.rows, runs := w.runs[w.next := t.runs[w.next]], next := w.next + 1)
                        && t.runs[w.next].state.None?
                        && (t.runs[w.next].phase.Committed? || t.runs[w.next].phase.Prepared?))
    ensures ClaimsOk(t)
  {
    hide ClaimsOk;
    if t != w {
      NextKeeps(w, w.next + 1);
      RunBeginsKeeps(w.(next := w.next + 1), w.next, t.runs[w.next]);
      RowsDoNotMatter(t.(rows := w.rows), t.rows);
    }
  }

  lemma {:induction false} EveryRunKeepsClaims(w: World, steps: seq<Step>)
    requires ClaimsOk(w)
    ensures ClaimsOk(Run(w, steps))
    decreases |steps|
  {
    hide ClaimsOk, Apply;
    if steps != [] {
      StepKeepsClaims(w, steps[0]);
      EveryRunKeepsClaims(Apply(w, steps[0]), steps[1..]);
    }
  }

  /**
   In every reachable world: an execution whose cancel was accepted never stores anything but CANCELLED, and no two
   executions of one state ever store an outcome.
   */
  lemma AcceptedCancelsAreHonoured(steps: seq<Step>, r: nat, q: nat)
    requires var w := Run(START, steps);
             r in w.runs && w.runs[r].phase.Persisting?
    ensures var w := Run(START, steps);
            && ControlOf(w, r).Some?
            && (ControlOf(w, r).value.cancelRequested ==> w.runs[r].phase.outcome == Cancelled)
            && (HoldsClaim(w, q) && w.runs[q].state == w.runs[r].state ==> q == r)
  {
    StartIsOk();
    EveryRunKeepsClaims(START, steps);
  }

  /** In every reachable world the Task is pending or running exactly when one and only one assistant is. */
  lemma TaskStatusIsTheAssistants(steps: seq<Step>)
    requires Run(START, steps).rows.Some?
    ensures var r := Run(START, steps).rows.value;
            && IsOrdered(r.subtasks)
            && (IsLive(r.status) <==> exists i :: 0 <= i < |r.subtasks| && IsLive(r.subtasks[i].status))
            && (forall i, j :: 0 <= i < |r.subtasks| && 0 <= j < |r.subtasks| ==>
                  IsLive(r.subtasks[i].status) && IsLive(r.subtasks[j].status) ==> i == j)
            && (forall i :: 0 <= i < |r.subtasks| && IsLive(r.subtasks[i].status) ==>
                  r.subtasks[i].role == Assistant && r.subtasks[i].status == r.status)
  {
    StartIsOk();
    EveryRunKeepsTheRows(START, steps);
  }
}
