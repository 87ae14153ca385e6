/**
 What the steps of everybody else leave alone, and where the steps of one worker or delete request lead it. The programs
 of `IndexWorker` are proved with these.
 */
module IndexFrames {
  import opened Outcomes
  import opened DocumentRow
  import opened Texts
  import opened Chunking
  import opened IndexProtocol
  import opened IndexSafety
  import opened IndexTheorems

  // ----- What others can do --------------------------------------------------------------------------

  /** The step is one of this very worker or delete request. */
  predicate Involves(step: Step, h: Holder) {
    match step
    case Acquire(holder) => holder == h
    case Crash(holder) => holder == h
    case Load(w, _) => h == HeldByWorker(w)
    case Check(w) => h == HeldByWorker(w)
    case Raise(w) => h == HeldByWorker(w)
    case PutParsed(w, _) => h == HeldByWorker(w)
    case DeleteGeneration(w, _, _) => h == HeldByWorker(w)
    case Upsert(w, _, _) => h == HeldByWorker(w)
    case Complete(w, _) => h == HeldByWorker(w)
    case CheckPublished(w) => h == HeldByWorker(w)
    case CleanOldObject(w, _) => h == HeldByWorker(w)
    case CleanOldIndex(w, _) => h == HeldByWorker(w)
    case CleanStaleObject(w, _) => h == HeldByWorker(w)
    case CleanStaleIndex(w, _) => h == HeldByWorker(w)
    case MarkFailed(w, _) => h == HeldByWorker(w)
    case Isolate(d, _, _) => h == HeldByDelete(d)
    case DropIndex(d, _, _) => h == HeldByDelete(d)
    case ListObjects(d, _) => h == HeldByDelete(d)
    case RemoveObject(d, _, _, _) => h == HeldByDelete(d)
    case RemovedAll(d) => h == HeldByDelete(d)
    case RemoveSource(d, _, _) => h == HeldByDelete(d)
    case Finish(d, _) => h == HeldByDelete(d)
    case _ => false
  }

  /** Nobody else moves this worker or delete request, brings it to life or ends it. */
  ghost predicate StaysPut(s: World, t: World, h: Holder) {
    && s.next <= t.next
    && match h
       case HeldByWorker(w) =>
         w < s.next ==> (w in s.workers <==> w in t.workers) && (w in s.workers ==> t.workers[w] == s.workers[w])
       case HeldByDelete(d) =>
         d < s.next ==> (d in s.deletes <==> d in t.deletes) && (d in s.deletes ==> t.deletes[d] == s.deletes[d])
  }

  /** Nobody else touches the objects and entries while this holder has the document lock. */
  ghost predicate Respects(s: World, t: World, h: Holder) {
    StaysPut(s, t, h) && (s.lock == Some(h) ==> t.lock == Some(h) && t.store == s.store && t.index == s.index)
  }

  lemma OneWorkerStaysPut(s: World, t: World, w: nat, h: Holder)
    requires WorkersOnly(s, t, w) && h != HeldByWorker(w)
    ensures StaysPut(s, t, h)
  {
  }

  lemma OneDeleteStaysPut(s: World, t: World, d: nat, h: Holder)
    requires DeletesOnly(s, t, d) && h != HeldByDelete(d)
    ensures StaysPut(s, t, h)
  {
  }

  lemma WorkerStepMovesOne(s: World, step: Step)
    requires step.Load? || IsWorkerStep(step)
    ensures WorkersOnly(s, Apply(s, step), step.worker)
  {
    hide DoLoad, DoCheck, DoRaise, DoPutParsed, DoDeleteGeneration, DoUpsert, DoComplete, DoCheckPublished,
      DoCleanOldObject, DoCleanOldIndex, DoCleanStaleObject, DoCleanStaleIndex, DoMarkFailed, WorkersOnly,
      RowGoesForward, OnlyOwnProjection, OnlyOlderProjections;
  }

  predicate IsDeleteStep(step: Step) {
    !IsUnlockedStep(step) && !IsWorkerStep(step)
  }

  lemma DeleteStepMovesOne(s: World, step: Step)
    requires IsDeleteStep(step)
    ensures DeletesOnly(s, Apply(s, step), step.request)
  {
    hide DoIsolate, DoDropIndex, DoListObjects, DoRemoveObject, DoRemovedAll, DoRemoveSource, DoFinish, DeletesOnly,
      RowGoesForward;
  }

  lemma RowStepMovesNobody(s: World, step: Step)
    requires step.PutSource? || step.InsertRow? || step.Compensate? || step.Reindex? || step.EditCollection?
    ensures NobodyMoves(s, Apply(s, step))
  {
    hide DoPutSource, DoInsertRow, DoCompensate, DoReindex, DoEditCollection, NobodyMoves, RowGoesForward;
  }

  lemma NewcomersMoveNobody(s: World, stale: bool, h: Holder)
    ensures StaysPut(s, Apply(s, Claim(stale)), h) && StaysPut(s, Apply(s, RequestDelete), h)
  {
    hide Claimable, Claimed;
  }

  lemma HolderStepMovesOne(s: World, h: Holder)
    ensures HolderOnly(s, Apply(s, Acquire(h)), h) && HolderOnly(s, Apply(s, Crash(h)), h)
  {
    hide DoAcquire, DoCrash, HolderOnly;
  }

  lemma HolderMovesItself(s: World, t: World, holder: Holder, h: Holder)
    requires HolderOnly(s, t, holder) && holder != h
    ensures StaysPut(s, t, h)
  {
    hide StaysPut, WorkersOnly, DeletesOnly;
    match holder
    case HeldByWorker(w) => OneWorkerStaysPut(s, t, w, h);
    case HeldByDelete(d) => OneDeleteStaysPut(s, t, d, h);
  }

  lemma UnlockedStepStaysPut(s: World, step: Step, h: Holder)
    requires IsUnlockedStep(step) && !step.Load? && !Involves(step, h)
    ensures StaysPut(s, Apply(s, step), h)
  {
    hide Apply, StaysPut, NobodyMoves, HolderOnly;
    var t := Apply(s, step);
    match step
    case Claim(stale) => NewcomersMoveNobody(s, stale, h);
    case RequestDelete => NewcomersMoveNobody(s, false, h);
    case Acquire(holder) => HolderStepMovesOne(s, holder); HolderMovesItself(s, t, holder, h);
    case Crash(holder) => HolderStepMovesOne(s, holder); HolderMovesItself(s, t, holder, h);
    case _ => RowStepMovesNobody(s, step); NobodyStaysPut(s, t, h);
  }

  lemma StepStaysPut(s: World, step: Step, h: Holder)
    requires !Involves(step, h)
    ensures StaysPut(s, Apply(s, step), h)
  {
    hide Apply, StaysPut, WorkersOnly, DeletesOnly;
    var t := Apply(s, step);
    if IsDeleteStep(step) {
      DeleteStepMovesOne(s, step);
      OneDeleteStaysPut(s, t, step.request, h);
    } else if step.Load? || IsWorkerStep(step) {
      WorkerStepMovesOne(s, step);
      OneWorkerStaysPut(s, t, step.worker, h);
    } else {
      UnlockedStepStaysPut(s, step, h);
    }
  }

  lemma NobodyStaysPut(s: World, t: World, h: Holder)
    requires NobodyMoves(s, t)
    ensures StaysPut(s, t, h)
  {
  }

  lemma LockedIsKnown(s: World, h: Holder)
    requires Inv(s) && s.lock == Some(h)
    ensures h.HeldByWorker? ==> h.worker in s.workers && InLock(s.workers[h.worker].phase) && h.worker < s.next
    ensures h.HeldByDelete? ==> h.request in s.deletes && !s.deletes[h.request].phase.Requested? && h.request < s.next
  {
    if h.HeldByWorker? {
      assert WorkerOk(s, h.worker);
    } else {
      assert DeleteOk(s, h.request);
    }
  }

  lemma OtherWorkersTouchNothing(s: World, step: Step, h: Holder)
    requires Inv(s) && s.lock == Some(h) && !Involves(step, h) && TouchesObjects(step) && IsWorkerStep(step)
    ensures Apply(s, step).store == s.store && Apply(s, step).index == s.index
  {
    hide Inv, Apply, RowGoesForward, OnlyOwnProjection, OnlyOlderProjections;
    StepLeads(s, step);
    if step.worker in s.workers {
      WorkerHoldsTheLock(s, step.worker);
    }
  }

  lemma OtherDeletesTouchNothing(s: World, step: Step, h: Holder)
    requires Inv(s) && s.lock == Some(h) && !Involves(step, h) && (step.DropIndex? || step.RemoveObject?)
    ensures Apply(s, step).store == s.store && Apply(s, step).index == s.index
  {
    hide DoDropIndex, DoRemoveObject, Inv;
    if step.request in s.deletes {
      KnownDelete(s, step.request);
    }
  }

  lemma OnlyTheHolderTouches(s: World, step: Step, h: Holder)
    requires Inv(s) && s.lock == Some(h) && !Involves(step, h)
    ensures Apply(s, step).store == s.store && Apply(s, step).index == s.index
  {
    hide Inv, Apply, Involves;
    if !TouchesObjects(step) {
      OtherStepsTouchNoObjects(s, step);
    } else if IsWorkerStep(step) {
      OtherWorkersTouchNothing(s, step, h);
    } else {
      OtherDeletesTouchNothing(s, step, h);
    }
  }

  lemma OthersRespect(s: World, step: Step, h: Holder)
    requires Inv(s) && !Involves(step, h)
    ensures Inv(Apply(s, step)) && Respects(s, Apply(s, step), h)
  {
    hide Inv, Apply;
    StepKeeps(s, step);
    StepStaysPut(s, step, h);
    if s.lock == Some(h) {
      var t := Apply(s, step);
      LockedIsKnown(s, h);
      OnlyTheHolderTouches(s, step, h);
      LockFollowsPhase(t, h);
    }
  }

  lemma LockFollowsPhase(t: World, h: Holder)
    requires Inv(t)
    requires h.HeldByWorker? ==> h.worker in t.workers && InLock(t.workers[h.worker].phase)
    requires h.HeldByDelete? ==> h.request in t.deletes && !t.deletes[h.request].phase.Requested?
    ensures t.lock == Some(h)
  {
    if h.HeldByWorker? {
      assert WorkerOk(t, h.worker);
    } else {
      assert DeleteOk(t, h.request);
    }
  }

  // ----- Where the steps of one worker lead ----------------------------------------------------------

  /** The same attempt, now at this phase. */
  predicate MovedTo(s: World, t: World, w: nat, phase: Phase) {
    w in s.workers && w in t.workers && t.workers[w] == s.workers[w].(phase := phase)
  }

  predicate Ended(t: World, w: nat) {
    w !in t.workers
  }

  function AfterCheck(phase: Phase): Phase {
    match phase
    case BeforePut => Putting
    case BeforeDelete => Deleting
    case BeforeUpsert => Upserting
    case _ => phase
  }

  predicate IsChecked(phase: Phase) {
    phase.BeforePut? || phase.BeforeDelete? || phase.BeforeUpsert?
  }

  lemma ClaimLeads(s: World, stale: bool)
    requires Inv(s)
    ensures var t := Apply(s, Claim(stale));
            if s.next in t.workers
            then t.workers[s.next].phase == Loading && t.next == s.next + 1
                 && s.row.Some? && Claimable(s.row.value, stale)
            else t == s && (s.row.None? || !Claimable(s.row.value, stale))
  {
    hide WorkerOk, Claimable;
    if s.next in s.workers {
      NextIsNew(s, s.next);
    }
  }

  lemma NextIsNew(s: World, w: nat)
    requires Inv(s) && w in s.workers
    ensures w < s.next
  {
    assert WorkerOk(s, w);
  }

  lemma LoadLeads(s: World, w: nat, extracted: Option<string>)
    requires At(s, w, Loading)
    ensures var t := Apply(s, Load(w, extracted)); At(t, w, Arriving) || At(t, w, Failing)
  {
    hide IsBlank;
  }

  lemma AcquireLeads(s: World, w: nat)
    requires s.lock.None? && (At(s, w, Arriving) || At(s, w, Failing))
    ensures var t := Apply(s, Acquire(HeldByWorker(w)));
            && t.lock == Some(HeldByWorker(w))
            && MovedTo(s, t, w, if At(s, w, Arriving) then BeforePut else MarkingFailed)
  {
  }

  lemma CheckLeads(s: World, w: nat)
    requires w in s.workers && IsChecked(s.workers[w].phase)
    ensures var t := Apply(s, Check(w));
            || (MovedTo(s, t, w, AfterCheck(s.workers[w].phase)) && Dispose(t, w) == Owned)
            || MovedTo(s, t, w, CleaningObject)
            || Ended(t, w)
  {
    hide Judge, WorkersOnly, SameObjects;
  }

  lemma JudgeLeads(s: World, w: nat, afterFailure: bool)
    requires At(s, w, Judging(afterFailure))
    ensures var t := Apply(s, Check(w)); MovedTo(s, t, w, CleaningObject) || Ended(t, w)
    ensures var t := Apply(s, Raise(w)); if afterFailure then Ended(t, w) else At(t, w, Failing)
  {
    hide DoCheck, DoRaise, WorkersOnly, SameObjects;
    DoCheckJudges(s, w);
    DoRaiseJudges(s, w);
  }

  lemma DoCheckJudges(s: World, w: nat)
    requires w in s.workers && s.workers[w].phase.Judging?
    ensures var t := DoCheck(s, w); MovedTo(s, t, w, CleaningObject) || Ended(t, w)
  {
    hide Judge, WorkersOnly, SameObjects;
  }

  lemma DoRaiseJudges(s: World, w: nat)
    requires w in s.workers && s.workers[w].phase.Judging?
    ensures var t := DoRaise(s, w); if s.workers[w].phase.afterFailure then Ended(t, w) else At(t, w, Failing)
  {
    hide WorkersOnly, SameObjects;
  }

  lemma RaiseLeads(s: World, w: nat)
    requires w in s.workers && (IsChecked(s.workers[w].phase) || s.workers[w].phase == Published)
    ensures At(Apply(s, Raise(w)), w, Failing)
  {
    hide WorkersOnly, SameObjects;
  }

  lemma PutLeads(s: World, w: nat, fate: Fate)
    requires At(s, w, Putting)
    ensures var t := Apply(s, PutParsed(w, fate)); MovedTo(s, t, w, BeforeDelete) || At(t, w, Failing)
  {
    hide WorkersOnly, SameObjects, OnlyOwnProjection;
  }

  lemma DeleteGenerationLeads(s: World, w: nat, fate: Fate, kept: set<nat>)
    requires At(s, w, Deleting)
    ensures var t := Apply(s, DeleteGeneration(w, fate, kept)); MovedTo(s, t, w, BeforeUpsert) || At(t, w, Failing)
  {
    hide Only, EntriesAt;
  }

  lemma UpsertLeads(s: World, w: nat, fate: Fate, applied: set<nat>)
    requires Inv(s) && At(s, w, Upserting)
    ensures var t := Apply(s, Upsert(w, fate, applied)); MovedTo(s, t, w, Publishing) || At(t, w, Failing)
  {
    assert WorkerOk(s, w);
    hide Only, EntriesAt, AllEntries, Inv;
  }

  lemma CompleteLeads(s: World, w: nat, fate: Fate)
    requires Inv(s) && At(s, w, Publishing)
    ensures var t := Apply(s, Complete(w, fate));
            || At(t, w, Failing)
            || (MovedTo(s, t, w, Judging(false)) && fate == Returned)
            || (MovedTo(s, t, w, Published) && fate == Returned
                && t.row.Some? && t.row.value.Ready() && t.row.value.generation == s.workers[w].generation)
  {
    hide Inv, DoComplete, RowGoesForward, WorkersOnly, SameObjects;
    RowOfWorker(s, w);
    DoCompleteLeads(s, w, fate);
  }

  lemma DoCompleteLeads(s: World, w: nat, fate: Fate)
    requires At(s, w, Publishing) && s.row.Some?
    ensures var t := DoComplete(s, w, fate);
            || At(t, w, Failing)
            || (MovedTo(s, t, w, Judging(false)) && fate == Returned)
            || (MovedTo(s, t, w, Published) && fate == Returned
                && t.row.Some? && t.row.value.Ready() && t.row.value.generation == s.workers[w].generation)
  {
    hide Completed, RowGoesForward, WorkersOnly, SameObjects;
    CompletedPublishes(s.row.value, s.workers[w].generation, w);
  }

  lemma CompletedPublishes(row: Row, gen: nat, attempt: nat)
    ensures var (after, published) := Completed(row, gen, attempt);
            published ==> after.Ready() && after.generation == gen
  {
  }

  lemma CheckPublishedLeads(s: World, w: nat)
    requires At(s, w, Published)
    ensures var t := Apply(s, CheckPublished(w)); MovedTo(s, t, w, CleaningOld) || Ended(t, w)
  {
  }

  lemma CleanOldObjectLeads(s: World, w: nat, gen: nat)
    requires At(s, w, CleaningOld) && gen < s.workers[w].generation
    ensures var t := Apply(s, CleanOldObject(w, gen));
            t.workers == s.workers && t.store == s.store - {gen} && t.index == s.index && t.lock == s.lock
  {
  }

  lemma CleanOldIndexLeads(s: World, w: nat, kept: map<nat, set<nat>>)
    requires At(s, w, CleaningOld)
    ensures var t := Apply(s, CleanOldIndex(w, kept));
            && Ended(t, w) && t.store == s.store
            && (kept == map[] ==> forall g: nat :: g < s.workers[w].generation ==> EntriesAt(t.index, g) == map[])
  {
  }

  lemma CleanStaleObjectLeads(s: World, w: nat, removed: bool)
    requires At(s, w, CleaningObject)
    ensures var t := Apply(s, CleanStaleObject(w, removed));
            && MovedTo(s, t, w, CleaningIndex) && t.lock == s.lock && t.index == s.index
            && t.store == if removed then s.store - {s.workers[w].generation} else s.store
  {
  }

  lemma CleanStaleIndexLeads(s: World, w: nat, kept: set<nat>)
    requires At(s, w, CleaningIndex)
    ensures var t := Apply(s, CleanStaleIndex(w, kept));
            && Ended(t, w) && t.store == s.store
            && (kept == {} ==> EntriesAt(t.index, s.workers[w].generation) == map[])
  {
  }

  /** A failure is recorded of a claim that is still owned, and of no other. */
  predicate RecordsFailure(before: Option<Row>, after: Option<Row>, gen: nat, attempt: nat) {
    if Judge(before, gen, attempt) == Owned
    then after.Some? && after.value.active && after.value.generation == gen && after.value.status == Failed
         && after.value.attempt.None? && after.value.error == Some(IndexFailed)
    else after == before
  }

  lemma FailedByRecords(row: Row, gen: nat, attempt: nat)
    ensures RecordsFailure(Some(row), Some(FailedBy(row, gen, attempt).0), gen, attempt)
    ensures !FailedBy(row, gen, attempt).1 ==> FailedBy(row, gen, attempt).0 == row
  {
  }

  lemma MarkFailedLeads(s: World, w: nat, fate: Fate)
    requires Inv(s) && At(s, w, MarkingFailed)
    ensures var t := Apply(s, MarkFailed(w, fate));
            && (Ended(t, w) || MovedTo(s, t, w, CleaningObject) || MovedTo(s, t, w, Judging(true)))
            && (fate != RaisedBefore ==> RecordsFailure(s.row, t.row, s.workers[w].generation, w))
  {
    hide Inv, DoMarkFailed, RecordsFailure, RowGoesForward, WorkersOnly, SameObjects;
    RowOfWorker(s, w);
    DoMarkFailedRecords(s, w, fate);
  }

  lemma DoMarkFailedRecords(s: World, w: nat, fate: Fate)
    requires At(s, w, MarkingFailed) && s.row.Some?
    ensures var t := DoMarkFailed(s, w, fate);
            && (Ended(t, w) || MovedTo(s, t, w, CleaningObject) || MovedTo(s, t, w, Judging(true)))
            && (fate != RaisedBefore ==> RecordsFailure(s.row, t.row, s.workers[w].generation, w))
  {
    hide FailedBy, RecordsFailure, RowGoesForward, WorkersOnly, SameObjects;
    FailedByRecords(s.row.value, s.workers[w].generation, w);
  }

  lemma RowOfWorker(s: World, w: nat)
    requires Inv(s) && w in s.workers
    ensures s.row.Some?
  {
    assert WorkerOk(s, w);
  }

  lemma WorkerHoldsTheLock(s: World, w: nat)
    requires Inv(s) && w in s.workers
    ensures w < s.next && (InLock(s.workers[w].phase) <==> s.lock == Some(HeldByWorker(w)))
  {
    assert WorkerOk(s, w);
  }

  lemma EndedHoldsNoLock(s: World, w: nat)
    requires Inv(s) && Ended(s, w)
    ensures s.lock != Some(HeldByWorker(w))
  {
  }

  // ----- Where the steps of one delete request lead --------------------------------------------------

  lemma AcquireForDeleteLeads(s: World, d: nat)
    requires s.lock.None? && DeleteAt(s, d, Requested)
    ensures var t := Apply(s, Acquire(HeldByDelete(d)));
            && t.lock == Some(HeldByDelete(d)) && DeleteAt(t, d, Isolating)
            && t.deletes[d].errors == s.deletes[d].errors
  {
  }

  lemma IsolateLeads(s: World, d: nat, refused: bool, fate: Fate)
    requires DeleteAt(s, d, Isolating)
    ensures var t := Apply(s, Isolate(d, refused, fate));
            || d !in t.deletes
            || (DeleteAt(t, d, DroppingIndex) && t.deletes[d].errors == s.deletes[d].errors && fate == Returned)
  {
  }

  lemma DropIndexLeads(s: World, d: nat, failed: bool, kept: map<nat, set<nat>>)
    requires DeleteAt(s, d, DroppingIndex)
    ensures var t := Apply(s, DropIndex(d, failed, kept));
            DeleteAt(t, d, Listing) && t.deletes[d].errors == (s.deletes[d].errors || failed)
  {
    hide Only;
  }

  lemma ListObjectsLeads(s: World, d: nat, failed: bool)
    requires DeleteAt(s, d, Listing)
    ensures var t := Apply(s, ListObjects(d, failed));
            && RemovingAt(t, d) && t.deletes[d].errors == (s.deletes[d].errors || failed)
            && t.deletes[d].phase.keys == if failed then {} else s.store.Keys
  {
  }

  lemma RemoveObjectLeads(s: World, d: nat, gen: nat, removed: bool, failed: bool)
    requires RemovingAt(s, d) && gen in s.deletes[d].phase.keys
    ensures var t := Apply(s, RemoveObject(d, gen, removed, failed));
            && RemovingAt(t, d) && t.deletes[d].errors == (s.deletes[d].errors || failed)
            && t.deletes[d].phase.keys == s.deletes[d].phase.keys - {gen}
  {
  }

  lemma RemovedAllLeads(s: World, d: nat)
    requires RemovingAt(s, d) && s.deletes[d].phase.keys == {}
    ensures var t := Apply(s, RemovedAll(d));
            DeleteAt(t, d, RemovingSource) && t.deletes[d].errors == s.deletes[d].errors
  {
  }

  lemma RemoveSourceLeads(s: World, d: nat, removed: bool, failed: bool)
    requires DeleteAt(s, d, RemovingSource)
    ensures var t := Apply(s, RemoveSource(d, removed, failed));
            DeleteAt(t, d, Finishing) && t.deletes[d].errors == (s.deletes[d].errors || failed)
  {
  }

  /** The row still names this cleanup attempt, so its last update always matches. */
  lemma FinishLeads(s: World, d: nat, fate: Fate)
    requires Inv(s) && DeleteAt(s, d, Finishing)
    ensures s.row.Some? && CleanupCleared(s.row.value, d).1 && CleanupMarkedFailed(s.row.value, d).1
    ensures var t := Apply(s, Finish(d, fate));
            && d !in t.deletes && t.row.Some? && !t.row.value.active
            && (fate == Returned ==> (t.row.value.Deleted() <==> !s.deletes[d].errors))
  {
    assert DeleteOk(s, d);
    hide Inv, WorkerOk, DeleteProgress;
  }

  /** A delete that met no error on its way has left nothing behind when it is about to finish. */
  lemma NoErrorsMeansGone(s: World, d: nat)
    requires Inv(s) && DeleteAt(s, d, Finishing) && !s.deletes[d].errors
    ensures Gone(s)
  {
    assert DeleteOk(s, d);
  }

  lemma {:induction false} RunThenStep(s: World, steps: seq<Step>, step: Step)
    ensures Run(s, steps + [step]) == Apply(Run(s, steps), step)
    decreases |steps|
  {
    hide Apply;
    if steps == [] {
      assert [] + [step] == [step];
      assert [step][1..] == [];
    } else {
      assert (steps + [step])[1..] == steps[1..] + [step];
      RunThenStep(Apply(s, steps[0]), steps[1..], step);
    }
  }
}
