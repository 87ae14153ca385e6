/**
 The courses of the indexing protocol that nobody disturbs, besides publication: a delete that finishes, a failure that
 is recorded and tidied up, and what becomes of the source object.
 */
module IndexCourses {
  import opened Outcomes
  import opened DocumentRow
  import opened Texts
  import opened Chunking
  import opened IndexProtocol
  import opened IndexSafety
  import opened IndexTheorems

  // ----- Reading the source --------------------------------------------------------------------------

  /** An attempt gets a text exactly if the source is there and gives one that is not blank; otherwise it has failed. */
  lemma LoadingNeedsTheSource(s: World, w: nat, extracted: Option<string>)
    requires w in s.workers && s.workers[w].phase.Loading?
    ensures var (x, t) := (s.workers[w], Apply(s, Load(w, extracted)));
            && t == s.(workers := t.workers) && w in t.workers
            && (forall v :: v != w ==>
                  (v in t.workers <==> v in s.workers) && (v in s.workers ==> t.workers[v] == s.workers[v]))
            && t.workers[w].generation == x.generation && t.workers[w].sizes == x.sizes
            && if s.source && extracted.Some? && extracted.value in s.texts && !IsBlank(extracted.value)
               then t.workers[w].phase.Arriving? && t.workers[w].text == extracted.value
               else t.workers[w].phase.Failing?
  {
    hide IsBlank, SameObjects;
    assert Apply(s, Load(w, extracted)) == DoLoad(s, w, extracted);
  }

  // ----- The source object ---------------------------------------------------------------------------

  /** Before its row is inserted, the source has been put. */
  predicate PutFirst(s: World) {
    s.upload == SourcePut ==> s.source && s.row.None?
  }

  /** Every other step leaves the upload as it is, and the source too, except for the end of a delete. */
  lemma OthersLeaveUploads(s: World, step: Step)
    requires !IsRowStep(step) && !step.RemoveSource?
    ensures var t := Apply(s, step); t.upload == s.upload && t.source == s.source && (s.row.None? ==> t.row.None?)
  {
    hide DoLoad, DoAcquire, DoCrash, DoCheck, DoRaise, DoPutParsed, DoDeleteGeneration, DoUpsert, DoCheckPublished,
      DoCleanOldObject, DoCleanOldIndex, DoCleanStaleObject, DoCleanStaleIndex, DoDropIndex, DoListObjects,
      DoRemoveObject, DoRemovedAll, OnlyOwnProjection, OnlyOlderProjections, RowGoesForward;
  }

  /** What the upload and its clean-up do to the source. */
  lemma UploadsAre(s: World, step: Step)
    requires IsRowStep(step)
    ensures var t := Apply(s, step);
            && (step.PutSource? && s.upload == NotStarted ==>
                  && t.row == s.row && (step.fate == Returned ==> t.upload == SourcePut && t.source)
                  && (step.fate != Returned ==> t.upload == Compensating))
            && (step.InsertRow? && s.upload == SourcePut ==>
                  && t.upload == (if step.fate == Returned then Uploaded else Compensating) && t.source == s.source
                  && t.row == if step.fate == RaisedBefore then s.row else Some(NEW_ROW))
            && (step.Compensate? && s.upload == Compensating ==>
                  t.upload == Uploaded && t.row == s.row && t.source == (s.source && step != Compensate(true)))
            && (!(step.PutSource? && s.upload == NotStarted) && !(step.InsertRow? && s.upload == SourcePut)
                && !(step.Compensate? && s.upload == Compensating) ==>
                  t.upload == s.upload && t.source == s.source && (s.row.None? ==> t.row.None?))
  {
    hide RowGoesForward, Sizes.Allowed, Claimable, Reindexable;
  }

  lemma RemovalsFollowIsolation(s: World, step: Step)
    requires Inv(s) && step.RemoveSource?
    ensures var t := Apply(s, step);
            && t.upload == s.upload && t.row == s.row
            && (t.source != s.source ==> s.row.Some? && !s.row.value.active)
  {
    if DeleteAt(s, step.request, RemovingSource) {
      assert DeleteOk(s, step.request);
    }
    hide Inv, DeletesOnly;
  }

  lemma StepPutsFirst(s: World, step: Step)
    requires Inv(s) && PutFirst(s)
    ensures PutFirst(Apply(s, step))
  {
    hide Apply, Inv;
    if s.row.Some? {
      RowImpliesUploaded(s);
    }
    if IsRowStep(step) {
      UploadsAre(s, step);
    } else if step.RemoveSource? {
      RemovalsFollowIsolation(s, step);
    } else {
      OthersLeaveUploads(s, step);
    }
  }

  lemma {:induction false} RunPutsFirst(s: World, steps: seq<Step>)
    requires Inv(s) && PutFirst(s)
    ensures PutFirst(Run(s, steps)) && Inv(Run(s, steps))
    decreases |steps|
  {
    hide Apply, Inv, PutFirst;
    if steps != [] {
      StepPutsFirst(s, steps[0]);
      StepKeeps(s, steps[0]);
      RunPutsFirst(Apply(s, steps[0]), steps[1..]);
    }
  }

  /**
   A document that is uploaded has its source, and keeps it until it is deleted, unless the insert of its row raised
   after it had taken effect: then the clean-up of the upload, and it alone, takes the source from the active row.
   */
  lemma SourceIsLostExactly(start: World, before: seq<Step>, step: Step)
    requires Start(start)
    ensures var (s, t) := (Run(start, before), Apply(Run(start, before), step));
            && (s.row.None? && t.row.Some? ==> t.source)
            && (s.row.Some? && s.source && t.row.Some? && t.row.value.active ==>
                  (!t.source <==> step == Compensate(true) && s.upload == Compensating))
  {
    StartIsSafe(start);
    RunPutsFirst(start, before);
    var s := Run(start, before);
    hide Run, Start;
    hide Apply, Inv;
    if s.row.Some? {
      RowImpliesUploaded(s);
    }
    StepGoesForward(s, step);
    if IsRowStep(step) {
      UploadsAre(s, step);
    } else if step.RemoveSource? {
      RemovalsFollowIsolation(s, step);
    } else {
      OthersLeaveUploads(s, step);
    }
  }

  /** What holds as long as no insert was ambiguous. */
  predicate HasItsSource(s: World) {
    PutFirst(s) && (s.row.Some? ==> s.upload == Uploaded && (s.row.value.active ==> s.source))
  }

  lemma StepKeepsSource(s: World, step: Step)
    requires Inv(s) && HasItsSource(s) && step != InsertRow(RaisedAfter)
    ensures HasItsSource(Apply(s, step))
  {
    StepPutsFirst(s, step);
    StepGoesForward(s, step);
    hide Apply, Inv, PutFirst;
    if IsRowStep(step) {
      UploadsAre(s, step);
      if step.InsertRow? && s.upload == SourcePut {
        PutsSource(s, step);
      }
    } else if step.RemoveSource? {
      RemovalsFollowIsolation(s, step);
    } else {
      OthersLeaveUploads(s, step);
    }
  }

  lemma PutsSource(s: World, step: Step)
    requires PutFirst(s) && step.InsertRow? && s.upload == SourcePut
    ensures s.source && s.row.None?
  {
  }

  lemma {:induction false} RunKeepsSource(s: World, steps: seq<Step>)
    requires Inv(s) && HasItsSource(s) && InsertRow(RaisedAfter) !in steps
    ensures HasItsSource(Run(s, steps))
    decreases |steps|
  {
    hide Apply, Inv, HasItsSource;
    if steps != [] {
      StepKeepsSource(s, steps[0]);
      StepKeeps(s, steps[0]);
      RunKeepsSource(Apply(s, steps[0]), steps[1..]);
    }
  }

  /** As long as no insert raises after it took effect, every active document has its source. */
  lemma ActiveDocumentsHaveTheirSource(start: World, steps: seq<Step>)
    requires Start(start) && InsertRow(RaisedAfter) !in steps
    ensures var s := Run(start, steps); s.row.Some? && s.row.value.active ==> s.source
  {
    StartIsSafe(start);
    RunKeepsSource(start, steps);
  }

  /** And if it does, the clean-up leaves an active, queued row without a source, which no attempt can read. */
  lemma AmbiguousInsertsLoseTheSource(start: World)
    requires Start(start)
    ensures var s := Run(start, [PutSource(Returned), InsertRow(RaisedAfter), Compensate(true)]);
            s.row == Some(NEW_ROW) && NEW_ROW.active && NEW_ROW.status == Queued && !s.source
  {
    var put := DoPutSource(start, Returned);
    var inserted := DoInsertRow(put, RaisedAfter);
    RunOne(start, PutSource(Returned), [InsertRow(RaisedAfter), Compensate(true)]);
    RunOne(put, InsertRow(RaisedAfter), [Compensate(true)]);
    RunOne(inserted, Compensate(true), []);
    assert [PutSource(Returned)] + ([InsertRow(RaisedAfter)] + ([Compensate(true)] + []))
        == [PutSource(Returned), InsertRow(RaisedAfter), Compensate(true)];
  }

  // ----- A delete that nobody disturbs ---------------------------------------------------------------

  function Removals(d: nat, keys: seq<nat>): seq<Step> {
    if keys == [] then [] else [RemoveObject(d, keys[0], true, false)] + Removals(d, keys[1..])
  }

  function Opening(d: nat): seq<Step> {
    [RequestDelete, Acquire(HeldByDelete(d)), Isolate(d, false, Returned), DropIndex(d, false, map[]),
     ListObjects(d, false)]
  }

  function Closing(d: nat): seq<Step> {
    [RemovedAll(d), RemoveSource(d, true, false), Finish(d, Returned)]
  }

  /** The whole delete request, in which every call returns; `keys` are the generations in the order they are listed. */
  function UndisturbedDelete(d: nat, keys: seq<nat>): seq<Step> {
    Opening(d) + (Removals(d, keys) + Closing(d))
  }

  /** The row is inactive and names this delete, which has had no error and is here. */
  ghost predicate Isolated(s: World, t: World, d: nat, phase: DeletePhase) {
    && s.row.Some? && d in t.deletes && t.deletes[d] == Delete(phase, false)
    && t.row == Some(s.row.value.(active := false, attempt := None, cleanup := Some(d), error := Some(CleanupPending)))
  }

  lemma RequestsAndIsolates(s: World, d: nat)
    requires s.row.Some? && s.lock.None? && d == s.next
    ensures var t := DoIsolate(DoAcquire(DoRequestDelete(s), HeldByDelete(d)), d, false, Returned);
            Isolated(s, t, d, DroppingIndex)
  {
    hide DeletesOnly, HolderOnly, SameObjects, RowGoesForward;
  }

  lemma DropsAndLists(s: World, a: World, d: nat)
    requires Isolated(s, a, d, DroppingIndex)
    ensures var t := DoListObjects(DoDropIndex(a, d, false, map[]), d, false);
            Isolated(s, t, d, Removing(a.store.Keys)) && t.store == a.store && NoEntries(t.index)
  {
    hide DeletesOnly;
  }

  lemma RemovesOne(s: World, a: World, d: nat, key: nat)
    requires Isolated(s, a, d, Removing(a.store.Keys)) && NoEntries(a.index)
    ensures var t := DoRemoveObject(a, d, key, true, false);
            Isolated(s, t, d, Removing(t.store.Keys)) && NoEntries(t.index) && t.store.Keys == a.store.Keys - {key}
  {
    hide DeletesOnly, NoEntries;
  }

  lemma {:induction false} RemovesAll(s: World, a: World, d: nat, keys: seq<nat>)
    requires Isolated(s, a, d, Removing(a.store.Keys)) && NoEntries(a.index)
    requires forall g :: g in a.store ==> g in keys
    ensures var t := Run(a, Removals(d, keys));
            Isolated(s, t, d, Removing({})) && t.store == map[] && NoEntries(t.index)
    decreases |keys|
  {
    hide Isolated, NoEntries, Apply;
    if keys == [] {
      assert a.store.Keys == {};
    } else {
      var t := DoRemoveObject(a, d, keys[0], true, false);
      ApplyMeans(a, RemoveObject(d, keys[0], true, false), t);
      RemovesOne(s, a, d, keys[0]);
      forall g | g in t.store
        ensures g in keys[1..]
      {
        assert g in a.store.Keys && g != keys[0];
      }
      RunOne(a, RemoveObject(d, keys[0], true, false), Removals(d, keys[1..]));
      RemovesAll(s, t, d, keys[1..]);
    }
  }

  lemma Finishes(s: World, a: World, d: nat)
    requires Isolated(s, a, d, Removing({})) && a.store == map[] && NoEntries(a.index)
    ensures var t := DoFinish(DoRemoveSource(DoRemovedAll(a, d), d, true, false), d, Returned);
            && t.row == Some(s.row.value.(active := false, attempt := None, cleanup := None, error := None))
            && d !in t.deletes && t.lock.None? && !t.source && t.store == map[] && NoEntries(t.index)
  {
    hide DeletesOnly, RowGoesForward, NoEntries;
  }

  lemma DeleteOpens(s: World, d: nat) returns (t: World)
    requires s.row.Some? && s.lock.None? && d == s.next
    ensures t == Run(s, Opening(d)) && t.store == s.store
    ensures Isolated(s, t, d, Removing(t.store.Keys)) && NoEntries(t.index)
  {
    hide Isolated, Apply, DoRequestDelete, DoAcquire, DoIsolate, DoDropIndex, DoListObjects, NoEntries, DeletesOnly,
      HolderOnly, RowGoesForward;
    var requested := DoRequestDelete(s);
    var acquired := DoAcquire(requested, HeldByDelete(d));
    var isolated := DoIsolate(acquired, d, false, Returned);
    RequestsAndIsolates(s, d);
    var dropped := DoDropIndex(isolated, d, false, map[]);
    t := DoListObjects(dropped, d, false);
    DropsAndLists(s, isolated, d);
    StepsLead(Opening(d), [s, requested, acquired, isolated, dropped, t]);
  }

  lemma DeleteCloses(s: World, a: World, d: nat) returns (t: World)
    requires Isolated(s, a, d, Removing({})) && a.store == map[] && NoEntries(a.index)
    ensures t == Run(a, Closing(d)) && Gone(t)
    ensures t.row == Some(s.row.value.(active := false, attempt := None, cleanup := None, error := None))
    ensures d !in t.deletes && t.lock.None?
  {
    hide Isolated, Apply, DoRemovedAll, DoRemoveSource, DoFinish, NoEntries, DeletesOnly, RowGoesForward, SameObjects;
    var cleared := DoRemovedAll(a, d);
    var emptied := DoRemoveSource(cleared, d, true, false);
    t := DoFinish(emptied, d, Returned);
    Finishes(s, a, d);
    StepsLead(Closing(d), [a, cleared, emptied, t]);
  }

  /**
   Whenever the lock is free, a delete request in which no call fails finishes: the row is inactive for good and shows
   neither a cleanup attempt nor an error, and there is no source, no parsed object and no entry left.
   */
  lemma UndisturbedDeleteFinishes(s: World, keys: seq<nat>)
    requires s.row.Some? && s.lock.None? && forall g :: g in s.store ==> g in keys
    ensures var t := Run(s, UndisturbedDelete(s.next, keys));
            && t.row == Some(s.row.value.(active := false, attempt := None, cleanup := None, error := None))
            && s.next !in t.deletes && t.lock.None? && Gone(t)
  {
    hide Isolated, Apply, NoEntries, Removals, Opening, Closing, Gone;
    var d := s.next;
    var listed := DeleteOpens(s, d);
    RemovesAll(s, listed, d, keys);
    var removed := Run(listed, Removals(d, keys));
    var t := DeleteCloses(s, removed, d);
    RunInTwoParts(s, Opening(d), Removals(d, keys) + Closing(d));
    RunInTwoParts(listed, Removals(d, keys), Closing(d));
  }

  lemma RequestIsRefused(s: World, fate: Fate)
    requires s.row.Some? && s.row.value.active && s.lock.None? && s.next !in s.deletes
    ensures DoIsolate(DoAcquire(DoRequestDelete(s), HeldByDelete(s.next)), s.next, true, fate) == s.(next := s.next + 1)
  {
    hide DeletesOnly, HolderOnly, RowGoesForward, SameObjects;
    var acquired := DoAcquire(DoRequestDelete(s), HeldByDelete(s.next));
    assert acquired == s.(next := s.next + 1, lock := Some(HeldByDelete(s.next)),
                          deletes := s.deletes[s.next := Delete(Isolating, false)]);
    assert acquired.deletes - {s.next} == s.deletes;
  }

  /** A delete that an active Agent refuses changes nothing. */
  lemma RefusedDeletesChangeNothing(s: World, fate: Fate)
    requires s.row.Some? && s.row.value.active && s.lock.None? && s.next !in s.deletes
    ensures var d := s.next;
            var t := Run(s, [RequestDelete, Acquire(HeldByDelete(d)), Isolate(d, true, fate)]);
            t == s.(next := s.next + 1)
  {
    hide Apply, DoRequestDelete, DoAcquire, DoIsolate, DeletesOnly, HolderOnly, RowGoesForward, SameObjects;
    var d := s.next;
    var requested := DoRequestDelete(s);
    var acquired := DoAcquire(requested, HeldByDelete(d));
    var t := DoIsolate(acquired, d, true, fate);
    RequestIsRefused(s, fate);
    StepsLead([RequestDelete, Acquire(HeldByDelete(d)), Isolate(d, true, fate)], [s, requested, acquired, t]);
  }

  // ----- A failure that nobody disturbs --------------------------------------------------------------

  function FailingSteps(w: nat, stale: bool): seq<Step> {
    [Claim(stale), Load(w, None), Acquire(HeldByWorker(w)), MarkFailed(w, Returned), CleanStaleObject(w, true),
     CleanStaleIndex(w, {})]
  }

  lemma FailsToLoad(s: World, w: nat, stale: bool)
    requires Awaits(s, stale) && s.lock.None? && w == s.next
    ensures var t := DoAcquire(DoLoad(DoClaim(s, stale), w, None), HeldByWorker(w));
            Reached(s, t, w, "", MarkingFailed) && t.store == s.store && t.index == s.index
  {
    hide IsBlank;
    assert Reached(s, DoClaim(s, stale), w, "", Loading);
    assert Reached(s, DoLoad(DoClaim(s, stale), w, None), w, "", Failing);
  }

  lemma Records(s: World, a: World, w: nat)
    requires Reached(s, a, w, "", MarkingFailed) && s.row.value.active
    ensures var t := DoMarkFailed(a, w, Returned);
            && t == Goto(a, w, CleaningObject).(row := t.row)
            && t.row == Some(s.row.value.(status := Status.Failed, error := Some(IndexFailed), attempt := None))
  {
    hide RowGoesForward, WorkersOnly, SameObjects;
  }

  lemma Tidies(a: World, w: nat)
    requires At(a, w, CleaningObject)
    ensures var t := DoCleanStaleIndex(DoCleanStaleObject(a, w, true), w, {});
            var gen := a.workers[w].generation;
            && t.row == a.row && w !in t.workers && t.lock.None? && t.store == a.store - {gen}
            && EntriesAt(t.index, gen) == map[]
            && forall g :: g != gen ==> EntriesAt(t.index, g) == EntriesAt(a.index, g)
  {
    hide OnlyOwnProjection, WorkersOnly;
  }

  lemma RecordsAndTidies(s: World, a: World, w: nat)
    requires Reached(s, a, w, "", MarkingFailed) && s.row.value.active
    ensures var t := DoCleanStaleIndex(DoCleanStaleObject(DoMarkFailed(a, w, Returned), w, true), w, {});
            var gen := s.row.value.generation;
            && t.row == Some(s.row.value.(status := Status.Failed, error := Some(IndexFailed), attempt := None))
            && w !in t.workers && t.lock.None? && t.store == a.store - {gen} && EntriesAt(t.index, gen) == map[]
            && forall g :: g != gen ==> EntriesAt(t.index, g) == EntriesAt(a.index, g)
  {
    Records(s, a, w);
    Tidies(DoMarkFailed(a, w, Returned), w);
    hide DoMarkFailed, DoCleanStaleObject, DoCleanStaleIndex, OnlyOwnProjection, WorkersOnly, EntriesAt;
  }

  /**
   An attempt whose source cannot be read, and which nobody disturbs, leaves the row failed with the error code, and of
   its generation neither an object nor an entry; everything of other generations stays.
   */
  lemma UndisturbedFailureIsRecorded(s: World, stale: bool)
    requires Awaits(s, stale) && s.lock.None?
    ensures var t := Run(s, FailingSteps(s.next, stale));
            var gen := s.row.value.generation;
            && t.row == Some(s.row.value.(status := Status.Failed, error := Some(IndexFailed), attempt := None))
            && s.next !in t.workers && t.lock.None? && t.store == s.store - {gen} && EntriesAt(t.index, gen) == map[]
            && forall g :: g != gen ==> EntriesAt(t.index, g) == EntriesAt(s.index, g)
  {
    hide Apply, DoClaim, DoLoad, DoAcquire, DoMarkFailed, DoCleanStaleObject, DoCleanStaleIndex, Reached,
      RowGoesForward, OnlyOwnProjection, WorkersOnly, HolderOnly, SameObjects;
    var w := s.next;
    var claimed := DoClaim(s, stale);
    var failed := DoLoad(claimed, w, None);
    var acquired := DoAcquire(failed, HeldByWorker(w));
    FailsToLoad(s, w, stale);
    var marked := DoMarkFailed(acquired, w, Returned);
    var cleaned := DoCleanStaleObject(marked, w, true);
    var t := DoCleanStaleIndex(cleaned, w, {});
    RecordsAndTidies(s, acquired, w);
    StepsLead(FailingSteps(w, stale), [s, claimed, failed, acquired, marked, cleaned, t]);
  }
}
