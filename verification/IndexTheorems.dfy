/** The promises of the indexing protocol, over every run of it. */
module IndexTheorems {
  import opened Outcomes
  import opened DocumentRow
  import opened Texts
  import opened Chunking
  import opened IndexProtocol
  import opened IndexSafety

  // ----- Ready rows ----------------------------------------------------------------------------------

  /**
   Whatever claims, takeovers, re-index requests, collection edits, deletes, failures and crashes came
   before: an active ready row names the parsed object of its own generation, that object holds a text
   that extraction yields from the source, and the index at that generation holds exactly that text's
   chunks under the collection's current sizes.
   */
  lemma ReadyRowsAreExact(start: World, steps: seq<Step>)
    requires Start(start)
    ensures var s := Run(start, steps);
            s.row.Some? && s.row.value.Ready() ==>
              var gen := s.row.value.generation;
              && s.row.value.parsed == Some(gen)
              && gen in s.store
              && s.store[gen] in s.texts
              && s.sizes.Allowed()
              && EntriesAt(s.index, gen) == AllEntries(s.store[gen], s.sizes)
  {
    StartIsSafe(start);
    RunKeeps(start, steps);
  }

  /** So no hit of a ready generation can fail the reader's comparison with the parsed object. */
  lemma ReadyEntriesPassTheReader(start: World, steps: seq<Step>, i: nat)
    requires Start(start)
    requires var s := Run(start, steps);
             s.row.Some? && s.row.value.Ready() && i in EntriesAt(s.index, s.row.value.generation)
    ensures var s := Run(start, steps);
            var gen := s.row.value.generation;
            && gen in s.store
            && EntriesAt(s.index, gen)[i].index == i
            && PassesSliceCheck(EntriesAt(s.index, gen)[i], s.store[gen])
  {
    var s := Run(start, steps);
    ReadyRowsAreExact(start, steps);
    var gen := s.row.value.generation;
    ChunksPassTheReader(s.store[gen], s.sizes);
    assert AllEntries(s.store[gen], s.sizes)[i] == Chunks(s.store[gen], s.sizes)[i];
  }

  // ----- What only moves forward ---------------------------------------------------------------------

  lemma RowImpliesUploaded(s: World)
    requires Inv(s) && s.row.Some?
    ensures s.upload == Uploaded || s.upload == Compensating
  {
  }

  /** What a step may do to objects and entries: nothing, or what its place in the protocol allows. */
  ghost predicate TouchesAllowed(s: World, t: World, step: Step) {
    match step
    case PutParsed(w, _) => t == s || (At(s, w, Putting) && OnlyOwnProjection(s, t, w))
    case DeleteGeneration(w, _, _) => t == s || (At(s, w, Deleting) && OnlyOwnProjection(s, t, w))
    case Upsert(w, _, _) => t == s || (At(s, w, Upserting) && OnlyOwnProjection(s, t, w))
    case CleanOldObject(w, _) => t == s || (At(s, w, CleaningOld) && OnlyOlderProjections(s, t, w))
    case CleanOldIndex(w, _) => t == s || (At(s, w, CleaningOld) && OnlyOlderProjections(s, t, w))
    case CleanStaleObject(w, _) => t == s || (At(s, w, CleaningObject) && OnlyOwnProjection(s, t, w))
    case CleanStaleIndex(w, _) => t == s || (At(s, w, CleaningIndex) && OnlyOwnProjection(s, t, w))
    case DropIndex(d, _, _) => t == s || DeleteAt(s, d, DroppingIndex)
    case RemoveObject(d, _, _, _) => t == s || (d in s.deletes && s.deletes[d].phase.Removing?)
    case _ =>
      && t.store == s.store && t.index == s.index
      && (s.upload != NotStarted && !s.source ==> !t.source)
  }

  /** Step by step, what later proofs need of each: the row goes forward, and only objects in reach are touched. */
  lemma StepLeads(s: World, step: Step)
    ensures (s.row.Some? ==> s.upload == Uploaded || s.upload == Compensating) ==> RowGoesForward(s, Apply(s, step))
    ensures TouchesAllowed(s, Apply(s, step), step)
  {
    hide DoInsertRow, DoCompensate, DoClaim, DoReindex, DoEditCollection, DoLoad, DoRequestDelete,
      DoAcquire, DoCrash, DoCheck, DoRaise, DoPutParsed, DoDeleteGeneration, DoUpsert, DoComplete,
      DoCheckPublished, DoCleanOldObject, DoCleanOldIndex, DoCleanStaleObject, DoCleanStaleIndex, DoMarkFailed,
      DoIsolate, DoDropIndex, DoListObjects, DoRemoveObject, DoRemovedAll, DoRemoveSource, DoFinish;
    hide OnlyOwnProjection, OnlyOlderProjections;
  }

  lemma StepGoesForward(s: World, step: Step)
    requires Inv(s)
    ensures RowGoesForward(s, Apply(s, step))
  {
    hide Inv, Apply, RowGoesForward, TouchesAllowed;
    if s.row.Some? {
      RowImpliesUploaded(s);
    }
    StepLeads(s, step);
  }

  lemma {:induction false} RunGoesForward(s: World, steps: seq<Step>)
    requires Inv(s)
    ensures RowGoesForward(s, Run(s, steps))
    decreases |steps|
  {
    hide Inv;
    if steps != [] {
      var next := Apply(s, steps[0]);
      StepGoesForward(s, steps[0]);
      StepKeeps(s, steps[0]);
      RunGoesForward(next, steps[1..]);
    }
  }

  /** An attempt that has been found obsolete stays obsolete, so its cleanup can hurt no newer attempt. */
  lemma ObsoleteIsStable(s: World, steps: seq<Step>, gen: nat, attempt: nat)
    requires Inv(s) && s.row.Some? && gen <= s.row.value.generation
    requires Judge(s.row, gen, attempt) == Obsolete
    ensures Judge(Run(s, steps).row, gen, attempt) == Obsolete
  {
    RunGoesForward(s, steps);
  }

  /** A failed generation is never processed again: the row fails for good or is bumped past it. */
  lemma FailedGenerationIsNeverReused(s: World, steps: seq<Step>)
    requires Inv(s) && s.row.Some? && s.row.value.status == Failed
    ensures var after := Run(s, steps).row;
            after.Some? && (after.value.active ==>
              after.value.status == Failed || after.value.generation > s.row.value.generation)
  {
    RunGoesForward(s, steps);
  }

  // ----- A published projection is left alone --------------------------------------------------------

  predicate TouchesObjects(step: Step) {
    || step.PutParsed? || step.DeleteGeneration? || step.Upsert? || step.CleanOldObject? || step.CleanOldIndex?
    || step.CleanStaleObject? || step.CleanStaleIndex? || step.DropIndex? || step.RemoveObject?
  }

  lemma OtherStepsTouchNoObjects(s: World, step: Step)
    requires !TouchesObjects(step)
    ensures Apply(s, step).store == s.store && Apply(s, step).index == s.index
    ensures s.upload != NotStarted && !s.source ==> !Apply(s, step).source
  {
    hide Apply, RowGoesForward;
    StepLeads(s, step);
  }

  lemma KnownDelete(s: World, d: nat)
    requires Inv(s) && d in s.deletes
    ensures DeleteOk(s, d)
  {
  }

  /** No worker that changes objects or entries is at work on the ready generation. */
  lemma NobodyWorksOnReady(s: World, w: nat)
    requires Inv(s) && s.row.Some? && s.row.value.Ready() && w in s.workers
    ensures Mutating(s.workers[w].phase) || Cleaning(s.workers[w].phase)
            ==> s.workers[w].generation < s.row.value.generation
    ensures s.workers[w].generation <= s.row.value.generation
  {
    hide IsBlank, Chunks, AllEntries, EntriesAt;
    assert WorkerOk(s, w);
  }

  lemma StepLeavesReadyAlone(s: World, step: Step)
    requires Inv(s) && s.row.Some? && s.row.value.Ready()
    ensures var t := Apply(s, step);
            t.row.Some? && t.row.value.active && t.row.value.generation == s.row.value.generation
            ==> SameProjection(s, t, s.row.value.generation)
  {
    hide Inv, Apply, RowGoesForward, AllEntries, EntriesAt;
    StepLeads(s, step);
    if step.DropIndex? || step.RemoveObject? {
      if step.request in s.deletes {
        KnownDelete(s, step.request);
      }
    } else if TouchesObjects(step) && step.worker in s.workers {
      NobodyWorksOnReady(s, step.worker);
    }
  }

  /** Late, superseded and obsolete attempts leave a published generation exactly as it was published. */
  lemma {:induction false} ReadyProjectionIsLeftAlone(s: World, steps: seq<Step>)
    requires Inv(s) && s.row.Some? && s.row.value.Ready()
    ensures var t := Run(s, steps);
            t.row.Some? && t.row.value.active && t.row.value.generation == s.row.value.generation
            ==> t.row == s.row && SameProjection(s, t, s.row.value.generation)
    decreases |steps|
  {
    hide Inv, IsBlank, Chunks, AllEntries;
    RunGoesForward(s, steps);
    if steps != [] {
      var next := Apply(s, steps[0]);
      StepGoesForward(s, steps[0]);
      StepLeavesReadyAlone(s, steps[0]);
      StepKeeps(s, steps[0]);
      RunGoesForward(next, steps[1..]);
      if next.row.value.Ready() && next.row.value.generation == s.row.value.generation {
        ReadyProjectionIsLeftAlone(next, steps[1..]);
      }
    }
  }

  // ----- Deletes -------------------------------------------------------------------------------------

  ghost predicate DeletedForGood(s: World) {
    Inv(s) && s.row.Some? && !s.row.value.active && Gone(s)
  }

  lemma StepKeepsGone(s: World, step: Step)
    requires DeletedForGood(s)
    ensures DeletedForGood(Apply(s, step))
  {
    hide Inv, Apply, RowGoesForward, OnlyOwnProjection, OnlyOlderProjections;
    StepKeeps(s, step);
    StepGoesForward(s, step);
    RowImpliesUploaded(s);
    StepLeads(s, step);
    hide TouchesAllowed;
    if TouchesObjects(step) {
      TouchesKeepGone(s, step);
    } else {
      OtherStepsTouchNoObjects(s, step);
    }
    StillThere(s, Apply(s, step));
  }

  lemma StillThere(s: World, t: World)
    requires RowGoesForward(s, t) && s.row.Some?
    ensures t.row.Some? && (!s.row.value.active ==> !t.row.value.active)
  {
  }

  predicate IsBuilding(step: Step) {
    step.PutParsed? || step.Upsert? || step.DeleteGeneration?
  }

  /** Nobody puts or upserts for an inactive row. */
  lemma NobodyBuilds(s: World, step: Step)
    requires DeletedForGood(s) && IsBuilding(step)
    ensures Apply(s, step) == s
  {
    hide Inv, Apply, IsBlank, AllEntries, EntriesAt, RowGoesForward, OnlyOwnProjection, Gone;
    StepLeads(s, step);
    if step.worker in s.workers {
      KnownWorker(s, step.worker);
    }
  }

  /** Everything else only takes away. */
  lemma TouchesKeepGone(s: World, step: Step)
    requires DeletedForGood(s) && TouchesObjects(step)
    ensures Gone(Apply(s, step))
  {
    hide Inv, DoPutParsed, DoUpsert, DoDeleteGeneration, OnlyOwnProjection, OnlyOlderProjections, RowGoesForward,
      WorkersOnly, DeletesOnly;
    if IsBuilding(step) {
      hide Apply;
      NobodyBuilds(s, step);
    }
  }

  lemma {:induction false} RunKeepsGone(s: World, steps: seq<Step>)
    requires DeletedForGood(s)
    ensures DeletedForGood(Run(s, steps))
    decreases |steps|
  {
    hide DeletedForGood;
    if steps != [] {
      StepKeepsGone(s, steps[0]);
      RunKeepsGone(Apply(s, steps[0]), steps[1..]);
    }
  }

  /**
   Once a delete has finished, the document has no source object, no parsed object and no index entry, and
   nothing that runs later brings one back: no worker, no late upload compensation, no second delete.
   */
  lemma FinishedDeletesArePermanent(start: World, steps: seq<Step>, later: seq<Step>)
    requires Start(start)
    requires Run(start, steps).row.Some? && Run(start, steps).row.value.Deleted()
    ensures Gone(Run(start, steps))
    ensures Gone(Run(Run(start, steps), later))
    ensures Run(Run(start, steps), later).row.Some? && !Run(Run(start, steps), later).row.value.active
  {
    StartIsSafe(start);
    RunKeeps(start, steps);
    RunKeepsGone(Run(start, steps), later);
  }

  // ----- And the protocol does publish ---------------------------------------------------------------

  /** The claim of one attempt, stale for a row that another attempt left in processing, and its steps up to the end. */
  function UndisturbedRun(w: nat, text: string, stale: bool): seq<Step> {
    [Claim(stale), Load(w, Some(text)), Acquire(HeldByWorker(w)),
     Check(w), PutParsed(w, Returned),
     Check(w), DeleteGeneration(w, Returned, {}),
     Check(w), Upsert(w, Returned, {}),
     Complete(w, Returned)]
  }

  lemma RunOne(s: World, step: Step, rest: seq<Step>)
    ensures Run(s, [step] + rest) == Run(Apply(s, step), rest)
  {
    assert ([step] + rest)[1..] == rest;
  }

  /** Where an attempt stands that nobody disturbs. */
  ghost predicate Reached(s: World, t: World, w: nat, text: string, phase: Phase) {
    && s.row.Some? && t.row == Some(Claimed(s.row.value, w))
    && w in t.workers
    && t.workers[w] == Worker(s.row.value.generation, s.sizes, text, phase)
  }

  /** What a worker's step means when nothing goes wrong. */
  ghost predicate Means(s: World, step: Step, t: World) {
    match step
    case Claim(stale) => t == DoClaim(s, stale)
    case Load(w, extracted) => t == DoLoad(s, w, extracted)
    case Acquire(h) => t == DoAcquire(s, h)
    case Check(w) => t == DoCheck(s, w)
    case PutParsed(w, fate) => t == DoPutParsed(s, w, fate)
    case DeleteGeneration(w, fate, kept) => t == DoDeleteGeneration(s, w, fate, kept)
    case Upsert(w, fate, applied) => t == DoUpsert(s, w, fate, applied)
    case Complete(w, fate) => t == DoComplete(s, w, fate)
    case RequestDelete => t == DoRequestDelete(s)
    case Isolate(d, refused, fate) => t == DoIsolate(s, d, refused, fate)
    case DropIndex(d, failed, kept) => t == DoDropIndex(s, d, failed, kept)
    case ListObjects(d, failed) => t == DoListObjects(s, d, failed)
    case RemoveObject(d, gen, removed, failed) => t == DoRemoveObject(s, d, gen, removed, failed)
    case RemovedAll(d) => t == DoRemovedAll(s, d)
    case RemoveSource(d, removed, failed) => t == DoRemoveSource(s, d, removed, failed)
    case Finish(d, fate) => t == DoFinish(s, d, fate)
    case MarkFailed(w, fate) => t == DoMarkFailed(s, w, fate)
    case CleanStaleObject(w, removed) => t == DoCleanStaleObject(s, w, removed)
    case CleanStaleIndex(w, kept) => t == DoCleanStaleIndex(s, w, kept)
    case _ => false
  }

  lemma ApplyMeans(s: World, step: Step, t: World)
    requires Means(s, step, t)
    ensures Apply(s, step) == t
  {
    hide DoClaim, DoLoad, DoAcquire, DoCheck, DoPutParsed, DoDeleteGeneration, DoUpsert, DoComplete, DoRequestDelete,
      DoIsolate, DoDropIndex, DoListObjects, DoRemoveObject, DoRemovedAll, DoRemoveSource, DoFinish, DoMarkFailed,
      DoCleanStaleObject, DoCleanStaleIndex;
  }

  /** Step by step from the first state to the last. */
  lemma {:induction false} StepsLead(steps: seq<Step>, states: seq<World>)
    requires |states| == |steps| + 1
    requires forall i :: 0 <= i < |steps| ==> Means(states[i], steps[i], states[i + 1])
    ensures Run(states[0], steps) == states[|steps|]
    decreases |steps|
  {
    hide Apply, Means;
    if steps != [] {
      ApplyMeans(states[0], steps[0], states[1]);
      var (rest, others) := (steps[1..], states[1..]);
      forall i | 0 <= i < |rest|
        ensures Means(others[i], rest[i], others[i + 1])
      {
        assert Means(states[i + 1], steps[i + 1], states[i + 2]);
      }
      StepsLead(rest, others);
    }
  }

  /** What a claim finds: an active row that is queued, or that somebody left in processing too long ago. */
  predicate Awaits(s: World, stale: bool) {
    s.row.Some? && s.row.value.active && (s.row.value.status == Queued || (s.row.value.status == Processing && stale))
  }

  lemma ClaimsAndLoads(s: World, w: nat, text: string, stale: bool)
    requires Awaits(s, stale) && w == s.next
    requires s.source && text in s.texts && !IsBlank(text)
    ensures var t := DoLoad(DoClaim(s, stale), w, Some(text));
            Reached(s, t, w, text, Arriving) && t.lock == s.lock && t.store == s.store
  {
    hide IsBlank;
    assert Reached(s, DoClaim(s, stale), w, "", Loading);
  }

  lemma AcquiresAndChecks(s: World, a: World, w: nat, text: string)
    requires Reached(s, a, w, text, Arriving) && a.lock.None? && s.row.value.active
    ensures var t := DoCheck(DoAcquire(a, HeldByWorker(w)), w);
            Reached(s, t, w, text, Putting) && t.store == a.store
  {
    assert Reached(s, DoAcquire(a, HeldByWorker(w)), w, text, BeforePut);
  }

  lemma Puts(s: World, a: World, w: nat, text: string)
    requires Reached(s, a, w, text, Putting)
    requires s.row.value.generation in a.store ==> a.store[s.row.value.generation] == text
    ensures Reached(s, DoPutParsed(a, w, Returned), w, text, BeforeDelete)
  {
  }

  lemma ChecksAndDeletes(s: World, a: World, w: nat, text: string)
    requires Reached(s, a, w, text, BeforeDelete) && s.row.value.active
    ensures Reached(s, DoDeleteGeneration(DoCheck(a, w), w, Returned, {}), w, text, BeforeUpsert)
  {
    assert Reached(s, DoCheck(a, w), w, text, Deleting);
  }

  lemma ChecksAndUpserts(s: World, a: World, w: nat, text: string)
    requires Reached(s, a, w, text, BeforeUpsert) && s.row.value.active && s.sizes.Allowed()
    ensures Reached(s, DoUpsert(DoCheck(a, w), w, Returned, {}), w, text, Publishing)
  {
    hide AllEntries, Only;
    assert Reached(s, DoCheck(a, w), w, text, Upserting);
  }

  lemma Publishes(s: World, a: World, w: nat, text: string)
    requires Reached(s, a, w, text, Publishing) && s.row.value.active
    ensures var t := DoComplete(a, w, Returned);
            t.row.Some? && t.row.value.Ready() && t.row.value.generation == s.row.value.generation
  {
  }

  lemma UndisturbedUntilPut(s: World, w: nat, text: string, stale: bool) returns (t: World)
    requires Awaits(s, stale) && s.lock.None? && w == s.next
    requires s.source && text in s.texts && !IsBlank(text)
    requires s.row.value.generation in s.store ==> s.store[s.row.value.generation] == text
    ensures t == Run(s, UndisturbedRun(w, text, stale)[..5])
    ensures Reached(s, t, w, text, BeforeDelete)
  {
    hide Apply, DoClaim, DoLoad, DoAcquire, DoCheck, DoPutParsed;
    hide Reached, IsBlank, OnlyOwnProjection, OnlyOlderProjections, SameObjects, RowGoesForward, WorkersOnly,
      HolderOnly;
    ClaimsAndLoads(s, w, text, stale);
    var claimed := DoClaim(s, stale);
    var loaded := DoLoad(claimed, w, Some(text));
    AcquiresAndChecks(s, loaded, w, text);
    var acquired := DoAcquire(loaded, HeldByWorker(w));
    var checked := DoCheck(acquired, w);
    Puts(s, checked, w, text);
    t := DoPutParsed(checked, w, Returned);
    StepsLead(UndisturbedRun(w, text, stale)[..5], [s, claimed, loaded, acquired, checked, t]);
  }

  lemma UndisturbedAfterPut(s: World, p: World, w: nat, text: string, stale: bool) returns (t: World)
    requires s.row.Some? && s.row.value.active && s.sizes.Allowed()
    requires Reached(s, p, w, text, BeforeDelete)
    ensures t == Run(p, UndisturbedRun(w, text, stale)[5..])
    ensures t.row.Some? && t.row.value.Ready() && t.row.value.generation == s.row.value.generation
  {
    hide Apply, DoCheck, DoDeleteGeneration, DoUpsert, DoComplete;
    hide Reached, OnlyOwnProjection, OnlyOlderProjections, SameObjects, RowGoesForward, WorkersOnly;
    ChecksAndDeletes(s, p, w, text);
    var checked := DoCheck(p, w);
    var emptied := DoDeleteGeneration(checked, w, Returned, {});
    ChecksAndUpserts(s, emptied, w, text);
    var confirmed := DoCheck(emptied, w);
    var filled := DoUpsert(confirmed, w, Returned, {});
    Publishes(s, filled, w, text);
    t := DoComplete(filled, w, Returned);
    StepsLead(UndisturbedRun(w, text, stale)[5..], [p, checked, emptied, confirmed, filled, t]);
  }

  lemma {:induction false} RunInTwoParts(s: World, first: seq<Step>, second: seq<Step>)
    ensures Run(s, first + second) == Run(Run(s, first), second)
    decreases |first|
  {
    if first == [] {
      assert first + second == second;
    } else {
      assert (first + second)[1..] == first[1..] + second;
      RunInTwoParts(Apply(s, first[0]), first[1..], second);
    }
  }

  /**
   The protocol does publish: from any reachable state whose lock is free and whose row is queued, or was left in
   processing by an attempt that takes too long, one attempt that nobody disturbs makes the row ready, unless the
   generation's object holds another text.
   */
  lemma UndisturbedRunPublishes(start: World, before: seq<Step>, text: string, stale: bool)
    requires Start(start)
    requires var s := Run(start, before);
             && s.row.Some? && s.row.value.active
             && (s.row.value.status == Queued || (s.row.value.status == Processing && stale))
             && s.lock.None? && s.source && text in s.texts && !IsBlank(text)
             && (s.row.value.generation in s.store ==> s.store[s.row.value.generation] == text)
    ensures var s := Run(start, before);
            var t := Run(s, UndisturbedRun(s.next, text, stale));
            t.row.Some? && t.row.value.Ready() && t.row.value.generation == s.row.value.generation
  {
    StartIsSafe(start);
    RunKeeps(start, before);
    var s := Run(start, before);
    var steps := UndisturbedRun(s.next, text, stale);
    var p := UndisturbedUntilPut(s, s.next, text, stale);
    var t := UndisturbedAfterPut(s, p, s.next, text, stale);
    assert steps == steps[..5] + steps[5..];
    RunInTwoParts(s, steps[..5], steps[5..]);
  }

  /** Exactly the waiting rows are claimed, and the new attempt gets the row's generation and the current sizes. */
  lemma OnlyWaitingRowsAreClaimed(s: World, stale: bool)
    ensures Apply(s, Claim(stale)) != s ==> Awaits(s, stale)
    ensures Awaits(s, stale) ==>
              var t := Apply(s, Claim(stale));
              && t.row == Some(s.row.value.(status := Processing, attempt := Some(s.next))) && s.next in t.workers
              && t.workers[s.next].generation == s.row.value.generation && t.workers[s.next].sizes == s.sizes
  {
    hide SameObjects, RowGoesForward;
  }

  /** What a re-index request finds: an active row that is ready or failed, or has been in processing for too long. */
  predicate MayBeReindexed(s: World, stale: bool) {
    && s.row.Some? && s.row.value.active
    && (s.row.value.status == Ready || s.row.value.status == Failed || (s.row.value.status == Processing && stale))
  }

  /** Exactly these rows are queued again, as the next generation and without a trace of the last one. */
  lemma ReindexQueuesTheNext(s: World, stale: bool)
    ensures !MayBeReindexed(s, stale) ==> Apply(s, Reindex(stale)) == s
    ensures MayBeReindexed(s, stale) ==>
              var t := Apply(s, Reindex(stale));
              && t == s.(row := t.row) && t.row.Some?
              && t.row.value == Row(s.row.value.generation + 1, Queued, None, None, true, None, None)
  {
    hide SameObjects, RowGoesForward, NobodyMoves;
    assert Apply(s, Reindex(stale)) == DoReindex(s, stale);
  }

  /** A ready document is indexed anew on request: one undisturbed attempt publishes the next generation. */
  lemma ReindexingPublishesTheNext(start: World, before: seq<Step>, text: string)
    requires Start(start)
    requires var s := Run(start, before);
             && s.row.Some? && s.row.value.Ready() && s.lock.None? && s.source && text in s.texts && !IsBlank(text)
             && s.row.value.generation + 1 !in s.store
    ensures var s := Run(start, before);
            var t := Run(s, [Reindex(false)] + UndisturbedRun(s.next, text, false));
            && t.row.Some? && t.row.value.Ready() && t.row.value.generation == s.row.value.generation + 1
  {
    hide Apply, UndisturbedRun;
    var s := Run(start, before);
    ReindexQueuesTheNext(s, false);
    var requeued := Apply(s, Reindex(false));
    RunInTwoParts(start, before, [Reindex(false)]);
    RunOne(s, Reindex(false), []);
    assert [Reindex(false)] + [] == [Reindex(false)];
    assert Run(start, before + [Reindex(false)]) == requeued;
    UndisturbedRunPublishes(start, before + [Reindex(false)], text, false);
    RunOne(s, Reindex(false), UndisturbedRun(s.next, text, false));
  }

  /** New sizes queue every active document again, whatever its status; unchanged or forbidden sizes do nothing. */
  lemma NewSizesQueueTheNext(s: World, newSizes: Sizes)
    ensures newSizes == s.sizes || newSizes.size == 0 || newSizes.size < 2 * newSizes.overlap ==>
              Apply(s, EditCollection(newSizes)) == s
    ensures newSizes != s.sizes && newSizes.size > 0 && 2 * newSizes.overlap <= newSizes.size ==>
              var t := Apply(s, EditCollection(newSizes));
              && t.sizes == newSizes && t == s.(sizes := newSizes, row := t.row)
              && (s.row.Some? && s.row.value.active ==>
                    t.row == Some(Row(s.row.value.generation + 1, Queued, None, None, true, None, None)))
              && (s.row.None? || !s.row.value.active ==> t.row == s.row)
  {
    hide SameObjects, RowGoesForward, NobodyMoves;
  }
}
