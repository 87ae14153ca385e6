/** What every step of the indexing protocol keeps, and what follows for every run. */
module IndexSafety {
  import opened Outcomes
  import opened DocumentRow
  import opened Texts
  import opened Chunking
  import opened IndexProtocol

  // ----- The invariant -------------------------------------------------------------------------------

  predicate InLock(phase: Phase) {
    !phase.Loading? && !phase.Arriving? && !phase.Failing?
  }

  predicate HasObject(phase: Phase) {
    phase.BeforeDelete? || phase.Deleting? || phase.BeforeUpsert? || phase.Upserting? || phase.Publishing?
  }

  predicate Mutating(phase: Phase) {
    phase.Putting? || HasObject(phase)
  }

  predicate HasText(phase: Phase) {
    phase.Arriving? || phase.BeforePut? || Mutating(phase)
  }

  predicate Cleaning(phase: Phase) {
    phase.CleaningObject? || phase.CleaningIndex?
  }

  ghost predicate NoEntries(index: map<nat, Entries>) {
    forall g :: g in index ==> index[g] == map[]
  }

  /** What one attempt may rely on while the row changes under it. */
  ghost predicate WorkerOk(s: World, w: nat)
    requires w in s.workers
  {
    var x := s.workers[w];
    && s.row.Some? && w < s.next && x.sizes.Allowed()
    && var row := s.row.value;
    && x.generation <= row.generation
    && (row.active && x.generation == row.generation ==> x.sizes == s.sizes && row.status != Queued)
    && (InLock(x.phase) <==> s.lock == Some(HeldByWorker(w)))
    && (HasText(x.phase) ==> x.text in s.texts && !IsBlank(x.text))
    && (Mutating(x.phase) ==> row.active && (row.generation == x.generation ==> row.status == Processing))
    && (Cleaning(x.phase) && row.active && row.generation == x.generation ==> row.status == Failed)
    && (HasObject(x.phase) ==> x.generation in s.store && s.store[x.generation] == x.text)
    && (x.phase.BeforeUpsert? || x.phase.Upserting? ==> EntriesAt(s.index, x.generation) == map[])
    && (x.phase.Publishing? ==> EntriesAt(s.index, x.generation) == AllEntries(x.text, x.sizes))
  }

  /** How far a delete without errors has come. */
  ghost predicate DeleteProgress(s: World, phase: DeletePhase) {
    match phase
    case Requested => true
    case Isolating => true
    case DroppingIndex => true
    case Listing => NoEntries(s.index)
    case Removing(keys) => NoEntries(s.index) && s.store.Keys == keys
    case RemovingSource => NoEntries(s.index) && s.store == map[]
    case Finishing => NoEntries(s.index) && s.store == map[] && !s.source
  }

  ghost predicate DeleteOk(s: World, d: nat)
    requires d in s.deletes
  {
    var x := s.deletes[d];
    && d < s.next
    && (!x.phase.Requested? <==> s.lock == Some(HeldByDelete(d)))
    && (!x.phase.Requested? && !x.phase.Isolating? ==>
          s.row.Some? && !s.row.value.active && s.row.value.cleanup == Some(d))
    && (!x.errors ==> DeleteProgress(s, x.phase))
  }

  ghost predicate LockOk(s: World) {
    match s.lock
    case None => true
    case Some(HeldByWorker(w)) => w in s.workers
    case Some(HeldByDelete(d)) => d in s.deletes
  }

  /** A ready row names its own generation's object, and the index holds exactly that object's chunks. */
  ghost predicate ReadyOk(s: World) {
    s.row.Some? && s.row.value.Ready() ==>
      var gen := s.row.value.generation;
      && s.row.value.parsed == Some(gen)
      && gen in s.store
      && s.sizes.Allowed()
      && !IsBlank(s.store[gen])
      && EntriesAt(s.index, gen) == AllEntries(s.store[gen], s.sizes)
  }

  /** Nothing of the document is left outside the database. */
  ghost predicate Gone(s: World) {
    !s.source && s.store == map[] && NoEntries(s.index)
  }

  ghost predicate RowOk(s: World) {
    && (s.row.None? ==> s.workers == map[] && s.store == map[] && NoEntries(s.index))
    && (s.row.Some? ==> s.upload == Uploaded || s.upload == Compensating)
    && (s.row.Some? && s.row.value.Deleted() ==> Gone(s))
    && (s.row.Some? ==> (s.row.value.status == Processing && s.row.value.active <==> s.row.value.attempt.Some?))
  }

  ghost predicate Inv(s: World) {
    && s.sizes.Allowed()
    && RowOk(s)
    && ReadyOk(s)
    && LockOk(s)
    && (forall g :: g in s.store ==> s.store[g] in s.texts)
    && (forall w :: w in s.workers ==> WorkerOk(s, w))
    && (forall d :: d in s.deletes ==> DeleteOk(s, d))
  }

  // ----- Steps of one holder -------------------------------------------------------------------------

  lemma KnownWorker(s: World, w: nat)
    requires Inv(s) && w in s.workers
    ensures WorkerOk(s, w) && s.row.Some? && s.sizes.Allowed()
    ensures s.row.value.status == Processing && s.row.value.active <==> s.row.value.attempt.Some?
    ensures ReadyOk(s)
    ensures s.row.value.Deleted() ==> Gone(s)
    ensures forall g :: g in s.store ==> s.store[g] in s.texts
  {
  }

  /** Only worker `w` moves, and only its own hold on the lock changes. */
  lemma WorkerMoves(s: World, w: nat, moved: Worker, lock: Option<Holder>)
    requires Inv(s) && w in s.workers
    requires lock == s.lock || (s.lock == None && lock == Some(HeldByWorker(w)))
             || (s.lock == Some(HeldByWorker(w)) && lock == None)
    requires WorkerOk(s.(workers := s.workers[w := moved], lock := lock), w)
    ensures Inv(s.(workers := s.workers[w := moved], lock := lock))
  {
    hide IsBlank, Chunks, AllEntries;
    var t := s.(workers := s.workers[w := moved], lock := lock);
    forall v | v in t.workers
      ensures WorkerOk(t, v)
    {
      if v != w {
        assert WorkerOk(s, v);
      }
    }
    forall d | d in t.deletes
      ensures DeleteOk(t, d)
    {
      assert DeleteOk(s, d);
    }
  }

  lemma WorkerLeaves(s: World, w: nat)
    requires Inv(s) && s.lock == Some(HeldByWorker(w))
    ensures Inv(Leave(s, w))
  {
    hide IsBlank, Chunks, AllEntries;
    var t := Leave(s, w);
    forall v | v in t.workers
      ensures WorkerOk(t, v)
    {
      assert WorkerOk(s, v);
    }
    forall d | d in t.deletes
      ensures DeleteOk(t, d)
    {
      assert DeleteOk(s, d);
    }
  }

  lemma WorkerFails(s: World, w: nat)
    requires Inv(s) && w in s.workers && s.lock == Some(HeldByWorker(w))
    ensures Inv(Fail(s, w))
  {
    hide Inv, IsBlank, Chunks, AllEntries;
    KnownWorker(s, w);
    WorkerMoves(s, w, s.workers[w].(phase := Failing), None);
  }

  /** The bump leaves every attempt behind: afterwards none of them is of the row's generation. */
  lemma RowIsRequeued(s: World)
    requires Inv(s) && s.row.Some? && s.row.value.active
    ensures Inv(s.(row := Some(Requeued(s.row.value))))
    ensures forall w :: w in s.workers ==> s.workers[w].generation < Requeued(s.row.value).generation
  {
    hide IsBlank, Chunks, AllEntries;
    var t := s.(row := Some(Requeued(s.row.value)));
    forall v | v in t.workers
      ensures WorkerOk(t, v)
      ensures s.workers[v].generation < Requeued(s.row.value).generation
    {
      assert WorkerOk(s, v);
    }
    forall d | d in t.deletes
      ensures DeleteOk(t, d)
    {
      assert DeleteOk(s, d);
    }
  }

  lemma SizesChange(s: World, newSizes: Sizes)
    requires Inv(s) && newSizes.Allowed()
    requires s.row.Some? && s.row.value.active ==>
               && s.row.value.status == Queued
               && forall w :: w in s.workers ==> s.workers[w].generation < s.row.value.generation
    ensures Inv(s.(sizes := newSizes))
  {
    hide IsBlank, Chunks, AllEntries;
    var t := s.(sizes := newSizes);
    forall v | v in t.workers
      ensures WorkerOk(t, v)
    {
      assert WorkerOk(s, v);
    }
    forall d | d in t.deletes
      ensures DeleteOk(t, d)
    {
      assert DeleteOk(s, d);
    }
  }

  lemma DeleteAcquires(s: World, d: nat)
    requires Inv(s) && s.lock.None? && DeleteAt(s, d, Requested)
    ensures Inv(DeleteGoto(s, d, Isolating, false).(lock := Some(HeldByDelete(d))))
  {
    hide IsBlank, Chunks, AllEntries;
    var t := DeleteGoto(s, d, Isolating, false).(lock := Some(HeldByDelete(d)));
    forall v | v in t.workers
      ensures WorkerOk(t, v)
    {
      assert WorkerOk(s, v);
    }
    forall e | e in t.deletes
      ensures DeleteOk(t, e)
    {
      assert DeleteOk(s, e);
    }
  }

  /** The lock holder's row update: nobody else is in the middle of anything that depends on the status. */
  lemma HolderJudgesRow(s: World, w: nat, row: Row)
    requires Inv(s) && s.lock == Some(HeldByWorker(w)) && s.row.Some?
    requires !Mutating(s.workers[w].phase) && !Cleaning(s.workers[w].phase)
    requires s.row.value.active && s.row.value.status == Processing
    requires row.active && row.generation == s.row.value.generation && row.attempt.None?
    requires row.status == Ready || row.status == Failed
    requires ReadyOk(s.(row := Some(row)))
    ensures Inv(s.(row := Some(row)))
  {
    hide IsBlank, Chunks, AllEntries;
    var t := s.(row := Some(row));
    forall v | v in t.workers
      ensures WorkerOk(t, v)
    {
      assert WorkerOk(s, v);
    }
    forall d | d in t.deletes
      ensures DeleteOk(t, d)
    {
      assert DeleteOk(s, d);
    }
  }

  /**
   The lock holder changes the objects or the index, and its own place. Nobody else holds anything that
   depends on them; what is left to show is what the row and the holder itself promise.
   */
  lemma HolderActs(s: World, w: nat, t: World)
    requires Inv(s) && w in s.workers && s.lock == Some(HeldByWorker(w))
    requires t == s.(store := t.store, index := t.index, workers := t.workers, lock := t.lock)
    requires t.workers - {w} == s.workers - {w}
    requires if w in t.workers then WorkerOk(t, w) && (t.lock == s.lock || t.lock == None) else t.lock == None
    requires forall g :: g in t.store ==> t.store[g] in t.texts
    requires ReadyOk(t)
    requires s.row.Some? && s.row.value.Deleted() ==> Gone(t)
    ensures Inv(t)
  {
    hide IsBlank, Chunks, AllEntries, EntriesAt;
    forall v | v in t.workers
      ensures WorkerOk(t, v)
    {
      if v != w {
        assert v in t.workers - {w} && s.workers[v] == (s.workers - {w})[v];
        assert WorkerOk(s, v);
      }
    }
    forall d | d in t.deletes
      ensures DeleteOk(t, d)
    {
      assert DeleteOk(s, d);
    }
  }

  lemma HoldsTheLock(s: World, w: nat)
    requires Inv(s) && w in s.workers && InLock(s.workers[w].phase)
    ensures s.lock == Some(HeldByWorker(w)) && s.row.Some?
  {
    assert WorkerOk(s, w);
  }

  /** The holder moves to a place that promises nothing about objects or index. */
  lemma HolderSettles(s: World, w: nat, phase: Phase)
    requires Inv(s) && w in s.workers && s.lock == Some(HeldByWorker(w)) && s.row.Some?
    requires InLock(phase) && !HasText(phase)
    requires Cleaning(phase) && s.row.value.active && s.row.value.generation == s.workers[w].generation
             ==> s.row.value.status == Failed
    ensures Inv(Goto(s, w, phase))
  {
    hide Inv, IsBlank, Chunks, AllEntries, EntriesAt;
    KnownWorker(s, w);
    WorkerMoves(s, w, s.workers[w].(phase := phase), s.lock);
  }

  /** After the put, the generation's object holds the attempt's text. */
  lemma HolderHasPut(s: World, w: nat)
    requires Inv(s) && At(s, w, Putting)
    requires s.workers[w].generation in s.store && s.store[s.workers[w].generation] == s.workers[w].text
    ensures Inv(Goto(s, w, BeforeDelete))
  {
    hide Inv, IsBlank, Chunks, AllEntries, EntriesAt;
    KnownWorker(s, w);
    WorkerMoves(s, w, s.workers[w].(phase := BeforeDelete), s.lock);
  }

  lemma HolderPuts(s: World, w: nat)
    requires Inv(s) && At(s, w, Putting) && s.workers[w].generation !in s.store
    ensures Inv(s.(store := s.store[s.workers[w].generation := s.workers[w].text]))
  {
    hide Inv, IsBlank, Chunks, AllEntries, EntriesAt;
    KnownWorker(s, w);
    HolderActs(s, w, s.(store := s.store[s.workers[w].generation := s.workers[w].text]));
  }

  lemma OwnedAttemptProceeds(s: World, w: nat)
    requires Inv(s) && w in s.workers && s.lock == Some(HeldByWorker(w)) && Dispose(s, w) == Owned
    ensures At(s, w, BeforePut) ==> Inv(Goto(s, w, Putting))
    ensures At(s, w, BeforeDelete) ==> Inv(Goto(s, w, Deleting))
    ensures At(s, w, BeforeUpsert) ==> Inv(Goto(s, w, Upserting))
  {
    hide Inv, IsBlank, Chunks, AllEntries, Only, EntriesAt;
    KnownWorker(s, w);
    if At(s, w, BeforePut) {
      WorkerMoves(s, w, s.workers[w].(phase := Putting), s.lock);
    } else if At(s, w, BeforeDelete) {
      WorkerMoves(s, w, s.workers[w].(phase := Deleting), s.lock);
    } else if At(s, w, BeforeUpsert) {
      WorkerMoves(s, w, s.workers[w].(phase := Upserting), s.lock);
    }
  }

  lemma FailedRowsAreNotReady(s: World, row: Row)
    requires row.status == Failed
    ensures ReadyOk(s.(row := Some(row)))
  {
  }

  lemma ReadyDependsOnObjects(s: World, t: World)
    requires ReadyOk(s) && t.row == s.row && t.sizes == s.sizes && t.store == s.store && t.index == s.index
    ensures ReadyOk(t)
  {
  }

  lemma PublishedProjectionIsExact(s: World, w: nat)
    requires Inv(s) && At(s, w, Publishing) && s.row.Some?
    ensures var (row, published) := Completed(s.row.value, s.workers[w].generation, w);
            published ==> ReadyOk(s.(row := Some(row)))
  {
    hide IsBlank, Chunks, AllEntries;
    assert WorkerOk(s, w);
  }

  // ----- Every step -----------------------------------------------------------------------------------

  lemma DoPutSourceKeeps(s: World, fate: Fate)
    requires Inv(s)
    ensures Inv(DoPutSource(s, fate))
  {
    hide IsBlank, Chunks;
  }

  lemma DoInsertRowKeeps(s: World, fate: Fate)
    requires Inv(s)
    ensures Inv(DoInsertRow(s, fate))
  {
    hide IsBlank, Chunks;
  }

  lemma DoCompensateKeeps(s: World, removed: bool)
    requires Inv(s)
    ensures Inv(DoCompensate(s, removed))
  {
    hide IsBlank, Chunks;
  }

  lemma DoClaimKeeps(s: World, stale: bool)
    requires Inv(s)
    ensures Inv(DoClaim(s, stale))
  {
    hide IsBlank, Chunks;
  }

  lemma DoReindexKeeps(s: World, stale: bool)
    requires Inv(s)
    ensures Inv(DoReindex(s, stale))
  {
    hide Inv;
    if s.row.Some? && Reindexable(s.row.value, stale) {
      RowIsRequeued(s);
    }
  }

  lemma DoEditCollectionKeeps(s: World, newSizes: Sizes)
    requires Inv(s)
    ensures Inv(DoEditCollection(s, newSizes))
  {
    hide Inv;
    if newSizes.Allowed() && newSizes != s.sizes {
      if s.row.Some? && s.row.value.active {
        RowIsRequeued(s);
        SizesChange(s.(row := Some(Requeued(s.row.value))), newSizes);
      } else {
        SizesChange(s, newSizes);
      }
    }
  }

  lemma DoLoadKeeps(s: World, w: nat, extracted: Option<string>)
    requires Inv(s)
    ensures Inv(DoLoad(s, w, extracted))
  {
    hide Inv, IsBlank, Chunks, AllEntries;
    if At(s, w, Loading) {
      var t := DoLoad(s, w, extracted);
      KnownWorker(s, w);
      WorkerMoves(s, w, t.workers[w], s.lock);
    }
  }

  lemma DoRequestDeleteKeeps(s: World)
    requires Inv(s)
    ensures Inv(DoRequestDelete(s))
  {
    hide IsBlank, Chunks;
  }

  lemma DoAcquireKeeps(s: World, h: Holder)
    requires Inv(s)
    ensures Inv(DoAcquire(s, h))
  {
    hide Inv, IsBlank, Chunks, AllEntries, EntriesAt, SameObjects, WorkersOnly, DeletesOnly;
    match h
    case HeldByWorker(w) =>
      if s.lock.None? && (At(s, w, Arriving) || At(s, w, Failing)) {
        KnownWorker(s, w);
        WorkerMoves(s, w, s.workers[w].(phase := if At(s, w, Arriving) then BeforePut else MarkingFailed), Some(h));
      }
    case HeldByDelete(d) =>
      if s.lock.None? && DeleteAt(s, d, Requested) {
        DeleteAcquires(s, d);
      }
  }

  lemma DoCrashKeeps(s: World, h: Holder)
    requires Inv(s)
    ensures Inv(DoCrash(s, h))
  {
    hide IsBlank, Chunks;
  }

  lemma DoCheckKeeps(s: World, w: nat)
    requires Inv(s)
    ensures Inv(DoCheck(s, w))
  {
    hide Inv, WorkerOk;
    if w in s.workers && InLock(s.workers[w].phase) {
      HoldsTheLock(s, w);
      WorkerLeaves(s, w);
      if Dispose(s, w) == Obsolete {
        HolderSettles(s, w, CleaningObject);
      } else if Dispose(s, w) == Owned {
        OwnedAttemptProceeds(s, w);
      }
    }
  }

  lemma DoRaiseKeeps(s: World, w: nat)
    requires Inv(s)
    ensures Inv(DoRaise(s, w))
  {
    hide Inv, IsBlank, Chunks, AllEntries;
    if w in s.workers {
      KnownWorker(s, w);
      if s.lock == Some(HeldByWorker(w)) {
        WorkerFails(s, w);
        WorkerLeaves(s, w);
      }
    }
  }

  lemma DoPutParsedKeeps(s: World, w: nat, fate: Fate)
    requires Inv(s)
    ensures Inv(DoPutParsed(s, w, fate))
  {
    hide Inv, WorkerOk;
    if At(s, w, Putting) {
      HoldsTheLock(s, w);
      WorkerFails(s, w);
      var gen := s.workers[w].generation;
      if gen !in s.store {
        HolderPuts(s, w);
        var put := s.(store := s.store[gen := s.workers[w].text]);
        HolderHasPut(put, w);
        WorkerFails(put, w);
      } else if s.store[gen] == s.workers[w].text {
        HolderHasPut(s, w);
      }
    }
  }

  lemma DoDeleteGenerationKeeps(s: World, w: nat, fate: Fate, kept: set<nat>)
    requires Inv(s)
    ensures Inv(DoDeleteGeneration(s, w, fate, kept))
  {
    hide Inv, IsBlank, Chunks, AllEntries, Only;
    if At(s, w, Deleting) {
      KnownWorker(s, w);
      HolderActs(s, w, DoDeleteGeneration(s, w, fate, kept));
    }
  }

  lemma DoUpsertKeeps(s: World, w: nat, fate: Fate, applied: set<nat>)
    requires Inv(s)
    ensures Inv(DoUpsert(s, w, fate, applied))
  {
    hide Inv, IsBlank, Chunks, AllEntries, Only;
    if At(s, w, Upserting) {
      KnownWorker(s, w);
      HolderActs(s, w, DoUpsert(s, w, fate, applied));
    }
  }

  lemma DoCompleteKeeps(s: World, w: nat, fate: Fate)
    requires Inv(s)
    ensures Inv(DoComplete(s, w, fate))
  {
    hide Inv, WorkerOk, ReadyOk;
    if At(s, w, Publishing) && s.row.Some? {
      HoldsTheLock(s, w);
      WorkerFails(s, w);
      HolderSettles(s, w, Judging(false));
      HolderSettles(s, w, Published);
      var (row, published) := Completed(s.row.value, s.workers[w].generation, w);
      if published {
        PublishedProjectionIsExact(s, w);
        var after := Goto(s, w, Published).(row := Some(row));
        ReadyDependsOnObjects(s.(row := Some(row)), after);
        HolderJudgesRow(Goto(s, w, Published), w, row);
        WorkerFails(after, w);
        assert after == Goto(s.(row := Some(row)), w, Published);
        assert Fail(after, w) == Fail(s.(row := Some(row)), w);
      } else {
        assert s.(row := Some(row)) == s;
      }
    }
  }

  lemma DoCheckPublishedKeeps(s: World, w: nat)
    requires Inv(s)
    ensures Inv(DoCheckPublished(s, w))
  {
    hide Inv, WorkerOk, ReadyOk;
    if At(s, w, Published) {
      HoldsTheLock(s, w);
      HolderSettles(s, w, CleaningOld);
      WorkerLeaves(s, w);
    }
  }

  lemma DoCleanOldObjectKeeps(s: World, w: nat, gen: nat)
    requires Inv(s)
    ensures Inv(DoCleanOldObject(s, w, gen))
  {
    hide Inv, IsBlank, Chunks, AllEntries, Only;
    if At(s, w, CleaningOld) {
      KnownWorker(s, w);
      HolderActs(s, w, DoCleanOldObject(s, w, gen));
    }
  }

  lemma DoCleanOldIndexKeeps(s: World, w: nat, kept: map<nat, set<nat>>)
    requires Inv(s)
    ensures Inv(DoCleanOldIndex(s, w, kept))
  {
    hide Inv, IsBlank, Chunks, AllEntries;
    if At(s, w, CleaningOld) {
      KnownWorker(s, w);
      HolderActs(s, w, DoCleanOldIndex(s, w, kept));
    }
  }

  lemma DoCleanStaleObjectKeeps(s: World, w: nat, removed: bool)
    requires Inv(s)
    ensures Inv(DoCleanStaleObject(s, w, removed))
  {
    hide Inv, IsBlank, Chunks, AllEntries, Only;
    if At(s, w, CleaningObject) {
      KnownWorker(s, w);
      HolderActs(s, w, DoCleanStaleObject(s, w, removed));
    }
  }

  lemma DoCleanStaleIndexKeeps(s: World, w: nat, kept: set<nat>)
    requires Inv(s)
    ensures Inv(DoCleanStaleIndex(s, w, kept))
  {
    hide Inv, IsBlank, Chunks, AllEntries;
    if At(s, w, CleaningIndex) {
      KnownWorker(s, w);
      HolderActs(s, w, DoCleanStaleIndex(s, w, kept));
    }
  }

  lemma DoMarkFailedKeeps(s: World, w: nat, fate: Fate)
    requires Inv(s)
    ensures Inv(DoMarkFailed(s, w, fate))
  {
    hide Inv, WorkerOk, ReadyOk;
    if At(s, w, MarkingFailed) {
      HoldsTheLock(s, w);
      var (row, marked) := FailedBy(s.row.value, s.workers[w].generation, w);
      WorkerLeaves(s, w);
      HolderSettles(s, w, Judging(true));
      if marked {
        FailedRowsAreNotReady(s, row);
        HolderJudgesRow(s, w, row);
        var after := s.(row := Some(row));
        HolderSettles(after, w, CleaningObject);
        WorkerLeaves(after, w);
      } else {
        assert s.(row := Some(row)) == s;
      }
    }
  }

  /** An attempt that holds no lock does not mind that the row is deactivated. */
  lemma WorkerBesideIsolation(s: World, t: World, w: nat, d: nat)
    requires w in s.workers && WorkerOk(s, w) && s.lock == Some(HeldByDelete(d)) && s.row.Some?
    requires t.row == s.row || t.row == Some(CleanupBegun(s.row.value, d))
    requires t.lock == s.lock || t.lock == None
    requires t.workers == s.workers && t.next == s.next && t.sizes == s.sizes && t.texts == s.texts && SameObjects(s, t)
    ensures WorkerOk(t, w)
  {
    hide IsBlank, AllEntries, EntriesAt;
  }

  lemma RowIsolatedKeeps(s: World, d: nat)
    requires Inv(s) && DeleteAt(s, d, Isolating) && s.row.Some?
    ensures Inv(s.(row := Some(CleanupBegun(s.row.value, d))))
  {
    hide IsBlank, AllEntries, EntriesAt, WorkerOk;
    var t := s.(row := Some(CleanupBegun(s.row.value, d)));
    assert DeleteOk(s, d);
    forall w | w in s.workers
      ensures WorkerOk(t, w)
    {
      WorkerBesideIsolation(s, t, w, d);
    }
    forall other | other in s.deletes
      ensures DeleteOk(t, other)
    {
      assert DeleteOk(s, other);
    }
  }

  lemma DeleteLeaveKeeps(s: World, d: nat)
    requires Inv(s) && d in s.deletes && !s.deletes[d].phase.Requested?
    ensures Inv(DeleteLeave(s, d))
  {
    hide IsBlank, AllEntries, EntriesAt, WorkerOk;
    var t := DeleteLeave(s, d);
    assert DeleteOk(s, d);
    forall w | w in s.workers
      ensures WorkerOk(t, w)
    {
      WorkerHasRow(s, w);
      WorkerBesideIsolation(s, t, w, d);
    }
    forall other | other in t.deletes
      ensures DeleteOk(t, other)
    {
      assert DeleteOk(s, other);
    }
  }

  lemma DeleteStartsDropping(s: World, d: nat)
    requires Inv(s) && DeleteAt(s, d, Isolating) && s.row.Some? && !s.row.value.active
    requires s.row.value.cleanup == Some(d)
    ensures Inv(DeleteGoto(s, d, DroppingIndex, false))
  {
    hide IsBlank, AllEntries, EntriesAt, WorkerOk;
    var t := DeleteGoto(s, d, DroppingIndex, false);
    assert DeleteOk(s, d);
    forall w | w in s.workers
      ensures WorkerOk(t, w)
    {
      WorkerBesideIsolation(s, t, w, d);
    }
    forall other | other in t.deletes
      ensures DeleteOk(t, other)
    {
      assert DeleteOk(s, other);
    }
  }

  lemma DoIsolateKeeps(s: World, d: nat, refused: bool, fate: Fate)
    requires Inv(s)
    ensures Inv(DoIsolate(s, d, refused, fate))
  {
    hide Inv, DeleteLeave, DeleteGoto;
    if DeleteAt(s, d, Isolating) {
      if s.row.None? || (s.row.value.active && refused) || fate == RaisedBefore {
        DeleteLeaveKeeps(s, d);
      } else {
        var isolated := s.(row := Some(CleanupBegun(s.row.value, d)));
        RowIsolatedKeeps(s, d);
        if fate == Returned {
          DeleteStartsDropping(isolated, d);
        } else {
          DeleteLeaveKeeps(isolated, d);
        }
      }
    }
  }

  lemma WorkerHasRow(s: World, w: nat)
    requires w in s.workers && WorkerOk(s, w)
    ensures s.row.Some?
  {
    hide IsBlank, AllEntries, EntriesAt;
  }

  lemma DoDropIndexKeeps(s: World, d: nat, failed: bool, keptGenerations: map<nat, set<nat>>)
    requires Inv(s)
    ensures Inv(DoDropIndex(s, d, failed, keptGenerations))
  {
    hide IsBlank, Chunks;
  }

  lemma DoListObjectsKeeps(s: World, d: nat, failed: bool)
    requires Inv(s)
    ensures Inv(DoListObjects(s, d, failed))
  {
    hide IsBlank, Chunks;
  }

  lemma DoRemoveObjectKeeps(s: World, d: nat, gen: nat, removed: bool, failed: bool)
    requires Inv(s)
    ensures Inv(DoRemoveObject(s, d, gen, removed, failed))
  {
    hide IsBlank, Chunks;
  }

  lemma DoRemovedAllKeeps(s: World, d: nat)
    requires Inv(s)
    ensures Inv(DoRemovedAll(s, d))
  {
    hide IsBlank, Chunks;
  }

  lemma DoRemoveSourceKeeps(s: World, d: nat, removed: bool, failed: bool)
    requires Inv(s)
    ensures Inv(DoRemoveSource(s, d, removed, failed))
  {
    hide IsBlank, Chunks;
  }

  lemma DoFinishKeeps(s: World, d: nat, fate: Fate)
    requires Inv(s)
    ensures Inv(DoFinish(s, d, fate))
  {
    hide IsBlank, Chunks;
  }

  // ----- All of them ---------------------------------------------------------------------------------

  lemma StartIsSafe(s: World)
    requires Start(s)
    ensures Inv(s)
  {
  }

  predicate IsUnlockedStep(step: Step) {
    step.PutSource? || step.InsertRow? || step.Compensate? || step.Claim? || step.Reindex? || step.EditCollection?
    || step.Load? || step.RequestDelete? || step.Acquire? || step.Crash?
  }

  predicate IsWorkerStep(step: Step) {
    step.Check? || step.Raise? || step.PutParsed? || step.DeleteGeneration? || step.Upsert? || step.Complete?
    || step.CheckPublished? || step.CleanOldObject? || step.CleanOldIndex? || step.CleanStaleObject?
    || step.CleanStaleIndex? || step.MarkFailed?
  }

  predicate IsRowStep(step: Step) {
    step.PutSource? || step.InsertRow? || step.Compensate? || step.Claim? || step.Reindex? || step.EditCollection?
  }

  lemma RowStepKeeps(s: World, step: Step)
    requires Inv(s) && IsRowStep(step)
    ensures Inv(Apply(s, step))
  {
    hide Inv, DoPutSource, DoInsertRow, DoCompensate, DoClaim, DoReindex, DoEditCollection, RowGoesForward, SameObjects,
      NobodyMoves;
    match step
    case PutSource(fate) => DoPutSourceKeeps(s, fate);
    case InsertRow(fate) => DoInsertRowKeeps(s, fate);
    case Compensate(removed) => DoCompensateKeeps(s, removed);
    case Claim(stale) => DoClaimKeeps(s, stale);
    case Reindex(stale) => DoReindexKeeps(s, stale);
    case EditCollection(newSizes) => DoEditCollectionKeeps(s, newSizes);
    case _ =>
  }

  lemma UnlockedStepKeeps(s: World, step: Step)
    requires Inv(s) && IsUnlockedStep(step) && !IsRowStep(step)
    ensures Inv(Apply(s, step))
  {
    hide Inv, DoLoad, DoRequestDelete, DoAcquire, DoCrash, SameObjects, WorkersOnly, HolderOnly;
    match step
    case Load(w, extracted) => DoLoadKeeps(s, w, extracted);
    case RequestDelete => DoRequestDeleteKeeps(s);
    case Acquire(h) => DoAcquireKeeps(s, h);
    case Crash(h) => DoCrashKeeps(s, h);
    case _ =>
  }

  predicate IsBuildStep(step: Step) {
    step.Check? || step.Raise? || step.PutParsed? || step.DeleteGeneration? || step.Upsert? || step.Complete?
  }

  lemma BuildStepKeeps(s: World, step: Step)
    requires Inv(s) && IsBuildStep(step)
    ensures Inv(Apply(s, step))
  {
    hide Inv, DoCheck, DoRaise, DoPutParsed, DoDeleteGeneration, DoUpsert, DoComplete, RowGoesForward, SameObjects,
      OnlyOwnProjection, WorkersOnly;
    match step
    case Check(w) => DoCheckKeeps(s, w);
    case Raise(w) => DoRaiseKeeps(s, w);
    case PutParsed(w, fate) => DoPutParsedKeeps(s, w, fate);
    case DeleteGeneration(w, fate, kept) => DoDeleteGenerationKeeps(s, w, fate, kept);
    case Upsert(w, fate, applied) => DoUpsertKeeps(s, w, fate, applied);
    case Complete(w, fate) => DoCompleteKeeps(s, w, fate);
    case _ =>
  }

  lemma CleanupStepKeeps(s: World, step: Step)
    requires Inv(s) && IsWorkerStep(step) && !IsBuildStep(step)
    ensures Inv(Apply(s, step))
  {
    hide Inv, DoCheckPublished, DoCleanOldObject, DoCleanOldIndex, DoCleanStaleObject, DoCleanStaleIndex, DoMarkFailed,
      RowGoesForward, SameObjects, OnlyOwnProjection, OnlyOlderProjections, WorkersOnly;
    match step
    case CheckPublished(w) => DoCheckPublishedKeeps(s, w);
    case CleanOldObject(w, gen) => DoCleanOldObjectKeeps(s, w, gen);
    case CleanOldIndex(w, kept) => DoCleanOldIndexKeeps(s, w, kept);
    case CleanStaleObject(w, removed) => DoCleanStaleObjectKeeps(s, w, removed);
    case CleanStaleIndex(w, kept) => DoCleanStaleIndexKeeps(s, w, kept);
    case MarkFailed(w, fate) => DoMarkFailedKeeps(s, w, fate);
    case _ =>
  }

  lemma DeleteStepKeeps(s: World, step: Step)
    requires Inv(s) && !IsUnlockedStep(step) && !IsWorkerStep(step)
    ensures Inv(Apply(s, step))
  {
    hide Inv, DoIsolate, DoDropIndex, DoListObjects, DoRemoveObject, DoRemovedAll, DoRemoveSource, DoFinish,
      RowGoesForward, SameObjects, DeletesOnly;
    match step
    case Isolate(d, refused, fate) => DoIsolateKeeps(s, d, refused, fate);
    case DropIndex(d, failed, kept) => DoDropIndexKeeps(s, d, failed, kept);
    case ListObjects(d, failed) => DoListObjectsKeeps(s, d, failed);
    case RemoveObject(d, gen, removed, failed) => DoRemoveObjectKeeps(s, d, gen, removed, failed);
    case RemovedAll(d) => DoRemovedAllKeeps(s, d);
    case RemoveSource(d, removed, failed) => DoRemoveSourceKeeps(s, d, removed, failed);
    case Finish(d, fate) => DoFinishKeeps(s, d, fate);
    case _ =>
  }

  lemma StepKeeps(s: World, step: Step)
    requires Inv(s)
    ensures Inv(Apply(s, step))
  {
    hide Inv, Apply;
    if IsRowStep(step) {
      RowStepKeeps(s, step);
    } else if IsUnlockedStep(step) {
      UnlockedStepKeeps(s, step);
    } else if IsBuildStep(step) {
      BuildStepKeeps(s, step);
    } else if IsWorkerStep(step) {
      CleanupStepKeeps(s, step);
    } else {
      DeleteStepKeeps(s, step);
    }
  }

  lemma {:induction false} RunKeeps(s: World, steps: seq<Step>)
    requires Inv(s)
    ensures Inv(Run(s, steps))
    decreases |steps|
  {
    hide Inv;
    if steps != [] {
      StepKeeps(s, steps[0]);
      RunKeeps(Apply(s, steps[0]), steps[1..]);
    }
  }
}
