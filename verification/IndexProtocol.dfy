/**
 The indexing protocol of one Knowledge Document: claims, takeovers, re-index requests, collection edits,
 deletes, partial failures of every external call, and crashes, interleaved in any order.

 Each database transaction and each call to the object store or the retriever is one step. A call that
 raises may have been applied, not applied, or (for the retriever) applied in part.
 */
module IndexProtocol {
  import opened Outcomes
  import opened DocumentRow
  import opened Texts
  import opened Chunking

  // ----- The shared world ----------------------------------------------------------------------------

  /** The retriever's entries of one generation, by chunk index. */
  type Entries = map<nat, Chunk>

  datatype Holder = HeldByWorker(worker: nat) | HeldByDelete(request: nat)

  /** Where `run_once` is, between two steps. From `BeforePut` on, except in `Failing`, it holds the lock. */
  datatype Phase =
    | Loading                          // claimed; about to read, extract and chunk the source
    | Arriving                         // chunks made; about to take the document lock
    | BeforePut | Putting              // about to check the claim; about to put the parsed object
    | BeforeDelete | Deleting          // ... to delete the generation from the index
    | BeforeUpsert | Upserting         // ... to upsert the chunks
    | Publishing                       // about to complete the generation
    | Published                        // about to re-read the row before cleaning old generations
    | CleaningOld                      // deleting what older generations left
    | Judging(afterFailure: bool)      // about to check whether the claim is obsolete
    | CleaningObject | CleaningIndex   // deleting what this attempt left
    | Failing                          // an exception was raised; about to take the lock again
    | MarkingFailed                    // about to fail the generation

  /** One `run_once`, known by its processing attempt id. */
  datatype Worker = Worker(generation: nat, sizes: Sizes, text: string, phase: Phase)

  datatype DeletePhase =
    | Requested                        // about to take the document lock
    | Isolating                        // about to deactivate the row
    | DroppingIndex                    // about to delete the document from the index
    | Listing                          // about to list the parsed objects
    | Removing(keys: set<nat>)         // deleting the listed parsed objects
    | RemovingSource                   // about to delete the source object
    | Finishing                        // about to clear or to record the cleanup error

  /** One delete request, known by its cleanup attempt id. */
  datatype Delete = Delete(phase: DeletePhase, errors: bool)

  datatype Upload = NotStarted | SourcePut | Uploaded | Compensating

  datatype World = World(
    row: Option<Row>,
    sizes: Sizes,                      // the collection's current chunk configuration
    source: bool,                      // whether the source object exists
    store: map<nat, string>,           // the parsed objects, by generation
    index: map<nat, Entries>,
    lock: Option<Holder>,
    workers: map<nat, Worker>,
    deletes: map<nat, Delete>,
    upload: Upload,
    next: nat,                         // attempt ids below this one have been used
    texts: set<string>)                // what extraction may yield from the source bytes

  predicate Start(s: World) {
    && s.row.None? && s.sizes.Allowed() && !s.source && s.store == map[] && s.index == map[]
    && s.lock.None? && s.workers == map[] && s.deletes == map[] && s.upload == NotStarted
  }

  function EntriesAt(index: map<nat, Entries>, gen: nat): Entries {
    if gen in index then index[gen] else map[]
  }

  function AllEntries(text: string, sizes: Sizes): Entries
    requires sizes.Allowed()
  {
    var chunks := Chunks(text, sizes);
    map i: nat | i < |chunks| :: chunks[i]
  }

  function Only(entries: Entries, kept: set<nat>): Entries {
    map i | i in entries && i in kept :: entries[i]
  }

  // ----- Steps ---------------------------------------------------------------------------------------

  /** What became of a call: it returned; it raised and changed nothing; or it raised after taking effect. */
  datatype Fate = Returned | RaisedBefore | RaisedAfter

  datatype Step =
    // the upload request
    | PutSource(fate: Fate)
    | InsertRow(fate: Fate)
    | Compensate(removed: bool)
    // steps that do not hold the document lock
    | Claim(stale: bool)
    | Reindex(stale: bool)
    | EditCollection(newSizes: Sizes)
    | Load(worker: nat, extracted: Option<string>)
    | RequestDelete
    | Acquire(holder: Holder)
    | Crash(holder: Holder)
    // the worker, holding the lock
    | Check(worker: nat)
    | Raise(worker: nat)
    | PutParsed(worker: nat, fate: Fate)
    | DeleteGeneration(worker: nat, fate: Fate, kept: set<nat>)
    | Upsert(worker: nat, fate: Fate, applied: set<nat>)
    | Complete(worker: nat, fate: Fate)
    | CheckPublished(worker: nat)
    | CleanOldObject(worker: nat, gen: nat)
    | CleanOldIndex(worker: nat, keptGenerations: map<nat, set<nat>>)
    | CleanStaleObject(worker: nat, removed: bool)
    | CleanStaleIndex(worker: nat, kept: set<nat>)
    | MarkFailed(worker: nat, fate: Fate)
    // the delete request, holding the lock
    | Isolate(request: nat, refused: bool, fate: Fate)
    | DropIndex(request: nat, failed: bool, keptGenerations: map<nat, set<nat>>)
    | ListObjects(request: nat, failed: bool)
    | RemoveObject(request: nat, gen: nat, removed: bool, failed: bool)
    | RemovedAll(request: nat)
    | RemoveSource(request: nat, removed: bool, failed: bool)
    | Finish(request: nat, fate: Fate)

  predicate At(s: World, w: nat, phase: Phase) {
    w in s.workers && s.workers[w].phase == phase
  }

  function Goto(s: World, w: nat, phase: Phase): World
    requires w in s.workers
  {
    s.(workers := s.workers[w := s.workers[w].(phase := phase)])
  }

  /** `run_once` returns or its exception leaves it. */
  function Leave(s: World, w: nat): World {
    s.(workers := s.workers - {w}, lock := None)
  }

  /** An exception leaves the locked block; the handler will take the lock again. */
  function Fail(s: World, w: nat): World
    requires w in s.workers
  {
    Goto(s, w, Failing).(lock := None)
  }

  predicate DeleteAt(s: World, d: nat, phase: DeletePhase) {
    d in s.deletes && s.deletes[d].phase == phase
  }

  function DeleteGoto(s: World, d: nat, phase: DeletePhase, failed: bool): World
    requires d in s.deletes
  {
    s.(deletes := s.deletes[d := Delete(phase, s.deletes[d].errors || failed)])
  }

  function DeleteLeave(s: World, d: nat): World {
    s.(deletes := s.deletes - {d}, lock := None)
  }

  /** The step leaves source object, parsed objects and index as they were. */
  ghost predicate SameObjects(s: World, t: World) {
    t.source == s.source && t.store == s.store && t.index == s.index
  }

  /** Generation `gen` has the same parsed object and the same entries. */
  ghost predicate SameProjection(s: World, t: World, gen: nat) {
    && (gen in s.store <==> gen in t.store)
    && (gen in s.store ==> s.store[gen] == t.store[gen])
    && EntriesAt(s.index, gen) == EntriesAt(t.index, gen)
  }

  /** The step of attempt `w`, when it is taken, changes no other generation's projection. */
  ghost predicate OnlyOwnProjection(s: World, t: World, w: nat) {
    w in s.workers ==> forall g :: g != s.workers[w].generation ==> SameProjection(s, t, g)
  }

  ghost predicate OnlyOlderProjections(s: World, t: World, w: nat) {
    w in s.workers ==> forall g :: g >= s.workers[w].generation ==> SameProjection(s, t, g)
  }

  ghost predicate RowGoesForward(s: World, t: World) {
    s.row.Some? ==> t.row.Some? && Forward(s.row.value, t.row.value)
  }

  /** Only attempt `w` may have changed, but not its generation, or ended. */
  ghost predicate WorkersOnly(s: World, t: World, w: nat) {
    && t.next == s.next && t.deletes == s.deletes && t.upload == s.upload
    && (t.workers == s.workers || t.workers == s.workers - {w}
        || (w in s.workers && w in t.workers && t.workers[w].generation == s.workers[w].generation
            && t.workers == s.workers[w := t.workers[w]]))
  }

  ghost predicate DeletesOnly(s: World, t: World, d: nat) {
    && t.next == s.next && t.workers == s.workers && t.upload == s.upload
    && (t.deletes == s.deletes || t.deletes == s.deletes - {d}
        || (d in t.deletes && t.deletes == s.deletes[d := t.deletes[d]]))
  }

  ghost predicate HolderOnly(s: World, t: World, h: Holder) {
    match h
    case HeldByWorker(w) => WorkersOnly(s, t, w)
    case HeldByDelete(d) => DeletesOnly(s, t, d)
  }

  ghost predicate NobodyMoves(s: World, t: World) {
    t.next == s.next && t.workers == s.workers && t.deletes == s.deletes
  }

  // ----- The upload ----------------------------------------------------------------------------------

  function DoPutSource(s: World, fate: Fate): (t: World)
    ensures NobodyMoves(s, t)
    ensures t.row == s.row
    ensures t.store == s.store && t.index == s.index
  {
    if s.upload != NotStarted then s
    else
      match fate
      case Returned => s.(source := true, upload := SourcePut)
      case RaisedBefore => s.(upload := Compensating)
      case RaisedAfter => s.(source := true, upload := Compensating)
  }

  function DoInsertRow(s: World, fate: Fate): (t: World)
    ensures NobodyMoves(s, t)
    ensures SameObjects(s, t)
    ensures s.upload != SourcePut ==> t.row == s.row
  {
    if s.upload != SourcePut then s
    else
      match fate
      case Returned => s.(row := Some(NEW_ROW), upload := Uploaded)
      case RaisedBefore => s.(upload := Compensating)
      case RaisedAfter => s.(row := Some(NEW_ROW), upload := Compensating)
  }

  function DoCompensate(s: World, removed: bool): (t: World)
    ensures NobodyMoves(s, t)
    ensures t.row == s.row
    ensures t.store == s.store && t.index == s.index
    ensures !s.source ==> !t.source
  {
    if s.upload != Compensating then s else s.(source := s.source && !removed, upload := Uploaded)
  }

  // ----- Without the lock ----------------------------------------------------------------------------

  function DoClaim(s: World, stale: bool): (t: World)
    ensures RowGoesForward(s, t)
    ensures SameObjects(s, t)
  {
    if s.row.None? || !Claimable(s.row.value, stale) then s
    else
      s.(row := Some(Claimed(s.row.value, s.next)),
         workers := s.workers[s.next := Worker(s.row.value.generation, s.sizes, "", Loading)],
         next := s.next + 1)
  }

  function DoReindex(s: World, stale: bool): (t: World)
    ensures NobodyMoves(s, t)
    ensures RowGoesForward(s, t)
    ensures SameObjects(s, t)
  {
    if s.row.None? || !Reindexable(s.row.value, stale) then s else s.(row := Some(Requeued(s.row.value)))
  }

  /** The new configuration and the bump of every active document are one transaction. */
  function DoEditCollection(s: World, newSizes: Sizes): (t: World)
    ensures NobodyMoves(s, t)
    ensures RowGoesForward(s, t)
    ensures SameObjects(s, t)
  {
    if !newSizes.Allowed() || newSizes == s.sizes then s
    else if s.row.Some? && s.row.value.active then s.(sizes := newSizes, row := Some(Requeued(s.row.value)))
    else s.(sizes := newSizes)
  }

  function DoLoad(s: World, w: nat, extracted: Option<string>): (t: World)
    ensures WorkersOnly(s, t, w)
    ensures t.row == s.row
    ensures SameObjects(s, t)
  {
    if !At(s, w, Loading) then s
    else if extracted.Some? && extracted.value in s.texts && !IsBlank(extracted.value) && s.source
    then s.(workers := s.workers[w := s.workers[w].(text := extracted.value, phase := Arriving)])
    else Goto(s, w, Failing)
  }

  function DoRequestDelete(s: World): (t: World)
    ensures t.row == s.row
    ensures SameObjects(s, t)
  {
    s.(deletes := s.deletes[s.next := Delete(Requested, false)], next := s.next + 1)
  }

  function DoAcquire(s: World, h: Holder): (t: World)
    ensures HolderOnly(s, t, h)
    ensures t.row == s.row
    ensures SameObjects(s, t)
  {
    if s.lock.Some? then s
    else
      match h
      case HeldByWorker(w) =>
        if At(s, w, Arriving) then Goto(s, w, BeforePut).(lock := Some(h))
        else if At(s, w, Failing) then Goto(s, w, MarkingFailed).(lock := Some(h))
        else s
      case HeldByDelete(d) =>
        if DeleteAt(s, d, Requested) then DeleteGoto(s, d, Isolating, false).(lock := Some(h)) else s
  }

  /** Whoever it was stops here for good; a lock it held is free again. */
  function DoCrash(s: World, h: Holder): (t: World)
    ensures HolderOnly(s, t, h)
    ensures t.row == s.row
    ensures SameObjects(s, t)
  {
    var lock := if s.lock == Some(h) then None else s.lock;
    match h
    case HeldByWorker(w) => s.(workers := s.workers - {w}, lock := lock)
    case HeldByDelete(d) => s.(deletes := s.deletes - {d}, lock := lock)
  }

  // ----- The worker, with the lock -------------------------------------------------------------------

  function Dispose(s: World, w: nat): Disposition
    requires w in s.workers
  {
    Judge(s.row, s.workers[w].generation, w)
  }

  /** `_prepare_for_mutation`, and the obsolescence checks that end an attempt. */
  function DoCheck(s: World, w: nat): (t: World)
    ensures WorkersOnly(s, t, w)
    ensures t.row == s.row
    ensures SameObjects(s, t)
  {
    if w !in s.workers then s
    else
      var verdict := Dispose(s, w);
      match s.workers[w].phase
      case BeforePut =>
        if verdict == Owned then Goto(s, w, Putting)
        else if verdict == Obsolete then Goto(s, w, CleaningObject)
        else Leave(s, w)
      case BeforeDelete =>
        if verdict == Owned then Goto(s, w, Deleting)
        else if verdict == Obsolete then Goto(s, w, CleaningObject)
        else Leave(s, w)
      case BeforeUpsert =>
        if verdict == Owned then Goto(s, w, Upserting)
        else if verdict == Obsolete then Goto(s, w, CleaningObject)
        else Leave(s, w)
      case Judging(_) => if verdict == Obsolete then Goto(s, w, CleaningObject) else Leave(s, w)
      case _ => s
  }

  /** A database read that raises: the handler runs, except that an exception in the handler ends the run. */
  function DoRaise(s: World, w: nat): (t: World)
    ensures WorkersOnly(s, t, w)
    ensures t.row == s.row
    ensures SameObjects(s, t)
  {
    if w !in s.workers then s
    else
      match s.workers[w].phase
      case BeforePut => Fail(s, w)
      case BeforeDelete => Fail(s, w)
      case BeforeUpsert => Fail(s, w)
      case Published => Fail(s, w)
      case Judging(afterFailure) => if afterFailure then Leave(s, w) else Fail(s, w)
      case _ => s
  }

  /** `_put_parsed_idempotently`: an existing object is accepted only if it holds the same text. */
  function DoPutParsed(s: World, w: nat, fate: Fate): (t: World)
    ensures WorkersOnly(s, t, w)
    ensures if At(s, w, Putting) then OnlyOwnProjection(s, t, w) else t == s
    ensures t.row == s.row
    ensures t.source == s.source
  {
    if !At(s, w, Putting) then s
    else
      var gen, text := s.workers[w].generation, s.workers[w].text;
      if fate == RaisedBefore then Fail(s, w)
      else if gen !in s.store then
        var put := s.(store := s.store[gen := text]);
        if fate == Returned then Goto(put, w, BeforeDelete) else Fail(put, w)
      else if s.store[gen] == text && fate == Returned then Goto(s, w, BeforeDelete)
      else Fail(s, w)
  }

  function DoDeleteGeneration(s: World, w: nat, fate: Fate, kept: set<nat>): (t: World)
    ensures WorkersOnly(s, t, w)
    ensures if At(s, w, Deleting) then OnlyOwnProjection(s, t, w) else t == s
    ensures t.row == s.row
    ensures t.source == s.source
  {
    if !At(s, w, Deleting) then s
    else
      var gen := s.workers[w].generation;
      if fate == Returned then Goto(s.(index := s.index - {gen}), w, BeforeUpsert)
      else Fail(s.(index := s.index[gen := Only(EntriesAt(s.index, gen), kept)]), w)
  }

  function DoUpsert(s: World, w: nat, fate: Fate, applied: set<nat>): (t: World)
    ensures WorkersOnly(s, t, w)
    ensures if At(s, w, Upserting) then OnlyOwnProjection(s, t, w) else t == s
    ensures t.row == s.row
    ensures t.source == s.source
  {
    if !At(s, w, Upserting) || !s.workers[w].sizes.Allowed() then s
    else
      var gen := s.workers[w].generation;
      var entries := AllEntries(s.workers[w].text, s.workers[w].sizes);
      if fate == Returned
      then Goto(s.(index := s.index[gen := EntriesAt(s.index, gen) + entries]), w, Publishing)
      else Fail(s.(index := s.index[gen := EntriesAt(s.index, gen) + Only(entries, applied)]), w)
  }

  function DoComplete(s: World, w: nat, fate: Fate): (t: World)
    ensures WorkersOnly(s, t, w)
    ensures RowGoesForward(s, t)
    ensures SameObjects(s, t)
  {
    if !At(s, w, Publishing) || s.row.None? then s
    else
      var (row, published) := Completed(s.row.value, s.workers[w].generation, w);
      match fate
      case Returned =>
        if published then Goto(s.(row := Some(row)), w, Published) else Goto(s, w, Judging(false))
      case RaisedBefore => Fail(s, w)
      case RaisedAfter => Fail(s.(row := Some(row)), w)
  }

  function DoCheckPublished(s: World, w: nat): (t: World)
    ensures WorkersOnly(s, t, w)
    ensures t.row == s.row
    ensures SameObjects(s, t)
  {
    if !At(s, w, Published) then s
    else
      var gen := s.workers[w].generation;
      if s.row.Some? && s.row.value.Ready() && s.row.value.generation == gen && s.row.value.parsed == Some(gen)
      then Goto(s, w, CleaningOld)
      else Leave(s, w)
  }

  /** One listed parsed object of an older generation is deleted; others may be left behind. */
  function DoCleanOldObject(s: World, w: nat, gen: nat): (t: World)
    ensures WorkersOnly(s, t, w)
    ensures if At(s, w, CleaningOld) then OnlyOlderProjections(s, t, w) else t == s
    ensures t.row == s.row
    ensures t.source == s.source
  {
    if !At(s, w, CleaningOld) || gen >= s.workers[w].generation then s else s.(store := s.store - {gen})
  }

  /** The entries of older generations go, or some of them do; the attempt then ends. */
  function DoCleanOldIndex(s: World, w: nat, kept: map<nat, set<nat>>): (t: World)
    ensures WorkersOnly(s, t, w)
    ensures if At(s, w, CleaningOld) then OnlyOlderProjections(s, t, w) else t == s
    ensures t.row == s.row
    ensures t.source == s.source
  {
    if !At(s, w, CleaningOld) then s
    else
      var gen := s.workers[w].generation;
      Leave(s.(index := map g | g in s.index ::
                 if g >= gen then s.index[g] else if g in kept then Only(s.index[g], kept[g]) else map[]), w)
  }

  function DoCleanStaleObject(s: World, w: nat, removed: bool): (t: World)
    ensures WorkersOnly(s, t, w)
    ensures if At(s, w, CleaningObject) then OnlyOwnProjection(s, t, w) else t == s
    ensures t.row == s.row
    ensures t.source == s.source
  {
    if !At(s, w, CleaningObject) then s
    else
      var gen := s.workers[w].generation;
      Goto(if removed then s.(store := s.store - {gen}) else s, w, CleaningIndex)
  }

  function DoCleanStaleIndex(s: World, w: nat, kept: set<nat>): (t: World)
    ensures WorkersOnly(s, t, w)
    ensures if At(s, w, CleaningIndex) then OnlyOwnProjection(s, t, w) else t == s
    ensures t.row == s.row
    ensures t.source == s.source
  {
    if !At(s, w, CleaningIndex) then s
    else
      var gen := s.workers[w].generation;
      Leave(s.(index := s.index[gen := Only(EntriesAt(s.index, gen), kept)]), w)
  }

  function DoMarkFailed(s: World, w: nat, fate: Fate): (t: World)
    ensures WorkersOnly(s, t, w)
    ensures RowGoesForward(s, t)
    ensures SameObjects(s, t)
  {
    if !At(s, w, MarkingFailed) || s.row.None? then s
    else
      var (row, marked) := FailedBy(s.row.value, s.workers[w].generation, w);
      match fate
      case Returned =>
        if marked then Goto(s.(row := Some(row)), w, CleaningObject) else Goto(s, w, Judging(true))
      case RaisedBefore => Leave(s, w)
      case RaisedAfter => Leave(s.(row := Some(row)), w)
  }

  // ----- The delete request, with the lock -----------------------------------------------------------

  /** `refused`: an active Agent names the document. An inactive row may be isolated again. */
  function DoIsolate(s: World, d: nat, refused: bool, fate: Fate): (t: World)
    ensures DeletesOnly(s, t, d)
    ensures RowGoesForward(s, t)
    ensures SameObjects(s, t)
  {
    if !DeleteAt(s, d, Isolating) then s
    else if s.row.None? || (s.row.value.active && refused) || fate == RaisedBefore then DeleteLeave(s, d)
    else
      var isolated := s.(row := Some(CleanupBegun(s.row.value, d)));
      if fate == Returned then DeleteGoto(isolated, d, DroppingIndex, false) else DeleteLeave(isolated, d)
  }

  function DoDropIndex(s: World, d: nat, failed: bool, keptGenerations: map<nat, set<nat>>): (t: World)
    ensures DeletesOnly(s, t, d)
    ensures !DeleteAt(s, d, DroppingIndex) ==> t == s
    ensures t.row == s.row
    ensures t.source == s.source
  {
    if !DeleteAt(s, d, DroppingIndex) then s
    else
      var left := if failed
        then map g | g in s.index && g in keptGenerations :: Only(s.index[g], keptGenerations[g])
        else map[];
      DeleteGoto(s.(index := left), d, Listing, failed)
  }

  function DoListObjects(s: World, d: nat, failed: bool): (t: World)
    ensures DeletesOnly(s, t, d)
    ensures t.row == s.row
    ensures SameObjects(s, t)
  {
    if !DeleteAt(s, d, Listing) then s
    else DeleteGoto(s, d, Removing(if failed then {} else s.store.Keys), failed)
  }

  predicate RemovingAt(s: World, d: nat) {
    d in s.deletes && s.deletes[d].phase.Removing?
  }

  /** A delete that does not fail has removed the object; one that fails may have. */
  function DoRemoveObject(s: World, d: nat, gen: nat, removed: bool, failed: bool): (t: World)
    ensures DeletesOnly(s, t, d)
    ensures !RemovingAt(s, d) ==> t == s
    ensures t.row == s.row
    ensures t.source == s.source
  {
    if !RemovingAt(s, d) || gen !in s.deletes[d].phase.keys then s
    else
      var left := if removed || !failed then s.(store := s.store - {gen}) else s;
      DeleteGoto(left, d, Removing(s.deletes[d].phase.keys - {gen}), failed)
  }

  function DoRemovedAll(s: World, d: nat): (t: World)
    ensures DeletesOnly(s, t, d)
    ensures t.row == s.row
    ensures SameObjects(s, t)
  {
    if !RemovingAt(s, d) || s.deletes[d].phase.keys != {} then s else DeleteGoto(s, d, RemovingSource, false)
  }

  function DoRemoveSource(s: World, d: nat, removed: bool, failed: bool): (t: World)
    ensures DeletesOnly(s, t, d)
    ensures t.row == s.row
    ensures t.store == s.store && t.index == s.index
    ensures !s.source ==> !t.source
  {
    if !DeleteAt(s, d, RemovingSource) then s
    else DeleteGoto(s.(source := s.source && failed && !removed), d, Finishing, failed)
  }

  function DoFinish(s: World, d: nat, fate: Fate): (t: World)
    ensures DeletesOnly(s, t, d)
    ensures RowGoesForward(s, t)
    ensures SameObjects(s, t)
  {
    if !DeleteAt(s, d, Finishing) || s.row.None? then s
    else
      var row := if s.deletes[d].errors then CleanupMarkedFailed(s.row.value, d).0
                 else CleanupCleared(s.row.value, d).0;
      DeleteLeave(if fate == RaisedBefore then s else s.(row := Some(row)), d)
  }

  // ----- Runs ----------------------------------------------------------------------------------------

  function Apply(s: World, step: Step): World {
    match step
    case PutSource(fate) => DoPutSource(s, fate)
    case InsertRow(fate) => DoInsertRow(s, fate)
    case Compensate(removed) => DoCompensate(s, removed)
    case Claim(stale) => DoClaim(s, stale)
    case Reindex(stale) => DoReindex(s, stale)
    case EditCollection(newSizes) => DoEditCollection(s, newSizes)
    case Load(w, extracted) => DoLoad(s, w, extracted)
    case RequestDelete => DoRequestDelete(s)
    case Acquire(h) => DoAcquire(s, h)
    case Crash(h) => DoCrash(s, h)
    case Check(w) => DoCheck(s, w)
    case Raise(w) => DoRaise(s, w)
    case PutParsed(w, fate) => DoPutParsed(s, w, fate)
    case DeleteGeneration(w, fate, kept) => DoDeleteGeneration(s, w, fate, kept)
    case Upsert(w, fate, applied) => DoUpsert(s, w, fate, applied)
    case Complete(w, fate) => DoComplete(s, w, fate)
    case CheckPublished(w) => DoCheckPublished(s, w)
    case CleanOldObject(w, gen) => DoCleanOldObject(s, w, gen)
    case CleanOldIndex(w, kept) => DoCleanOldIndex(s, w, kept)
    case CleanStaleObject(w, removed) => DoCleanStaleObject(s, w, removed)
    case CleanStaleIndex(w, kept) => DoCleanStaleIndex(s, w, kept)
    case MarkFailed(w, fate) => DoMarkFailed(s, w, fate)
    case Isolate(d, refused, fate) => DoIsolate(s, d, refused, fate)
    case DropIndex(d, failed, kept) => DoDropIndex(s, d, failed, kept)
    case ListObjects(d, failed) => DoListObjects(s, d, failed)
    case RemoveObject(d, gen, removed, failed) => DoRemoveObject(s, d, gen, removed, failed)
    case RemovedAll(d) => DoRemovedAll(s, d)
    case RemoveSource(d, removed, failed) => DoRemoveSource(s, d, removed, failed)
    case Finish(d, fate) => DoFinish(s, d, fate)
  }

  function Run(s: World, steps: seq<Step>): World
    decreases |steps|
  {
    if steps == [] then s else Run(Apply(s, steps[0]), steps[1..])
  }
}
