/**
 The worker's `run_once` and the delete request as programs over one shared deployment. Each database transaction
 and each external call is one step of the protocol, and between any two of them everybody else may take any number
 of steps.
 */
module IndexWorker {
  import opened Outcomes
  import opened DocumentRow
  import opened IndexProtocol
  import opened IndexSafety
  import opened IndexTheorems
  import opened IndexFrames

  /** How a piece of `run_once` ended: it goes on, the run is over, or an exception left it. */
  datatype Ending = GoesOn | Over | Raised

  class Deployment {
    var world: World
    ghost const start: World
    ghost var steps: seq<Step>

    /** The world is what the steps taken so far made of the start, so every promise about runs holds of it. */
    ghost predicate Valid()
      reads this
    {
      Start(start) && world == Run(start, steps) && Inv(world)
    }

    constructor (start: World)
      requires Start(start)
      ensures Valid() && world == start
    {
      this.start, world, steps := start, start, [];
      new;
      StartIsSafe(start);
    }

    method Take(step: Step)
      requires Valid()
      modifies this
      ensures Valid() && world == Apply(old(world), step) && steps == old(steps) + [step]
    {
      hide Inv, Apply, Start, Run;
      RunThenStep(start, steps, step);
      StepKeeps(world, step);
      world := Apply(world, step);
      steps := steps + [step];
    }

    /** Whatever others do in the meantime. */
    method Others(h: Holder)
      requires Valid()
      modifies this
      ensures Valid() && Respects(old(world), world, h) && old(steps) <= steps
    {
      hide Inv, Apply, Start, Run, Involves;
      var left: int := *;
      while left > 0
        invariant Valid() && Respects(old(world), world, h) && old(steps) <= steps
      {
        left := left - 1;
        var step: Step := *;
        if !Involves(step, h) {
          OthersRespect(world, step, h);
          Take(step);
        }
      }
    }

    // ----- run_once ----------------------------------------------------------------------------------

    /**
     One claimed document, from the claim to the end: nothing of the attempt is left, and no lock. If it published, it
     did so itself.
     */
    method RunOnce() returns (worked: bool, published: bool)
      requires Valid()
      modifies this
      ensures Valid()
      ensures var id := old(world.next); Ended(world, id) && world.lock != Some(HeldByWorker(id))
      ensures ReadyOk(world)
      ensures worked ==> old(world.row.Some? && Claimable(world.row.value, true))
      ensures !worked ==> world == old(world) && (world.row.None? || !Claimable(world.row.value, false))
      ensures published ==> worked && HasPublished(start, steps, |old(steps)|, old(world.next))
    {
      hide Inv, Apply, Start, Run, Respects, HasPublished, ReadyOk;
      var id := world.next;
      var stale: bool := *;
      published := false;
      ClaimLeads(world, stale);
      Take(Claim(stale));
      if id !in world.workers {
        EndedHoldsNoLock(world, id);
        ReadyIsOk(world);
        return false, false;
      }
      var raised;
      raised, published := IndexClaimed(id);
      ghost var done := steps;
      if raised {
        var recorded := HandleFailure(id);
      }
      StaysPublished(start, done, steps, |old(steps)| + 1, |old(steps)|, id);
      EndedHoldsNoLock(world, id);
      ReadyIsOk(world);
      worked := true;
    }

    /** The `with coordinator.hold` that may wait for ever: then the attempt ends here, as in a crash. */
    method Hold(id: nat) returns (held: bool)
      requires Valid() && (At(world, id, Arriving) || At(world, id, Failing))
      modifies this
      ensures Valid() && old(steps) <= steps
      ensures held ==> MovedTo(old(world), world, id, if At(old(world), id, Arriving) then BeforePut else MarkingFailed)
      ensures !held ==> Ended(world, id)
    {
      hide Inv, Apply, Start, Run;
      WorkerHoldsTheLock(world, id);
      Others(HeldByWorker(id));
      if world.lock.None? {
        AcquireLeads(world, id);
        Take(Acquire(HeldByWorker(id)));
        held := true;
      } else {
        CrashEnds(world, id);
        Take(Crash(HeldByWorker(id)));
        held := false;
      }
    }

    /** The `try` block. */
    method IndexClaimed(id: nat) returns (raised: bool, published: bool)
      requires Valid() && At(world, id, Loading)
      modifies this
      ensures Valid() && old(steps) <= steps
      ensures if raised then At(world, id, Failing) else Ended(world, id)
      ensures published ==> HasPublished(start, steps, |old(steps)|, id)
    {
      hide Inv, Apply, Start, Run, Respects, HasPublished, HoldsText, HoldsChunks;
      published := false;
      WorkerStaysPut(world, id);
      Others(HeldByWorker(id));
      var extracted: Option<string> := *;
      LoadLeads(world, id, extracted);
      Take(Load(id, extracted));
      if world.workers[id].phase == Failing {
        return true, false;
      }
      var held := Hold(id);
      if held {
        ghost var before := |steps|;
        raised, published := IndexLocked(id);
        StaysPublished(start, steps, steps, before, |old(steps)|, id);
      } else {
        raised := false;
      }
    }

    /** The `with` block inside it. */
    method IndexLocked(id: nat) returns (raised: bool, published: bool)
      requires Valid() && At(world, id, BeforePut)
      modifies this
      ensures Valid() && old(steps) <= steps
      ensures if raised then At(world, id, Failing) else Ended(world, id)
      ensures published ==> HasPublished(start, steps, |old(steps)|, id)
    {
      hide Inv, Apply, Start, Run, Respects, HasPublished, HoldsText, HoldsChunks;
      published := false;
      var ending := PutParsed(id);
      if ending == GoesOn {
        ending := Rebuild(id);
      }
      if ending == GoesOn {
        ghost var before := |steps|;
        ending, published := Publish(id);
        StaysPublished(start, steps, steps, before, |old(steps)|, id);
      }
      raised := ending == Raised;
    }

    /** `_prepare_for_mutation`. */
    method PrepareForMutation(id: nat) returns (ending: Ending)
      requires Valid() && id in world.workers && IsChecked(world.workers[id].phase)
      modifies this
      ensures Valid() && old(steps) <= steps
      ensures ending == GoesOn ==> MovedTo(old(world), world, id, AfterCheck(old(world).workers[id].phase))
      ensures ending == GoesOn ==> Dispose(world, id) == Owned
      ensures ending == Over ==> Ended(world, id)
      ensures ending == Raised ==> At(world, id, Failing)
    {
      hide Inv, Apply, Start, Run, Respects;
      WorkerStaysPut(world, id);
      Others(HeldByWorker(id));
      var unavailable: bool := *;
      if unavailable {
        RaiseLeads(world, id);
        Take(Raise(id));
        return Raised;
      }
      CheckLeads(world, id);
      Take(Check(id));
      if id !in world.workers {
        return Over;
      }
      if world.workers[id].phase == CleaningObject {
        var errors := CleanupStaleAttempt(id);
        return Over;
      }
      ending := GoesOn;
    }

    /** `_put_parsed_idempotently`, after one more check of the claim. */
    method PutParsed(id: nat) returns (ending: Ending)
      requires Valid() && At(world, id, BeforePut)
      modifies this
      ensures Valid() && old(steps) <= steps
      ensures ending == GoesOn ==> MovedTo(old(world), world, id, BeforeDelete) && HoldsText(world, id)
      ensures ending == Over ==> Ended(world, id)
      ensures ending == Raised ==> At(world, id, Failing)
    {
      hide Inv, Apply, Start, Run, Respects, HoldsText, Dispose;
      ending := PrepareForMutation(id);
      if ending == GoesOn {
        WorkerStaysPut(world, id);
        Others(HeldByWorker(id));
        var fate: Fate := *;
        PutLeads(world, id, fate);
        Take(Step.PutParsed(id, fate));
        HoldsItsText(world, id);
        ending := if world.workers[id].phase == Failing then Raised else GoesOn;
      }
    }

    /** The generation is emptied before it is filled, since a crashed attempt may have left something. */
    method Rebuild(id: nat) returns (ending: Ending)
      requires Valid() && At(world, id, BeforeDelete)
      modifies this
      ensures Valid() && old(steps) <= steps
      ensures ending == GoesOn ==>
                MovedTo(old(world), world, id, Publishing) && HoldsText(world, id) && HoldsChunks(world, id)
      ensures ending == Over ==> Ended(world, id)
      ensures ending == Raised ==> At(world, id, Failing)
    {
      hide Inv, Apply, Start, Run, Respects, HoldsText, HoldsChunks, Dispose;
      ending := EmptyGeneration(id);
      if ending == GoesOn {
        ending := FillGeneration(id);
      }
    }

    method EmptyGeneration(id: nat) returns (ending: Ending)
      requires Valid() && At(world, id, BeforeDelete)
      modifies this
      ensures Valid() && old(steps) <= steps
      ensures ending == GoesOn ==> MovedTo(old(world), world, id, BeforeUpsert)
      ensures ending == Over ==> Ended(world, id)
      ensures ending == Raised ==> At(world, id, Failing)
    {
      hide Inv, Apply, Start, Run, Respects, Dispose;
      ending := PrepareForMutation(id);
      if ending == GoesOn {
        WorkerStaysPut(world, id);
        Others(HeldByWorker(id));
        var fate: Fate := *;
        var kept: set<nat> := *;
        DeleteGenerationLeads(world, id, fate, kept);
        Take(DeleteGeneration(id, fate, kept));
        ending := if world.workers[id].phase == Failing then Raised else GoesOn;
      }
    }

    method FillGeneration(id: nat) returns (ending: Ending)
      requires Valid() && At(world, id, BeforeUpsert)
      modifies this
      ensures Valid() && old(steps) <= steps
      ensures ending == GoesOn ==>
                MovedTo(old(world), world, id, Publishing) && HoldsText(world, id) && HoldsChunks(world, id)
      ensures ending == Over ==> Ended(world, id)
      ensures ending == Raised ==> At(world, id, Failing)
    {
      hide Inv, Apply, Start, Run, Respects, HoldsText, HoldsChunks, Dispose;
      ending := PrepareForMutation(id);
      if ending == GoesOn {
        WorkerStaysPut(world, id);
        Others(HeldByWorker(id));
        var fate: Fate := *;
        var applied: set<nat> := *;
        UpsertLeads(world, id, fate, applied);
        Take(Upsert(id, fate, applied));
        HoldsItsText(world, id);
        HoldsItsChunks(world, id);
        ending := if world.workers[id].phase == Failing then Raised else GoesOn;
      }
    }

    /** `complete_generation` and what follows it. */
    method Publish(id: nat) returns (ending: Ending, published: bool)
      requires Valid() && At(world, id, Publishing)
      modifies this
      ensures Valid() && old(steps) <= steps
      ensures ending == Over || ending == Raised
      ensures published ==> HasPublished(start, steps, |old(steps)|, id)
      ensures ending == Over ==> Ended(world, id)
      ensures ending == Raised ==> At(world, id, Failing)
    {
      hide Inv, Apply, Start, Run, Respects, HasPublished;
      WorkerStaysPut(world, id);
      Others(HeldByWorker(id));
      var fate: Fate := *;
      CompleteLeads(world, id, fate);
      Take(Complete(id, fate));
      if world.workers[id].phase == Failing {
        return Raised, false;
      }
      published := world.workers[id].phase == Published;
      ghost var done := steps;
      if published {
        JustPublished(start, done, |old(steps)|, id);
        ending := CleanAfterPublishing(id);
      } else {
        ending := CleanIfObsolete(id);
      }
      StaysPublished(start, done, steps, |old(steps)|, |old(steps)|, id);
    }

    method CleanAfterPublishing(id: nat) returns (ending: Ending)
      requires Valid() && At(world, id, Published)
      modifies this
      ensures Valid() && old(steps) <= steps
      ensures if ending == Raised then At(world, id, Failing) else ending == Over && Ended(world, id)
    {
      hide Inv, Apply, Start, Run, Respects;
      WorkerStaysPut(world, id);
      Others(HeldByWorker(id));
      var unavailable: bool := *;
      if unavailable {
        RaiseLeads(world, id);
        Take(Raise(id));
        return Raised;
      }
      CheckPublishedLeads(world, id);
      Take(CheckPublished(id));
      if id in world.workers {
        var errors := CleanupPublishedOldGenerations(id);
      }
      ending := Over;
    }

    method CleanIfObsolete(id: nat) returns (ending: Ending)
      requires Valid() && At(world, id, Judging(false))
      modifies this
      ensures Valid() && old(steps) <= steps
      ensures if ending == Raised then At(world, id, Failing) else ending == Over && Ended(world, id)
    {
      hide Inv, Apply, Start, Run, Respects;
      WorkerStaysPut(world, id);
      Others(HeldByWorker(id));
      var unavailable: bool := *;
      JudgeLeads(world, id, false);
      if unavailable {
        Take(Raise(id));
        return Raised;
      }
      Take(Check(id));
      if id in world.workers {
        var errors := CleanupStaleAttempt(id);
      }
      ending := Over;
    }

    /**
     The `except` block, which takes the lock again. If its transaction took effect, then a claim that the attempt still
     owned was recorded as failed, and no other claim was touched.
     */
    method HandleFailure(id: nat) returns (recorded: bool)
      requires Valid() && At(world, id, Failing)
      modifies this
      ensures Valid() && Ended(world, id) && old(steps) <= steps
      ensures recorded ==>
                HasRecordedFailure(start, steps, |old(steps)|, id, old(world).workers[id].generation)
    {
      hide Inv, Apply, Start, Run, Respects, HasRecordedFailure;
      ghost var gen := world.workers[id].generation;
      var held := Hold(id);
      if !held {
        return false;
      }
      ghost var before := |steps|;
      recorded := RecordFailure(id);
      ghost var done := steps;
      if id in world.workers {
        CleanAfterFailure(id);
      }
      StaysRecorded(start, done, steps, before, |old(steps)|, id, gen);
    }

    method RecordFailure(id: nat) returns (recorded: bool)
      requires Valid() && At(world, id, MarkingFailed)
      modifies this
      ensures Valid() && old(steps) <= steps
      ensures Ended(world, id) || At(world, id, CleaningObject) || At(world, id, Judging(true))
      ensures recorded ==>
                HasRecordedFailure(start, steps, |old(steps)|, id, old(world).workers[id].generation)
    {
      hide Inv, Apply, Start, Run, Respects, RecordsFailure;
      WorkerStaysPut(world, id);
      Others(HeldByWorker(id));
      var fate: Fate := *;
      MarkFailedLeads(world, id, fate);
      ghost var before := steps;
      Take(MarkFailed(id, fate));
      recorded := fate != RaisedBefore;
      assert steps[..|before|] == before && steps[..|before| + 1] == steps;
    }

    method CleanAfterFailure(id: nat)
      requires Valid() && (At(world, id, CleaningObject) || At(world, id, Judging(true)))
      modifies this
      ensures Valid() && Ended(world, id) && old(steps) <= steps
    {
      hide Inv, Apply, Start, Run, Respects;
      if world.workers[id].phase == Judging(true) {
        var obsolete := IsObsoleteAfterFailure(id);
        if !obsolete {
          return;
        }
      }
      var errors := CleanupStaleAttempt(id);
    }

    method IsObsoleteAfterFailure(id: nat) returns (obsolete: bool)
      requires Valid() && At(world, id, Judging(true))
      modifies this
      ensures Valid() && old(steps) <= steps
      ensures if obsolete then At(world, id, CleaningObject) else Ended(world, id)
    {
      hide Inv, Apply, Start, Run, Respects;
      WorkerStaysPut(world, id);
      Others(HeldByWorker(id));
      var unavailable: bool := *;
      JudgeLeads(world, id, true);
      if unavailable {
        Take(Raise(id));
        return false;
      }
      Take(Check(id));
      obsolete := id in world.workers;
    }

    /** `_cleanup_stale_attempt`: without an error, nothing of the attempt's generation is left. */
    method CleanupStaleAttempt(id: nat) returns (errors: nat)
      requires Valid() && At(world, id, CleaningObject)
      modifies this
      ensures Valid() && Ended(world, id) && old(steps) <= steps
      ensures errors == 0 ==>
                var gen := old(world).workers[id].generation;
                gen !in world.store && EntriesAt(world.index, gen) == map[]
    {
      hide Inv, Apply, Start, Run;
      errors := 0;
      WorkerHoldsTheLock(world, id);
      Others(HeldByWorker(id));
      var failed: bool := *;
      var removed: bool := *;
      CleanStaleObjectLeads(world, id, removed || !failed);
      Take(CleanStaleObject(id, removed || !failed));
      if failed {
        errors := errors + 1;
      }
      WorkerHoldsTheLock(world, id);
      Others(HeldByWorker(id));
      failed := *;
      var kept: set<nat> := *;
      if !failed {
        kept := {};
      } else {
        errors := errors + 1;
      }
      CleanStaleIndexLeads(world, id, kept);
      Take(CleanStaleIndex(id, kept));
    }

    /** `_cleanup_published_old_generations`: without an error, nothing of any older generation is left. */
    method CleanupPublishedOldGenerations(id: nat) returns (errors: nat)
      requires Valid() && At(world, id, CleaningOld)
      modifies this
      ensures Valid() && Ended(world, id) && old(steps) <= steps
      ensures errors == 0 ==>
                forall g: nat :: g < old(world).workers[id].generation ==>
                  g !in world.store && EntriesAt(world.index, g) == map[]
    {
      hide Inv, Apply, Start, Run, EntriesAt;
      errors := CleanOldObjects(id);
      WorkerHoldsTheLock(world, id);
      Others(HeldByWorker(id));
      var failed: bool := *;
      var kept: map<nat, set<nat>> := *;
      if !failed {
        kept := map[];
      } else {
        errors := errors + 1;
      }
      CleanOldIndexLeads(world, id, kept);
      Take(CleanOldIndex(id, kept));
    }

    /** The loop over the listed keys; a listing that fails counts as one error. */
    method CleanOldObjects(id: nat) returns (errors: nat)
      requires Valid() && At(world, id, CleaningOld)
      modifies this
      ensures Valid() && MovedTo(old(world), world, id, CleaningOld) && old(steps) <= steps
      ensures errors == 0 ==> forall g: nat :: g < old(world).workers[id].generation ==> g !in world.store
    {
      hide Inv, Apply, Start, Run, EntriesAt;
      errors := 0;
      ghost var own := world.workers[id];
      WorkerHoldsTheLock(world, id);
      Others(HeldByWorker(id));
      var unlisted: bool := *;
      var listed: set<nat> := world.store.Keys;
      if unlisted {
        listed, errors := {}, errors + 1;
      }
      while listed != {}
        invariant Valid() && id in world.workers && world.workers[id] == own && old(steps) <= steps
        invariant errors == 0 ==> forall g: nat :: g < own.generation && g in world.store ==> g in listed
        decreases |listed|
      {
        var gen :| gen in listed;
        listed := listed - {gen};
        if gen < world.workers[id].generation {
          WorkerHoldsTheLock(world, id);
          Others(HeldByWorker(id));
          var failed: bool := *;
          var removed: bool := *;
          if removed || !failed {
            CleanOldObjectLeads(world, id, gen);
            Take(CleanOldObject(id, gen));
          }
          if failed {
            errors := errors + 1;
          }
        }
      }
    }

    // ----- The delete request ------------------------------------------------------------------------

    /**
     `delete_document`: a request that answers that it is complete has left nothing of the document behind, and the
     row says so.
     */
    method DeleteDocument() returns (complete: bool)
      requires Valid()
      modifies this
      ensures Valid()
      ensures var d := old(world.next); d !in world.deletes
      ensures complete ==> !world.source && world.store == map[] && NoEntries(world.index)
      ensures complete ==> world.row.Some? && world.row.value.Deleted()
    {
      hide Inv, Apply, Start, Run, Respects;
      var d := world.next;
      var h := HeldByDelete(d);
      complete := false;
      RequestLeads(world);
      Take(RequestDelete);
      DeleteStaysPut(world, d);
      Others(h);
      if world.lock.Some? {
        CrashEndsDelete(world, d);
        Take(Crash(h));
        return;
      }
      AcquireForDeleteLeads(world, d);
      Take(Acquire(h));
      DeleteStaysPut(world, d);
      Others(h);
      var refused: bool := *;
      var fate: Fate := *;
      IsolateLeads(world, d, refused, fate);
      Take(Isolate(d, refused, fate));
      if d !in world.deletes {
        return;
      }
      CleanupInactive(d);
      DeleteStaysPut(world, d);
      Others(h);
      fate := *;
      if !world.deletes[d].errors {
        NoErrorsMeansGone(world, d);
        complete := fate == Returned;
      }
      FinishLeads(world, d, fate);
      FinishTouchesNothing(world, d, fate);
      Take(Finish(d, fate));
    }

    /** `_cleanup_inactive_locked`: every part is tried, and every error is remembered. */
    method CleanupInactive(d: nat)
      requires Valid() && DeleteAt(world, d, DroppingIndex)
      modifies this
      ensures Valid() && DeleteAt(world, d, Finishing)
    {
      hide Inv, Apply, Start, Run, Respects;
      var h := HeldByDelete(d);
      DeleteStaysPut(world, d);
      Others(h);
      var failed: bool := *;
      var kept: map<nat, set<nat>> := *;
      DropIndexLeads(world, d, failed, kept);
      Take(DropIndex(d, failed, kept));
      DeleteStaysPut(world, d);
      Others(h);
      failed := *;
      ListObjectsLeads(world, d, failed);
      Take(ListObjects(d, failed));
      var keys := world.deletes[d].phase.keys;
      while keys != {}
        invariant Valid() && RemovingAt(world, d) && world.deletes[d].phase.keys == keys
        decreases |keys|
      {
        var gen :| gen in keys;
        DeleteStaysPut(world, d);
        Others(h);
        failed := *;
        var removed: bool := *;
        RemoveObjectLeads(world, d, gen, removed, failed);
        Take(RemoveObject(d, gen, removed, failed));
        keys := keys - {gen};
      }
      RemovedAllLeads(world, d);
      Take(RemovedAll(d));
      DeleteStaysPut(world, d);
      Others(h);
      failed := *;
      var removed: bool := *;
      RemoveSourceLeads(world, d, removed, failed);
      Take(RemoveSource(d, removed, failed));
    }
  }

  // ----- What an attempt has achieved ----------------------------------------------------------------

  /** The completion of attempt `id` is among the steps from `from` on, and left the row ready. */
  ghost predicate HasPublished(start: World, steps: seq<Step>, from: nat, id: nat) {
    exists n :: from <= n < |steps| && steps[n] == Complete(id, Returned) && IsReady(Run(start, steps[..n + 1]))
  }

  predicate IsReady(s: World) {
    s.row.Some? && s.row.value.Ready()
  }

  lemma JustPublished(start: World, steps: seq<Step>, from: nat, id: nat)
    requires from < |steps| && steps[|steps| - 1] == Complete(id, Returned) && IsReady(Run(start, steps))
    ensures HasPublished(start, steps, from, id)
  {
    var n := |steps| - 1;
    assert steps[..n + 1] == steps;
  }

  lemma StaysPublished(start: World, before: seq<Step>, after: seq<Step>, from: nat, from': nat, id: nat)
    requires before <= after && from' <= from
    ensures HasPublished(start, before, from, id) ==> HasPublished(start, after, from', id)
  {
    if HasPublished(start, before, from, id) {
      var n :| from <= n < |before| && before[n] == Complete(id, Returned) && IsReady(Run(start, before[..n + 1]));
      assert after[..n + 1] == before[..n + 1];
      assert after[n] == before[n];
    }
  }

  /** Marking the failure of attempt `id` is among the steps from `from` on, and recorded it where it was owned. */
  ghost predicate HasRecordedFailure(start: World, steps: seq<Step>, from: nat, id: nat, gen: nat) {
    exists n :: from <= n < |steps| && steps[n].MarkFailed? && steps[n].worker == id
                && RecordsFailure(Run(start, steps[..n]).row, Run(start, steps[..n + 1]).row, gen, id)
  }

  lemma StaysRecorded(start: World, before: seq<Step>, after: seq<Step>, from: nat, from': nat, id: nat, gen: nat)
    requires before <= after && from' <= from
    ensures HasRecordedFailure(start, before, from, id, gen) ==> HasRecordedFailure(start, after, from', id, gen)
  {
    hide RecordsFailure, Run;
    if HasRecordedFailure(start, before, from, id, gen) {
      var n :| from <= n < |before| && before[n].MarkFailed? && before[n].worker == id
               && RecordsFailure(Run(start, before[..n]).row, Run(start, before[..n + 1]).row, gen, id);
      assert after[..n] == before[..n] && after[..n + 1] == before[..n + 1] && after[n] == before[n];
    }
  }

  /** The parsed object of the attempt's generation holds the attempt's text. */
  predicate HoldsText(s: World, id: nat)
    requires id in s.workers
  {
    var x := s.workers[id];
    x.generation in s.store && s.store[x.generation] == x.text
  }

  /** The index holds exactly the chunks of the attempt's text for its generation. */
  predicate HoldsChunks(s: World, id: nat)
    requires id in s.workers
  {
    var x := s.workers[id];
    x.sizes.Allowed() && EntriesAt(s.index, x.generation) == AllEntries(x.text, x.sizes)
  }

  lemma HoldsItsText(s: World, id: nat)
    requires Inv(s)
    ensures At(s, id, BeforeDelete) || At(s, id, Publishing) ==> HoldsText(s, id)
  {
  }

  lemma HoldsItsChunks(s: World, id: nat)
    requires Inv(s)
    ensures At(s, id, Publishing) ==> HoldsChunks(s, id)
  {
  }

  // ----- Small steps ---------------------------------------------------------------------------------

  lemma ReadyIsOk(s: World)
    requires Inv(s)
    ensures ReadyOk(s)
  {
  }

  /** What others leave of this worker. */
  lemma WorkerStaysPut(s: World, id: nat)
    requires Inv(s) && id in s.workers
    ensures forall t :: Respects(s, t, HeldByWorker(id)) ==> id in t.workers && t.workers[id] == s.workers[id]
  {
    WorkerHoldsTheLock(s, id);
  }

  lemma DeleteStaysPut(s: World, d: nat)
    requires Inv(s) && d in s.deletes
    ensures forall t :: Respects(s, t, HeldByDelete(d)) ==> d in t.deletes && t.deletes[d] == s.deletes[d]
  {
    assert DeleteOk(s, d);
  }

  lemma CrashEnds(s: World, id: nat)
    ensures Ended(Apply(s, Crash(HeldByWorker(id))), id)
  {
  }

  lemma CrashEndsDelete(s: World, d: nat)
    ensures d !in Apply(s, Crash(HeldByDelete(d))).deletes
  {
  }

  lemma RequestLeads(s: World)
    ensures var t := Apply(s, RequestDelete); DeleteAt(t, s.next, Requested) && t.lock == s.lock
  {
  }

  lemma FinishTouchesNothing(s: World, d: nat, fate: Fate)
    ensures SameObjects(s, Apply(s, Finish(d, fate)))
  {
  }
}
