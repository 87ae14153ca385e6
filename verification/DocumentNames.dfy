/**
 The name of a Knowledge Document beside the indexing protocol: a claim reads it, every index entry carries the name
 that its attempt read, and the reader of the index compares the entry's name with the row's.
 */
module DocumentNames {
  import opened Outcomes
  import opened DocumentRow
  import opened Texts
  import opened Chunking
  import opened IndexProtocol
  import opened IndexSafety
  import opened IndexTheorems
  import opened IndexFrames

  // ----- Names ---------------------------------------------------------------------------------------

  const MAX_RESOURCE_NAME_LENGTH: nat := 120

  /** By generation and chunk index: the name in the entry that was last written there. */
  type Names = map<(nat, nat), string>

  datatype Named = Named(
    world: World,
    name: string,              // the row's name
    claimed: map<nat, string>, // by processing attempt: the name that the claim read
    names: Names,
    published: string)         // the name that the attempt had read which published last

  datatype NamedStep = Protocol(step: Step) | Rename(name: string)

  function NameOf(names: Names, gen: nat, i: nat): Option<string> {
    if (gen, i) in names then Some(names[(gen, i)]) else None
  }

  /** The chunk indexes at which an upsert writes entries. */
  function Written(s: World, w: nat, fate: Fate, applied: set<nat>): set<nat> {
    if !At(s, w, Upserting) || !s.workers[w].sizes.Allowed() then {}
    else
      var all := AllEntries(s.workers[w].text, s.workers[w].sizes).Keys;
      if fate == Returned then all else all * applied
  }

  function NamesAfter(n: Named, step: Step): Names {
    match step
    case Upsert(w, fate, applied) =>
      if w !in n.claimed || w !in n.world.workers then n.names
      else
        var (gen, written) := (n.world.workers[w].generation, Written(n.world, w, fate, applied));
        n.names + map i | i in written :: (gen, i) := n.claimed[w]
    case _ => n.names
  }

  /** `Complete` changes the row exactly if it publishes. */
  function PublishedAs(n: Named, step: Step): string {
    match step
    case Complete(w, _) =>
      if Apply(n.world, step).row != n.world.row && w in n.claimed then n.claimed[w] else n.published
    case _ => n.published
  }

  function ApplyNamed(n: Named, step: NamedStep): Named {
    match step
    case Protocol(p) =>
      Named(Apply(n.world, p), n.name, if p.Claim? then n.claimed[n.world.next := n.name] else n.claimed,
            NamesAfter(n, p), PublishedAs(n, p))
    case Rename(raw) =>
      if n.world.row.None? || !n.world.row.value.active || !(0 < |Stripped(raw)| <= MAX_RESOURCE_NAME_LENGTH) then n
      else n.(name := Stripped(raw))
  }

  function RunNamed(n: Named, steps: seq<NamedStep>): Named
    decreases |steps|
  {
    if steps == [] then n else RunNamed(ApplyNamed(n, steps[0]), steps[1..])
  }

  /** Renaming is no step of the protocol: without it, a run is a run of the protocol. */
  function Forgotten(steps: seq<NamedStep>): seq<Step>
    decreases |steps|
  {
    if steps == [] then []
    else (if steps[0].Protocol? then [steps[0].step] else []) + Forgotten(steps[1..])
  }

  lemma {:induction false} RenamesDoNotMatter(n: Named, steps: seq<NamedStep>)
    ensures RunNamed(n, steps).world == Run(n.world, Forgotten(steps))
    decreases |steps|
  {
    hide Apply, NamesAfter, PublishedAs;
    if steps != [] {
      RenamesDoNotMatter(ApplyNamed(n, steps[0]), steps[1..]);
      if steps[0].Protocol? {
        RunOne(n.world, steps[0].step, Forgotten(steps[1..]));
      } else {
        assert [] + Forgotten(steps[1..]) == Forgotten(steps[1..]);
      }
    }
  }

  // ----- Whose name the entries carry ----------------------------------------------------------------

  /** Every entry of this generation carries this name. */
  ghost predicate Carry(index: map<nat, Entries>, names: Names, gen: nat, name: string) {
    forall i :: i in EntriesAt(index, gen) ==> NameOf(names, gen, i) == Some(name)
  }

  ghost predicate WorkersAreNamed(n: Named) {
    forall w :: w in n.world.workers ==>
      && w in n.claimed
      && (n.world.workers[w].phase == Publishing ==>
            Carry(n.world.index, n.names, n.world.workers[w].generation, n.claimed[w]))
  }

  ghost predicate ReadyIsNamed(n: Named) {
    n.world.row.Some? && n.world.row.value.Ready() ==>
      Carry(n.world.index, n.names, n.world.row.value.generation, n.published)
  }

  ghost predicate NameInv(n: Named) {
    Inv(n.world) && WorkersAreNamed(n) && ReadyIsNamed(n)
  }

  lemma StartIsNamed(n: Named)
    requires Start(n.world)
    ensures NameInv(n)
  {
    StartIsSafe(n.world);
  }

  predicate UpsertsAt(s: World, step: Step, gen: nat) {
    step.Upsert? && At(s, step.worker, Upserting) && s.workers[step.worker].generation == gen
  }

  /** Names change only where an upsert writes. */
  lemma NamesStay(n: Named, step: Step, gen: nat, i: nat)
    requires !UpsertsAt(n.world, step, gen)
    ensures NameOf(NamesAfter(n, step), gen, i) == NameOf(n.names, gen, i)
  {
    hide AllEntries, Sizes.Allowed;
  }

  lemma CarryStays(n: Named, step: Step, gen: nat, name: string)
    requires Carry(n.world.index, n.names, gen, name) && !UpsertsAt(n.world, step, gen)
    requires EntriesAt(Apply(n.world, step).index, gen) == EntriesAt(n.world.index, gen)
    ensures Carry(Apply(n.world, step).index, NamesAfter(n, step), gen, name)
  {
    hide Apply, NamesAfter, NameOf, EntriesAt;
    var t := Apply(n.world, step);
    forall i | i in EntriesAt(t.index, gen)
      ensures NameOf(NamesAfter(n, step), gen, i) == Some(name)
    {
      NamesStay(n, step, gen, i);
    }
  }

  /** A full upsert into an empty generation leaves its own name on every entry. */
  lemma UpsertNamesAll(n: Named, w: nat, applied: set<nat>)
    requires Inv(n.world) && At(n.world, w, Upserting) && w in n.claimed
    ensures Carry(Apply(n.world, Upsert(w, Returned, applied)).index, NamesAfter(n, Upsert(w, Returned, applied)),
                  n.world.workers[w].generation, n.claimed[w])
  {
    KnownWorker(n.world, w);
    assert EntriesAt(n.world.index, n.world.workers[w].generation) == map[];
    hide Inv, WorkerOk, AllEntries, Apply;
    UpsertIs(n.world, w, applied);
  }

  lemma UpsertIs(s: World, w: nat, applied: set<nat>)
    requires At(s, w, Upserting) && s.workers[w].sizes.Allowed()
    requires EntriesAt(s.index, s.workers[w].generation) == map[]
    ensures EntriesAt(Apply(s, Upsert(w, Returned, applied)).index, s.workers[w].generation)
            == AllEntries(s.workers[w].text, s.workers[w].sizes)
  {
    hide AllEntries, Sizes.Allowed, OnlyOwnProjection, WorkersOnly;
  }

  // ----- Who is about to publish ---------------------------------------------------------------------

  /** The step does not bring the attempt to where it is about to publish. */
  ghost predicate Avoids(s: World, t: World, w: nat) {
    At(t, w, Publishing) ==> t == s
  }

  lemma AcquireAvoids(s: World, w: nat)
    requires At(s, w, Publishing) ==> s.lock.Some?
    ensures Avoids(s, DoAcquire(s, HeldByWorker(w)), w)
  {
    hide WorkersOnly, DeletesOnly, SameObjects, HolderOnly;
    if s.lock.None? && w in s.workers {
      assert !At(s, w, Publishing);
    }
  }

  lemma CrashAvoids(s: World, w: nat)
    ensures !At(DoCrash(s, HeldByWorker(w)), w, Publishing)
  {
    hide WorkersOnly, DeletesOnly, SameObjects, HolderOnly;
  }

  lemma LoadAvoids(s: World, w: nat, extracted: Option<string>)
    ensures Avoids(s, DoLoad(s, w, extracted), w)
  {
    hide IsBlank, WorkersOnly, SameObjects;
  }

  lemma MovesAvoid(s: World, w: nat)
    requires w in s.workers
    ensures forall phase :: phase != Publishing ==> Avoids(s, Goto(s, w, phase), w)
    ensures Avoids(s, Fail(s, w), w) && Avoids(s, Leave(s, w), w) && Avoids(s, s, w)
  {
  }

  lemma ChecksAvoid(s: World, w: nat)
    ensures Avoids(s, DoCheck(s, w), w) && Avoids(s, DoRaise(s, w), w) && Avoids(s, DoCheckPublished(s, w), w)
  {
    if w in s.workers {
      MovesAvoid(s, w);
    }
    hide Judge, Goto, Fail, Leave, Avoids, WorkersOnly, SameObjects;
    assert Avoids(s, s, w) by {
      NothingAvoids(s, w);
    }
  }

  lemma NothingAvoids(s: World, w: nat)
    ensures Avoids(s, s, w)
  {
  }

  lemma PutAvoids(s: World, w: nat, fate: Fate)
    ensures Avoids(s, DoPutParsed(s, w, fate), w)
  {
    hide WorkersOnly, OnlyOwnProjection, Fail, Goto;
    if At(s, w, Putting) {
      var put := s.(store := s.store[s.workers[w].generation := s.workers[w].text]);
      MovesAway(s, w, BeforeDelete);
      MovesAway(put, w, BeforeDelete);
    }
  }

  lemma MovesAway(s: World, w: nat, phase: Phase)
    requires w in s.workers && phase != Publishing
    ensures !At(Goto(s, w, phase), w, Publishing) && !At(Fail(s, w), w, Publishing)
  {
  }

  lemma DeleteGenerationAvoids(s: World, w: nat, fate: Fate, kept: set<nat>)
    ensures Avoids(s, DoDeleteGeneration(s, w, fate, kept), w)
  {
    hide EntriesAt, Only, WorkersOnly, OnlyOwnProjection;
  }

  lemma OutcomesAvoid(s: World, w: nat, fate: Fate)
    ensures Avoids(s, DoComplete(s, w, fate), w) && Avoids(s, DoMarkFailed(s, w, fate), w)
  {
    hide Completed, FailedBy, WorkersOnly, SameObjects, RowGoesForward;
  }

  lemma CleanupsAvoid(s: World, w: nat, gen: nat, keptGenerations: map<nat, set<nat>>, removed: bool, kept: set<nat>)
    ensures Avoids(s, DoCleanOldObject(s, w, gen), w) && Avoids(s, DoCleanOldIndex(s, w, keptGenerations), w)
    ensures Avoids(s, DoCleanStaleObject(s, w, removed), w) && Avoids(s, DoCleanStaleIndex(s, w, kept), w)
  {
    hide EntriesAt, Only, WorkersOnly, OnlyOwnProjection, OnlyOlderProjections;
  }

  lemma DoUpsertToPublishing(s: World, w: nat, fate: Fate, applied: set<nat>)
    ensures At(DoUpsert(s, w, fate, applied), w, Publishing) ==>
              DoUpsert(s, w, fate, applied) == s || (At(s, w, Upserting) && fate == Returned)
  {
    hide EntriesAt, AllEntries, Only, Sizes.Allowed, WorkersOnly, OnlyOwnProjection;
  }

  /** An attempt that is about to publish was so before, or has just upserted. */
  lemma OwnStepToPublishing(s: World, step: Step, w: nat)
    requires Involves(step, HeldByWorker(w)) && At(Apply(s, step), w, Publishing)
    requires At(s, w, Publishing) ==> s.lock.Some?
    ensures Apply(s, step) == s || (step.Upsert? && At(s, w, Upserting) && step.fate == Returned)
  {
    hide DoLoad, DoAcquire, DoCrash, DoCheck, DoRaise, DoPutParsed, DoDeleteGeneration, DoUpsert, DoComplete,
      DoCheckPublished, DoCleanOldObject, DoCleanOldIndex, DoCleanStaleObject, DoCleanStaleIndex, DoMarkFailed;
    hide WorkersOnly, SameObjects, OnlyOwnProjection, OnlyOlderProjections, HolderOnly, RowGoesForward;
    match step
    case Acquire(_) => AcquireAvoids(s, w);
    case Crash(_) => CrashAvoids(s, w);
    case Load(_, extracted) => LoadAvoids(s, w, extracted);
    case Check(_) => ChecksAvoid(s, w);
    case Raise(_) => ChecksAvoid(s, w);
    case PutParsed(_, fate) => PutAvoids(s, w, fate);
    case DeleteGeneration(_, fate, kept) => DeleteGenerationAvoids(s, w, fate, kept);
    case Upsert(_, fate, applied) => DoUpsertToPublishing(s, w, fate, applied);
    case Complete(_, fate) => OutcomesAvoid(s, w, fate);
    case CheckPublished(_) => ChecksAvoid(s, w);
    case CleanOldObject(_, gen) => CleanupsAvoid(s, w, gen, map[], false, {});
    case CleanOldIndex(_, kept) => CleanupsAvoid(s, w, 0, kept, false, {});
    case CleanStaleObject(_, removed) => CleanupsAvoid(s, w, 0, map[], removed, {});
    case CleanStaleIndex(_, kept) => CleanupsAvoid(s, w, 0, map[], false, kept);
    case MarkFailed(_, fate) => OutcomesAvoid(s, w, fate);
    case _ =>
  }

  /** A new attempt comes from a claim, and starts by loading. */
  lemma NewAttemptsLoad(s: World, step: Step, w: nat)
    requires Inv(s) && w !in s.workers && w in Apply(s, step).workers
    ensures step.Claim? && w == s.next && At(Apply(s, step), w, Loading)
  {
    hide Inv, Apply, StaysPut;
    StepKeeps(s, step);
    NextIsNew(Apply(s, step), w);
    if step.Load? || IsWorkerStep(step) {
      WorkerStepMovesOne(s, step);
      NoSuchWorker(s, step);
    } else if IsDeleteStep(step) {
      DeleteStepMovesOne(s, step);
    } else {
      NewAttemptsAreClaimed(s, step, w);
    }
  }

  lemma NoSuchWorker(s: World, step: Step)
    requires (step.Load? || IsWorkerStep(step)) && step.worker !in s.workers
    ensures Apply(s, step) == s
  {
    hide AllEntries, EntriesAt, Only, Judge, IsBlank, Sizes.Allowed, WorkersOnly;
  }

  lemma NewAttemptsAreClaimed(s: World, step: Step, w: nat)
    requires IsUnlockedStep(step) && !step.Load? && w !in s.workers && w in Apply(s, step).workers
    ensures step.Claim? && w == s.next && At(Apply(s, step), w, Loading)
  {
    hide Apply, HolderOnly, SameObjects, RowGoesForward;
    match step
    case Claim(stale) => ClaimBringsOne(s, stale, w);
    case RequestDelete => ClaimBringsOne(s, false, w);
    case Acquire(h) => HolderStepMovesOne(s, h); HolderBringsNobody(s, Apply(s, step), h, w);
    case Crash(h) => HolderStepMovesOne(s, h); HolderBringsNobody(s, Apply(s, step), h, w);
    case _ => RowStepMovesNobody(s, step);
  }

  lemma ClaimBringsOne(s: World, stale: bool, w: nat)
    requires w !in s.workers
    ensures w in Apply(s, Claim(stale)).workers ==> w == s.next && At(Apply(s, Claim(stale)), w, Loading)
    ensures w !in Apply(s, RequestDelete).workers
  {
    hide Claimable, Claimed, SameObjects, RowGoesForward;
  }

  lemma HolderBringsNobody(s: World, t: World, h: Holder, w: nat)
    requires HolderOnly(s, t, h) && w !in s.workers
    ensures w !in t.workers
  {
  }

  lemma PublisherStays(n: Named, step: Step, w: nat)
    requires NameInv(n) && At(Apply(n.world, step), w, Publishing) && w in n.world.workers
    ensures w in n.claimed && n.world.workers[w].generation == Apply(n.world, step).workers[w].generation
    ensures Carry(Apply(n.world, step).index, NamesAfter(n, step), n.world.workers[w].generation, n.claimed[w])
  {
    hide Inv, Apply, NamesAfter, Carry, Respects, EntriesAt;
    var (s, t) := (n.world, Apply(n.world, step));
    var gen := s.workers[w].generation;
    WorkerHoldsTheLock(s, w);
    if Involves(step, HeldByWorker(w)) {
      OwnStepToPublishing(s, step, w);
      if t == s {
        NothingIsWritten(s, step, w);
        CarryStays(n, step, gen, n.claimed[w]);
      } else {
        UpsertNamesAll(n, w, step.applied);
        UpsertLeads(s, w, step.fate, step.applied);
      }
    } else {
      OthersRespect(s, step, HeldByWorker(w));
      RespectsIs(s, t, w);
      OthersUpsertNothing(s, step, w, gen);
      CarryStays(n, step, gen, n.claimed[w]);
    }
  }

  lemma RespectsIs(s: World, t: World, w: nat)
    requires Respects(s, t, HeldByWorker(w)) && w in s.workers && w < s.next
    ensures w in t.workers && t.workers[w] == s.workers[w]
    ensures s.lock == Some(HeldByWorker(w)) ==> t.index == s.index
  {
  }

  lemma NothingIsWritten(s: World, step: Step, w: nat)
    requires Involves(step, HeldByWorker(w)) && At(s, w, Publishing)
    ensures forall gen :: !UpsertsAt(s, step, gen)
  {
  }

  lemma OthersUpsertNothing(s: World, step: Step, w: nat, gen: nat)
    requires Inv(s) && s.lock == Some(HeldByWorker(w)) && !Involves(step, HeldByWorker(w))
    ensures !UpsertsAt(s, step, gen)
  {
    hide Inv;
    if step.Upsert? && step.worker in s.workers {
      WorkerHoldsTheLock(s, step.worker);
    }
  }

  // ----- Who has published ---------------------------------------------------------------------------

  /** A row becomes ready only by a completion of its generation. */
  lemma OnlyCompletionsPublish(s: World, step: Step)
    requires s.row != Apply(s, step).row && Apply(s, step).row.Some? && Apply(s, step).row.value.Ready()
    requires s.row.Some? ==> RowGoesForward(s, Apply(s, step))
    ensures step.Complete? && At(s, step.worker, Publishing)
    ensures Apply(s, step).row.value.generation == s.workers[step.worker].generation
    ensures Apply(s, step).index == s.index
  {
    hide Apply, RowGoesForward;
    if step.Complete? {
      CompletionPublishes(s, step.worker, step.fate);
    } else {
      OthersDoNotPublish(s, step);
    }
  }

  lemma OthersDoNotPublish(s: World, step: Step)
    requires !step.Complete?
    ensures Apply(s, step).row == s.row || Apply(s, step).row.None? || !Apply(s, step).row.value.Ready()
  {
    hide DoPutSource, DoCompensate, DoLoad, DoRequestDelete, DoAcquire, DoCrash, DoCheck, DoRaise, DoPutParsed,
      DoDeleteGeneration, DoUpsert, DoCheckPublished, DoCleanOldObject, DoCleanOldIndex, DoCleanStaleObject,
      DoCleanStaleIndex, DoDropIndex, DoListObjects, DoRemoveObject, DoRemovedAll, DoRemoveSource;
    hide Claimable, Reindexable, Sizes.Allowed, WorkersOnly, DeletesOnly, HolderOnly, NobodyMoves, OnlyOwnProjection,
      OnlyOlderProjections, SameObjects, RowGoesForward, DoClaim, DoReindex, DoEditCollection, DoMarkFailed,
      DoIsolate, DoFinish, DoInsertRow;
    EarlyRowStepsDoNotPublish(s, step);
    LateRowStepsDoNotPublish(s, step);
  }

  lemma CompletionPublishes(s: World, w: nat, fate: Fate)
    requires Apply(s, Complete(w, fate)).row != s.row
    ensures At(s, w, Publishing) && s.row.Some? && Apply(s, Complete(w, fate)).row.Some?
    ensures Apply(s, Complete(w, fate)).row.value.generation == s.workers[w].generation
    ensures Apply(s, Complete(w, fate)).index == s.index
  {
    hide WorkersOnly, SameObjects, RowGoesForward;
  }

  lemma EarlyRowStepsDoNotPublish(s: World, step: Step)
    ensures match step
            case InsertRow(fate) => NotReadied(s, DoInsertRow(s, fate))
            case Claim(stale) => NotReadied(s, DoClaim(s, stale))
            case Reindex(stale) => NotReadied(s, DoReindex(s, stale))
            case EditCollection(newSizes) => NotReadied(s, DoEditCollection(s, newSizes))
            case _ => true
  {
    hide Claimable, Reindexable, Sizes.Allowed, NobodyMoves, SameObjects, RowGoesForward;
  }

  lemma LateRowStepsDoNotPublish(s: World, step: Step)
    ensures match step
            case MarkFailed(w, fate) => NotReadied(s, DoMarkFailed(s, w, fate))
            case Isolate(d, refused, fate) => NotReadied(s, DoIsolate(s, d, refused, fate))
            case Finish(d, fate) => NotReadied(s, DoFinish(s, d, fate))
            case _ => true
  {
    hide WorkersOnly, DeletesOnly, SameObjects, RowGoesForward;
  }

  /** The row is what it was, or not ready. */
  ghost predicate NotReadied(s: World, t: World) {
    t.row == s.row || t.row.None? || !t.row.value.Ready()
  }

  lemma ReadyStaysNamed(n: Named, step: Step)
    requires NameInv(n)
    ensures ReadyIsNamed(ApplyNamed(n, Protocol(step)))
  {
    hide Inv, Apply, NamesAfter, Carry, EntriesAt, RowGoesForward;
    var (s, t) := (n.world, Apply(n.world, step));
    if t.row.Some? && t.row.value.Ready() {
      var gen := t.row.value.generation;
      if s.row == t.row {
        StepLeavesReadyAlone(s, step);
        NobodyUpsertsReady(s, step);
        CarryStays(n, step, gen, n.published);
      } else {
        StepGoesForward(s, step);
        OnlyCompletionsPublish(s, step);
        CarryStays(n, step, gen, n.claimed[step.worker]);
      }
    }
  }

  lemma NobodyUpsertsReady(s: World, step: Step)
    requires Inv(s) && s.row.Some? && s.row.value.Ready()
    ensures !UpsertsAt(s, step, s.row.value.generation)
  {
    hide Inv;
    if step.Upsert? && step.worker in s.workers {
      NobodyWorksOnReady(s, step.worker);
    }
  }

  lemma WorkersStayNamed(n: Named, step: Step)
    requires NameInv(n)
    ensures WorkersAreNamed(ApplyNamed(n, Protocol(step)))
  {
    hide Inv, Apply, NamesAfter, Carry, EntriesAt;
    var (s, t, m) := (n.world, Apply(n.world, step), ApplyNamed(n, Protocol(step)));
    forall w | w in t.workers
      ensures w in m.claimed
      ensures t.workers[w].phase == Publishing ==> Carry(t.index, m.names, t.workers[w].generation, m.claimed[w])
    {
      if w !in s.workers {
        NewAttemptsLoad(s, step, w);
      } else {
        NextIsNew(s, w);
        if t.workers[w].phase == Publishing {
          PublisherStays(n, step, w);
        }
      }
    }
  }

  lemma StepStaysNamed(n: Named, step: NamedStep)
    requires NameInv(n)
    ensures NameInv(ApplyNamed(n, step))
  {
    hide Inv, Apply, NamesAfter, PublishedAs, Carry, EntriesAt;
    match step
    case Protocol(p) =>
      StepKeeps(n.world, p);
      WorkersStayNamed(n, p);
      ReadyStaysNamed(n, p);
    case Rename(_) =>
  }

  lemma {:induction false} RunStaysNamed(n: Named, steps: seq<NamedStep>)
    requires NameInv(n)
    ensures NameInv(RunNamed(n, steps))
    decreases |steps|
  {
    hide NameInv, ApplyNamed;
    if steps != [] {
      StepStaysNamed(n, steps[0]);
      RunStaysNamed(ApplyNamed(n, steps[0]), steps[1..]);
    }
  }

  // ----- What the reader accepts ---------------------------------------------------------------------

  predicate IsReady(n: Named) {
    n.world.row.Some? && n.world.row.value.Ready()
  }

  /** The entries of the generation that the row names. */
  function ReadyEntries(n: Named): Entries
    requires IsReady(n)
  {
    EntriesAt(n.world.index, n.world.row.value.generation)
  }

  /** What `_validate_hit` compares: the name with the row's, and the content with its slice of the parsed object. */
  predicate Accepts(n: Named, i: nat)
    requires IsReady(n) && i in ReadyEntries(n)
  {
    var gen := n.world.row.value.generation;
    && NameOf(n.names, gen, i) == Some(n.name)
    && gen in n.world.store && PassesSliceCheck(ReadyEntries(n)[i], n.world.store[gen])
  }

  /**
   Whatever came before, a hit of a ready document passes the reader if and only if the row still has the name that
   the publishing attempt read when it claimed the document.
   */
  lemma HitsPassUnderThePublishedName(start: Named, steps: seq<NamedStep>, i: nat)
    requires Start(start.world)
    requires var n := RunNamed(start, steps); IsReady(n) && i in ReadyEntries(n)
    ensures var n := RunNamed(start, steps); Accepts(n, i) <==> n.name == n.published
  {
    hide Inv, PassesSliceCheck;
    StartIsNamed(start);
    RunStaysNamed(start, steps);
    RenamesDoNotMatter(start, steps);
    ReadyEntriesPassTheReader(start.world, Forgotten(steps), i);
  }

  // ----- As long as nobody renames -------------------------------------------------------------------

  predicate HasRename(steps: seq<NamedStep>) {
    exists i :: 0 <= i < |steps| && steps[i].Rename?
  }

  /** Whoever works on this generation or a later one, or has published it, has read this name. */
  ghost predicate SameName(n: Named, gen: nat, name: string) {
    && n.name == name
    && (forall w :: w in n.world.workers && n.world.workers[w].generation >= gen ==>
          w in n.claimed && n.claimed[w] == name)
    && (IsReady(n) && n.world.row.value.generation >= gen ==> n.published == name)
  }

  lemma QueuedHasNoWorkers(n: Named)
    requires Inv(n.world) && n.world.row.Some? && n.world.row.value.active && n.world.row.value.status == Queued
    ensures SameName(n, n.world.row.value.generation, n.name)
  {
    forall w | w in n.world.workers
      ensures n.world.workers[w].generation < n.world.row.value.generation
    {
      assert WorkerOk(n.world, w);
    }
  }

  /** No step moves an attempt to another generation. */
  lemma AttemptsKeepTheirGeneration(s: World, step: Step, w: nat)
    requires w in s.workers && w in Apply(s, step).workers && w < s.next
    ensures Apply(s, step).workers[w].generation == s.workers[w].generation
  {
    hide Apply;
    if Involves(step, HeldByWorker(w)) {
      if step.Acquire? || step.Crash? {
        HolderStepMovesOne(s, HeldByWorker(w));
      } else {
        WorkerStepMovesOne(s, step);
      }
    } else {
      StepStaysPut(s, step, HeldByWorker(w));
    }
  }

  lemma StepKeepsSameName(n: Named, step: Step, gen: nat, name: string)
    requires NameInv(n) && SameName(n, gen, name)
    ensures SameName(ApplyNamed(n, Protocol(step)), gen, name)
  {
    hide Inv, Apply, NamesAfter, WorkersAreNamed, ReadyIsNamed, RowGoesForward;
    var (s, t, m) := (n.world, Apply(n.world, step), ApplyNamed(n, Protocol(step)));
    forall w | w in t.workers && t.workers[w].generation >= gen
      ensures w in m.claimed && m.claimed[w] == name
    {
      if w !in s.workers {
        NewAttemptsLoad(s, step, w);
      } else {
        NextIsNew(s, w);
        AttemptsKeepTheirGeneration(s, step, w);
      }
    }
    if t.row != s.row && IsReady(m) {
      StepGoesForward(s, step);
      OnlyCompletionsPublish(s, step);
    }
  }

  lemma {:induction false} RunKeepsSameName(n: Named, steps: seq<NamedStep>, gen: nat, name: string)
    requires NameInv(n) && SameName(n, gen, name) && !HasRename(steps)
    ensures SameName(RunNamed(n, steps), gen, name)
    decreases |steps|
  {
    hide NameInv, SameName, ApplyNamed;
    if steps != [] {
      assert steps[0].Protocol?;
      StepStaysNamed(n, steps[0]);
      StepKeepsSameName(n, steps[0].step, gen, name);
      assert forall i :: 0 <= i < |steps[1..]| ==> steps[1..][i] == steps[i + 1];
      RunKeepsSameName(ApplyNamed(n, steps[0]), steps[1..], gen, name);
    }
  }

  /** From a queued row on, if nobody renames the document, every hit passes once it is ready. */
  lemma UnrenamedHitsPass(start: Named, before: seq<NamedStep>, later: seq<NamedStep>, i: nat)
    requires Start(start.world) && !HasRename(later)
    requires var q := RunNamed(start, before).world.row; q.Some? && q.value.active && q.value.status == Queued
    requires var n := RunNamed(RunNamed(start, before), later); IsReady(n) && i in ReadyEntries(n)
    ensures Accepts(RunNamed(RunNamed(start, before), later), i)
  {
    hide Inv, Accepts, NameInv, ApplyNamed;
    StartIsNamed(start);
    RunStaysNamed(start, before);
    var q := RunNamed(start, before);
    InvOfNamed(q);
    QueuedHasNoWorkers(q);
    var gen := q.world.row.value.generation;
    RunKeepsSameName(q, later, gen, q.name);
    RenamesDoNotMatter(q, later);
    RunGoesForward(q.world, Forgotten(later));
    RunsJoin(start, before, later);
    HitsPassUnderThePublishedName(start, before + later, i);
  }

  lemma InvOfNamed(n: Named)
    requires NameInv(n)
    ensures Inv(n.world)
  {
  }

  lemma {:induction false} RunsJoin(n: Named, first: seq<NamedStep>, second: seq<NamedStep>)
    ensures RunNamed(n, first + second) == RunNamed(RunNamed(n, first), second)
    decreases |first|
  {
    hide ApplyNamed;
    if first == [] {
      assert first + second == second;
    } else {
      assert (first + second)[1..] == first[1..] + second;
      RunsJoin(ApplyNamed(n, first[0]), first[1..], second);
    }
  }

  // ----- Renaming a ready document -------------------------------------------------------------------

  /**
   A ready document that is given another name keeps its entries, and the reader refuses every one of them; the old
   name brings them back.
   */
  lemma RenamingHidesTheDocument(start: Named, steps: seq<NamedStep>, raw: string)
    requires Start(start.world)
    requires var n := RunNamed(start, steps); IsReady(n) && n.name == n.published != Stripped(raw)
    requires 0 < |Stripped(raw)| <= MAX_RESOURCE_NAME_LENGTH
    ensures var n := RunNamed(start, steps);
            var m := RunNamed(n, [Rename(raw)]);
            && IsReady(m) && ReadyEntries(m) == ReadyEntries(n) != map[]
            && forall i :: i in ReadyEntries(n) ==> Accepts(n, i) && !Accepts(m, i)
  {
    hide Inv, Accepts, PassesSliceCheck;
    var n := RunNamed(start, steps);
    var m := RunNamed(n, [Rename(raw)]);
    RunsJoin(start, steps, [Rename(raw)]);
    RenamesDoNotMatter(start, steps);
    ReadyHasEntries(start.world, Forgotten(steps));
    forall i | i in ReadyEntries(n)
      ensures Accepts(n, i) && !Accepts(m, i)
    {
      HitsPassUnderThePublishedName(start, steps, i);
      HitsPassUnderThePublishedName(start, steps + [Rename(raw)], i);
    }
  }

  function AsNamed(steps: seq<Step>): seq<NamedStep> {
    seq(|steps|, i requires 0 <= i < |steps| => Protocol(steps[i]))
  }

  lemma {:induction false} NothingForgotten(steps: seq<Step>)
    ensures Forgotten(AsNamed(steps)) == steps
  {
    if steps != [] {
      assert AsNamed(steps)[1..] == AsNamed(steps[1..]);
      NothingForgotten(steps[1..]);
    }
  }

  const UPLOAD := [PutSource(Returned), InsertRow(Returned)]

  lemma UploadIs(s: World)
    requires Start(s)
    ensures Run(s, UPLOAD) == s.(source := true, row := Some(NEW_ROW), upload := Uploaded)
  {
    assert UPLOAD[1..] == [InsertRow(Returned)];
    assert UPLOAD[1..][1..] == [];
  }

  /** An upload and one attempt that nobody disturbs: every hit passes. The document may then be renamed. */
  lemma UploadedDocumentsAreFound(start: Named, text: string)
    requires Start(start.world) && text in start.world.texts && !IsBlank(text)
    ensures var n := RunNamed(RunNamed(start, AsNamed(UPLOAD)), AsNamed(UndisturbedRun(start.world.next, text, false)));
            IsReady(n) && n.name == n.published == start.name
  {
    hide Inv, NameInv, ApplyNamed, Run, UndisturbedRun;
    var steps := UndisturbedRun(start.world.next, text, false);
    NothingForgotten(UPLOAD);
    NothingForgotten(steps);
    StartIsNamed(start);
    RunStaysNamed(start, AsNamed(UPLOAD));
    RenamesDoNotMatter(start, AsNamed(UPLOAD));
    var q := RunNamed(start, AsNamed(UPLOAD));
    UploadIs(start.world);
    InvOfNamed(q);
    QueuedHasNoWorkers(q);
    NobodyRenames(start, UPLOAD);
    UndisturbedRunPublishes(start.world, UPLOAD, text, false);
    RenamesDoNotMatter(q, AsNamed(steps));
    RunKeepsSameName(q, AsNamed(steps), 1, q.name);
    RunGoesForward(q.world, steps);
  }

  lemma {:induction false} NobodyRenames(n: Named, steps: seq<Step>)
    ensures RunNamed(n, AsNamed(steps)).name == n.name
    decreases |steps|
  {
    hide Apply, NamesAfter, PublishedAs;
    if steps != [] {
      assert AsNamed(steps)[1..] == AsNamed(steps[1..]);
      NobodyRenames(ApplyNamed(n, Protocol(steps[0])), steps[1..]);
    }
  }

  lemma ReadyHasEntries(start: World, steps: seq<Step>)
    requires Start(start)
    requires var s := Run(start, steps); s.row.Some? && s.row.value.Ready()
    ensures var s := Run(start, steps); EntriesAt(s.index, s.row.value.generation) != map[]
  {
    StartIsSafe(start);
    RunKeeps(start, steps);
    var s := Run(start, steps);
    var gen := s.row.value.generation;
    NoChunksOnlyForBlankText(s.store[gen], s.sizes);
    assert 0 in AllEntries(s.store[gen], s.sizes);
  }
}
