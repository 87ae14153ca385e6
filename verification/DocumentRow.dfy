/**
 The Knowledge Document row and what the repository may do to it. `Row` is the value of the row's
 protocol columns; `KnowledgeDocument` is the row itself, updated in place as the repository does.
 */
module DocumentRow {
  import opened Outcomes

  datatype Status = Queued | Processing | Ready | Failed

  datatype ErrorCode = IndexFailed | CleanupPending | CleanupFailed

  /** `parsed` is the generation whose parsed key the row names. */
  datatype Row = Row(
    generation: nat,
    status: Status,
    attempt: Option<nat>,
    parsed: Option<nat>,
    active: bool,
    cleanup: Option<nat>,
    error: Option<ErrorCode>)
  {
    predicate Ready() {
      active && status == Status.Ready
    }

    /** A delete has finished: what `_cleanup_is_complete` asks. */
    predicate Deleted() {
      !active && cleanup.None? && error.None?
    }

    /** The row an attempt still owns, whatever else happens to other rows. */
    predicate OwnedBy(gen: nat, attemptId: nat) {
      active && generation == gen && status == Processing && attempt == Some(attemptId)
    }
  }

  datatype Disposition = Owned | Superseded | Obsolete

  function Judge(row: Option<Row>, gen: nat, attemptId: nat): Disposition {
    if row.None? then Obsolete
    else if !row.value.active || row.value.generation != gen then Obsolete
    else if row.value.status == Processing && row.value.attempt == Some(attemptId) then Owned
    else Superseded
  }

  /** What no transaction undoes: generations do not go back, inactive rows stay so, verdicts stand. */
  ghost predicate Forward(before: Row, after: Row) {
    && before.generation <= after.generation
    && (after.active ==> before.active)
    && (after.generation == before.generation && after.active ==>
          && (before.status == Ready ==> after == before)
          && (before.status == Failed ==> after.status == Failed)
          && (before.status != Queued ==> after.status != Queued))
  }

  const NEW_ROW := Row(1, Queued, None, None, true, None, None)

  // ----- Transitions, as values ----------------------------------------------------------------------

  /** `stale` stands for `updated_at < stale_before`, which this model leaves to chance. */
  predicate Claimable(row: Row, stale: bool) {
    row.active && (row.status == Queued || (row.status == Processing && stale))
  }

  function Claimed(row: Row, attemptId: nat): Row {
    row.(status := Processing, attempt := Some(attemptId))
  }

  function Completed(row: Row, gen: nat, attemptId: nat): (Row, bool) {
    if row.OwnedBy(gen, attemptId)
    then (row.(status := Ready, parsed := Some(gen), error := None, attempt := None), true)
    else (row, false)
  }

  function FailedBy(row: Row, gen: nat, attemptId: nat): (Row, bool) {
    if row.OwnedBy(gen, attemptId)
    then (row.(status := Failed, error := Some(IndexFailed), attempt := None), true)
    else (row, false)
  }

  /** A re-index request is honoured unless work is queued or under way and not stale. */
  predicate Reindexable(row: Row, stale: bool) {
    row.active && row.status != Queued && (row.status == Processing ==> stale)
  }

  /** The bump that both `reindex` and a collection edit make before `queue`. */
  function Requeued(row: Row): Row {
    Row(row.generation + 1, Queued, None, None, row.active, None, None)
  }

  function CleanupBegun(row: Row, cleanupId: nat): Row {
    row.(active := false, attempt := None, cleanup := Some(cleanupId), error := Some(CleanupPending))
  }

  function CleanupMarkedFailed(row: Row, cleanupId: nat): (Row, bool) {
    if !row.active && row.cleanup == Some(cleanupId)
    then (row.(error := Some(CleanupFailed), cleanup := None), true)
    else (row, false)
  }

  function CleanupCleared(row: Row, cleanupId: nat): (Row, bool) {
    if !row.active && row.cleanup == Some(cleanupId)
    then (row.(error := None, cleanup := None), true)
    else (row, false)
  }

  // ----- The row updated in place --------------------------------------------------------------------

  class KnowledgeDocument {
    const id: nat
    const collectionId: nat
    const userId: nat
    var retrieverType: string
    var updatedAt: int
    var indexGeneration: nat
    var status: Status
    var processingAttemptId: Option<nat>
    var parsedObjectKey: Option<nat>
    var isActive: bool
    var cleanupAttemptId: Option<nat>
    var errorCode: Option<ErrorCode>

    function Value(): Row
      reads this
    {
      Row(indexGeneration, status, processingAttemptId, parsedObjectKey, isActive, cleanupAttemptId, errorCode)
    }

    /** Claimable, and in a live Collection of the same owner. */
    predicate Qualifies(liveCollections: map<nat, nat>, staleBefore: int)
      reads this
    {
      && Claimable(Value(), updatedAt < staleBefore)
      && collectionId in liveCollections && liveCollections[collectionId] == userId
    }

    /** The order in which documents are claimed. */
    predicate IsNotAfter(other: KnowledgeDocument)
      reads this, other
    {
      updatedAt < other.updatedAt || (updatedAt == other.updatedAt && id <= other.id)
    }

    constructor (id: nat, collectionId: nat, userId: nat, retrieverType: string, now: int)
      ensures Value() == NEW_ROW
      ensures this.id == id && this.collectionId == collectionId && this.userId == userId
      ensures this.retrieverType == retrieverType && updatedAt == now
    {
      this.id, this.collectionId, this.userId := id, collectionId, userId;
      this.retrieverType, updatedAt := retrieverType, now;
      indexGeneration, status, processingAttemptId := 1, Queued, None;
      parsedObjectKey, isActive, cleanupAttemptId, errorCode := None, true, None, None;
    }

    method CompleteGeneration(gen: nat, attemptId: nat, retriever: string, now: int) returns (published: bool)
      modifies this
      ensures published
              <==> old(isActive && indexGeneration == gen && status == Processing
                       && processingAttemptId == Some(attemptId) && retrieverType == retriever)
      ensures published ==>
                && status == Ready && parsedObjectKey == Some(gen) && indexGeneration == gen && isActive
                && processingAttemptId == None && errorCode == None && cleanupAttemptId == old(cleanupAttemptId)
      ensures published == (old(Completed(Value(), gen, attemptId)).1 && old(retrieverType) == retriever)
      ensures Value() == if published then old(Completed(Value(), gen, attemptId)).0 else old(Value())
      ensures updatedAt == if published then now else old(updatedAt)
      ensures retrieverType == old(retrieverType)
    {
      published := indexGeneration == gen && status == Processing && isActive
                   && processingAttemptId == Some(attemptId) && retrieverType == retriever;
      if published {
        status, updatedAt := Ready, now;
        parsedObjectKey := Some(gen);
        errorCode := None;
        processingAttemptId := None;
      }
    }

    method FailGeneration(gen: nat, attemptId: nat, now: int) returns (marked: bool)
      modifies this
      ensures marked
              <==> old(isActive && indexGeneration == gen && status == Processing
                       && processingAttemptId == Some(attemptId))
      ensures marked ==>
                && status == Failed && errorCode == Some(IndexFailed) && processingAttemptId == None && isActive
                && indexGeneration == gen && parsedObjectKey == old(parsedObjectKey)
                && cleanupAttemptId == old(cleanupAttemptId)
      ensures (Value(), marked) == old(FailedBy(Value(), gen, attemptId))
      ensures updatedAt == if marked then now else old(updatedAt)
      ensures retrieverType == old(retrieverType)
    {
      marked := indexGeneration == gen && status == Processing && isActive && processingAttemptId == Some(attemptId);
      if marked {
        status, updatedAt := Failed, now;
        errorCode := Some(IndexFailed);
        processingAttemptId := None;
      }
    }

    method Queue(now: int)
      modifies this
      ensures status == Queued && processingAttemptId == None && cleanupAttemptId == None && errorCode == None
      ensures indexGeneration == old(indexGeneration) && parsedObjectKey == old(parsedObjectKey)
      ensures isActive == old(isActive)
      ensures updatedAt == now && retrieverType == old(retrieverType)
    {
      status, updatedAt := Queued, now;
      processingAttemptId := None;
      cleanupAttemptId := None;
      errorCode := None;
    }

    /**
     `reindex`, of a document that the actor may manage: one that is ready or failed, or in processing for longer than
     the time-out, is queued as the next generation, with the Collection's retriever.
     */
    method Reindex(timeout: nat, now: int, retriever: string)
      modifies this
      ensures old(isActive && (status == Ready || status == Failed
                               || (status == Processing && updatedAt < now - timeout))) ==>
                && indexGeneration == old(indexGeneration) + 1 && status == Queued && isActive
                && parsedObjectKey == None && processingAttemptId == None && cleanupAttemptId == None
                && errorCode == None && retrieverType == retriever && updatedAt == now
      ensures old(!isActive || status == Queued || (status == Processing && updatedAt >= now - timeout)) ==>
                unchanged(this)
      ensures var honoured := old(Reindexable(Value(), updatedAt < now - timeout));
              && Value() == (if honoured then old(Requeued(Value())) else old(Value()))
              && retrieverType == (if honoured then retriever else old(retrieverType))
              && updatedAt == (if honoured then now else old(updatedAt))
    {
      if !isActive {
        return;
      }
      if status == Queued || status == Processing {
        var isStale := status == Processing && updatedAt < now - timeout;
        if !isStale {
          return;
        }
      }
      indexGeneration := indexGeneration + 1;
      retrieverType := retriever;
      parsedObjectKey := None;
      Queue(now);
    }

    method BeginCleanup(cleanupId: nat, now: int)
      modifies this
      ensures !isActive && cleanupAttemptId == Some(cleanupId) && errorCode == Some(CleanupPending)
      ensures processingAttemptId == None && indexGeneration == old(indexGeneration) && status == old(status)
      ensures parsedObjectKey == old(parsedObjectKey)
      ensures Value() == old(CleanupBegun(Value(), cleanupId))
      ensures updatedAt == now && retrieverType == old(retrieverType)
    {
      isActive := false;
      processingAttemptId := None;
      cleanupAttemptId := Some(cleanupId);
      errorCode := Some(CleanupPending);
      updatedAt := now;
    }

    method MarkCleanupFailedIfInactive(cleanupId: nat, now: int) returns (marked: bool)
      modifies this
      ensures marked <==> old(!isActive && cleanupAttemptId == Some(cleanupId))
      ensures marked ==> errorCode == Some(CleanupFailed) && cleanupAttemptId == None && !isActive
      ensures indexGeneration == old(indexGeneration) && status == old(status) && isActive == old(isActive)
      ensures (Value(), marked) == old(CleanupMarkedFailed(Value(), cleanupId))
      ensures updatedAt == if marked then now else old(updatedAt)
      ensures retrieverType == old(retrieverType)
    {
      marked := !isActive && cleanupAttemptId == Some(cleanupId);
      if marked {
        errorCode, updatedAt := Some(CleanupFailed), now;
        cleanupAttemptId := None;
      }
    }

    method ClearCleanupErrorIfInactive(cleanupId: nat, now: int) returns (cleared: bool)
      modifies this
      ensures cleared <==> old(!isActive && cleanupAttemptId == Some(cleanupId))
      ensures cleared ==> errorCode == None && cleanupAttemptId == None && !isActive
      ensures indexGeneration == old(indexGeneration) && status == old(status) && isActive == old(isActive)
      ensures (Value(), cleared) == old(CleanupCleared(Value(), cleanupId))
      ensures updatedAt == if cleared then now else old(updatedAt)
      ensures retrieverType == old(retrieverType)
    {
      cleared := !isActive && cleanupAttemptId == Some(cleanupId);
      if cleared {
        errorCode, updatedAt := None, now;
        cleanupAttemptId := None;
      }
    }
  }

  /**
   `claim_next`: null exactly if no document waits, queued or in processing for too long, in a live Collection of its
   owner. Of those that do, the one that waits longest is claimed, and no other row changes. Since the claim renews its
   time, the next claim prefers every document that still waits.
   */
  method ClaimNext(documents: seq<KnowledgeDocument>, liveCollections: map<nat, nat>, staleBefore: int, now: int,
                   attemptId: nat) returns (claimed: KnowledgeDocument?)
    modifies documents
    ensures claimed == null
            <==> !exists d :: d in documents
                   && d.collectionId in liveCollections && liveCollections[d.collectionId] == d.userId
                   && old(d.isActive)
                   && (old(d.status) == Queued || (old(d.status) == Processing && old(d.updatedAt) < staleBefore))
    ensures claimed != null ==>
              && claimed in documents
              && claimed.collectionId in liveCollections && liveCollections[claimed.collectionId] == claimed.userId
              && old(claimed.isActive)
              && (old(claimed.status) == Queued
                  || (old(claimed.status) == Processing && old(claimed.updatedAt) < staleBefore))
              && forall d :: && d in documents
                             && d.collectionId in liveCollections && liveCollections[d.collectionId] == d.userId
                             && old(d.isActive)
                             && (old(d.status) == Queued
                                 || (old(d.status) == Processing && old(d.updatedAt) < staleBefore)) ==>
                   old(claimed.updatedAt) < old(d.updatedAt)
                   || (old(claimed.updatedAt) == old(d.updatedAt) && claimed.id <= d.id)
    ensures claimed != null ==>
              && claimed.status == Processing && claimed.processingAttemptId == Some(attemptId)
              && claimed.updatedAt == now
              && claimed.indexGeneration == old(claimed.indexGeneration) && claimed.isActive
              && claimed.parsedObjectKey == old(claimed.parsedObjectKey)
              && claimed.cleanupAttemptId == old(claimed.cleanupAttemptId)
              && claimed.errorCode == old(claimed.errorCode) && claimed.retrieverType == old(claimed.retrieverType)
    ensures claimed != null ==> claimed.Value() == old(Claimed(claimed.Value(), attemptId))
    ensures forall d :: d in documents && d != claimed ==> unchanged(d)
  {
    claimed := null;
    for i := 0 to |documents|
      invariant claimed == null ==> forall j :: 0 <= j < i ==> !documents[j].Qualifies(liveCollections, staleBefore)
      invariant claimed != null ==>
                  && claimed in documents && claimed.Qualifies(liveCollections, staleBefore)
                  && forall j :: 0 <= j < i && documents[j].Qualifies(liveCollections, staleBefore) ==>
                       claimed.IsNotAfter(documents[j])
      invariant forall d :: d in documents ==> unchanged(d)
    {
      if documents[i].Qualifies(liveCollections, staleBefore) && (claimed == null || documents[i].IsNotAfter(claimed)) {
        claimed := documents[i];
      }
    }
    if claimed != null {
      claimed.status, claimed.updatedAt := Processing, now;
      claimed.processingAttemptId := Some(attemptId);
    }
  }
}
