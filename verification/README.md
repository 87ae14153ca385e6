# Verification model of the chat and knowledge backend

This project models the stateful core of the backend in Dafny and proves what that core is for: a knowledge index that
is exact whenever a document is `ready`, two stream stores that cannot be told apart below a byte cap, a reducer whose
persisted chain, UI blocks and emissions agree, tasks whose rows stay consistent through cancels and crashes, references
that are never broken, and token budgets with the exact condition under which a round of tool calls keeps them.

`dafny verify dfyconfig.toml` checks everything. Each file holds one module of the same name.

## How it is organised

- **Indexing.** `DocumentRow` is the row and its conditional updates; `IndexProtocol` is one document, its object store,
  its retrieval index and everybody who changes them, as a state machine of 29 steps in which every external call may
  return, raise before, raise after or take effect in part; `IndexSafety` is the invariant; `IndexTheorems` are the
  promises over all runs, `IndexCourses` the undisturbed delete and failure, and when a source is lost. `DocumentNames`
  puts the document's name, which may change at any time, beside the protocol. `IndexWorker` is `run_once` and the delete
  request as programs in which everybody else may take any number of steps between any two of their own; `IndexFrames`
  says what those others can do. `DocumentLocks` is the sharded lock behind the single lock holder of the protocol,
  `ObjectKeys` the object keys, `Chunking` the splitter.
- **Stream stores.** `StreamSpec` says once what the operations do. `MemoryStream` (two dictionaries) and `RedisStream`
  (keys and hashes, with the script decisions in `RedisKeys`) are both proved against it; `StreamTheorems` compares them
  over whole runs, and `StreamHistory` says by calls and replies alone what a stream is. `Utf8` is the byte scanner of the
  append script and the UTF-16 lengths.
- **JSON.** `JsonSafety` has trees, limits and sizes; `JsonWalk` the explicit-stack walk over shared and cyclic values;
  `CanonicalOrder` sorts the keys, and `CanonicalText` prints the text whose length the sizes are. `JsonReader` reads JSON
  text as RFC 8259 defines it, and `CanonicalData` says when two values are equal.
- **Runtime events.** `Reduction` is the reduction as a function, `RuntimeReducer` the object that performs it in place;
  `ReductionSafety`, `ReductionTheorems` and `Emissions` prove what runs of accepted events amount to, `StreamedRuns` what
  a stream store makes of their emissions, `RefusedEvents` and `PartialResults` what is left and saved when events are
  refused. `RunRecords` says over the fields of the events what a run leaves on record, and `Acceptance` which event may
  come next and when a run finishes. `ChatBlocks` and `MessageChain` are the blocks and the chain with its validator,
  `ChainRules` which chains that accepts, `StoredForms` the dictionaries they are stored as.
- **Tasks.** `TaskRows` are the transitions of the repository, `TaskTransitions` what each makes of every field,
  `TaskExecution` the cancellation state, `TaskLifecycle` all interleavings of the two, `TaskOutcomes` what an execution
  leaves behind, `RuntimeTurns` the rebuilt conversation.
- **Resources.** `Resources` and `ResourceSafety` are the operations and the reference invariant, `ResourceRules` who may
  do what and what then changes, `ResourceServices` the services with their loops over rows.
- **Budgets.** `TokenCounter`, `ContextSelection` and `ToolBudget`, and `Transcripts`, which reads rendered messages back.
- `Outcomes`, `Texts`, `Sequences`, `BlockIds` and `Decimal` are small shared notions.

Where the Python code updates an object in place, a class has the same fields and its methods are proved against a function
of the old state; the theorems are about those functions and hold of the class through the methods' contracts. What the
central ones do is proved once more without naming them, over fields, events, calls with their replies, or by a reader.

## Main results

- Indexing: `IndexTheorems.ReadyRowsAreExact`, `IndexTheorems.ReadyProjectionIsLeftAlone`,
  `IndexTheorems.FinishedDeletesArePermanent`, `IndexTheorems.UndisturbedRunPublishes`,
  `IndexCourses.UndisturbedDeleteFinishes`, `IndexCourses.SourceIsLostExactly`,
  `DocumentNames.HitsPassUnderThePublishedName`, `IndexWorker.Deployment.RunOnce`
- Chunks: `Chunking.RangesTile`, `Chunking.DroppingOverlapsRebuilds`, `Chunking.ChunksPassTheReader`
- Streams: `StreamTheorems.StoresRunInLockstep`, `StreamHistory.StreamIsItsHistory`, `StreamHistory.StreamLivesExactly`,
  `Utf8.ScanUtf16Units`
- JSON: `JsonWalk.CanonicalJson`, `JsonReader.CanonicalTextsAreFaithful`, `CanonicalText.SizeIsTheLength`
- Events: `RuntimeReducer.WholeRun`, `Acceptance.RunGoesOnExactly`, `Acceptance.FinishesExactly`,
  `StreamedRuns.WholeRunStreams`, `ChainRules.ValidatedExactly`, `PartialResults.PartialResultIsValid`
- Tasks: `TaskLifecycle.TaskStatusIsTheAssistants`, `TaskLifecycle.AcceptedCancelsAreHonoured`, `TaskLifecycle.DoneIsDone`,
  `TaskOutcomes.LeavesLiveExactly`, `TaskTransitions.RecoveryFailsInterrupted`, `TaskTransitions.UndisturbedTurnEnds`,
  `RuntimeTurns.EveryReachableHistoryIsValid`
- Resources: `ResourceSafety.NoTurnMeetsABadReference`, `ResourceRules.DeletesAre`
- Budgets: `ContextSelection.SelectTurns`, `Transcripts.MessagesReadBack`, `ToolBudget.BudgetHoldsExactly`

## Five findings

- The append script checks the old text and the chunk against the byte cap, but not their sum
  (`backend/app/services/chat_stream_redis.py:147-150`), so the Redis store can take texts that it cannot give back. The
  stores differ exactly on acceptable appends at the right offset of a live stream whose text, or whose chunk, is beyond
  the cap, and on snapshots of live streams that do not fit (`StreamTheorems.StoresAgreeExactlyBelowTheCap`, over runs
  `StreamTheorems.StoresRunInLockstep`). `StreamTheorems.SnapshotsPartBeyondTheCap` gives two accepted chunks after which
  only one store still has a snapshot.
- `partial_result` raises exactly where an unfinished tool block has fewer than 4 JSON nodes, or fewer than 45 octets, left
  below the limits, since the note that it was interrupted needs them (`PartialResults.PartialResultIsValid`). A call with
  some 49980 array elements in its arguments is such a block
  (`PartialResults.CrowdedCallsHaveNoPartialResult`).
- The answer to a call of an unknown tool is not fitted to its share (`backend/app/services/react_loop.py:244-246`), so a
  round can go on above the token budget (`ToolBudget.UnknownToolsMayExceed`). It cannot exactly if the condition of
  `ToolBudget.BudgetHoldsExactly` holds, which is known before any tool runs.
- Renaming a document does not touch its index entries (`backend/app/services/knowledge_document_service.py:318-339`), and
  the reader refuses every hit whose stored file name is not the row's name
  (`backend/app/services/knowledge_retrieval_service.py:355`). So a hit of a ready document passes exactly if the row has
  the name that the publishing attempt read (`DocumentNames.HitsPassUnderThePublishedName`): a renamed document is refused
  (`DocumentNames.RenamingHidesTheDocument`) until it is indexed again (`DocumentNames.UnrenamedHitsPass`) or gets its old
  name back.
- When the commit of an upload raises although it took effect, the handler deletes the source object of the row that is
  there (`backend/app/services/knowledge_document_service.py:264-281`): an active, queued document that no attempt can read
  (`IndexCourses.AmbiguousInsertsLoseTheSource`, `IndexCourses.LoadingNeedsTheSource`). This is the only way for an active
  document to lose its source (`IndexCourses.SourceIsLostExactly`).

## Model

| member | source | states |
|---|---|---|
| IndexSafety.RunKeeps | backend/app/services/knowledge_index_worker.py:158-271 | In every run of claims, takeovers, re-index requests, collection edits, uploads, deletes, failing external calls and crashes, in any order: a worker or a delete request past its lock acquisition is the one lock holder, every live attempt is of a generation the row has reached, and the promises about ready and deleted rows hold. |
| IndexTheorems.ReadyRowsAreExact | backend/app/services/knowledge_index_worker.py:199-226 | In every state reachable from an empty deployment, an active `ready` row names the parsed key of its own generation, that object holds a text of the source, and the index at that generation holds exactly the chunks of that text under the collection's current size and overlap: none missing, none extra, none stale. |
| IndexTheorems.ReadyEntriesPassTheReader | backend/app/services/knowledge_retrieval_service.py:359-365 | In every reachable state, every hit the reader can get for a ready generation passes its slice check against the parsed object. |
| DocumentNames.HitsPassUnderThePublishedName | backend/app/services/knowledge_retrieval_service.py:353-365 | In every state that steps of the protocol and renames can reach, the reader accepts a hit of a ready document, by name and by slice, if and only if the row still has the name that the publishing attempt read at its claim. |
| DocumentNames.UnrenamedHitsPass | backend/app/repositories/knowledge_document_repository.py:84-105 | From a queued row on, whatever claims, takeovers, re-index requests, collection edits, failures and crashes follow, every hit of the document passes the reader once it is ready, as long as nobody renames it meanwhile. |
| DocumentNames.RenamingHidesTheDocument | backend/app/services/knowledge_document_service.py:318-339 | Giving a ready document another name than the one it was published under keeps it ready with all its entries, of which there is at least one; the reader accepted every one of them before and refuses every one of them afterwards. |
| DocumentNames.UploadedDocumentsAreFound | backend/app/services/knowledge_index_worker.py:158-231 | Such documents exist: after an upload and one undisturbed attempt the document is ready, under the name it was uploaded with. |
| DocumentNames.RenamesDoNotMatter | backend/app/repositories/knowledge_document_repository.py:347-356 | Renames are no steps of the protocol: without them, a run is a run of the protocol, so every promise about its runs holds beside any renames. |
| IndexTheorems.ObsoleteIsStable | backend/app/services/knowledge_index_worker.py:330-348 | An attempt that was once judged obsolete is judged obsolete after any further steps, so its cleanup deletes nothing that a newer attempt needs. |
| IndexTheorems.FailedGenerationIsNeverReused | backend/app/repositories/knowledge_document_repository.py:141-170 | After a failure the row stays failed or moves to a strictly larger generation; no step ever processes the failed generation again. |
| IndexTheorems.RunGoesForward | backend/app/repositories/knowledge_document_repository.py:358-383 | Over any run generations never decrease, an inactive row never becomes active again, a ready row changes only with its generation, and a generation that left the queue does not return to it. |
| IndexTheorems.ReadyProjectionIsLeftAlone | backend/app/services/knowledge_index_worker.py:350-446 | As long as a published generation stays the active one, no step of any late, superseded or obsolete attempt changes its row, its parsed object or its index entries. |
| IndexTheorems.FinishedDeletesArePermanent | backend/app/api/knowledge.py:331-389 | Once a delete has finished (row inactive, cleanup attempt and error cleared) there is no source object, no parsed object and no index entry, and after any later steps of anybody there still is none. |
| IndexTheorems.UndisturbedRunPublishes | backend/app/services/knowledge_index_worker.py:158-231 | The protocol is not empty: from any reachable state with its source and a free lock in which the row is queued, or was left in processing by an attempt that takes too long, one undisturbed attempt publishes that generation, unless an object with a different text already sits at its parsed key. |
| IndexTheorems.OnlyWaitingRowsAreClaimed | backend/app/repositories/knowledge_document_repository.py:48-105 | A claim changes something exactly if the row is active and queued, or in processing for too long; it then belongs to the new attempt, which works on the row's generation with the current sizes. |
| IndexTheorems.ReindexQueuesTheNext | backend/app/services/knowledge_document_service.py:282-316 | A re-index request changes exactly the active rows that are ready, failed or in processing for too long: they are queued as the next generation without a trace of the last one. |
| IndexTheorems.ReindexingPublishesTheNext | backend/app/services/knowledge_document_service.py:282-316 | In every reachable state with a ready row, its source and a free lock, a re-index request and one undisturbed attempt make the row ready again at the next generation. |
| IndexTheorems.NewSizesQueueTheNext | backend/app/services/knowledge_collection_service.py:179-253 | New sizes queue every active document again as its next generation, whatever its status; unchanged or forbidden sizes do nothing. |
| IndexCourses.UndisturbedDeleteFinishes | backend/app/api/knowledge.py:331-389 | Whenever the lock is free, a delete request in which no call fails finishes: the row is inactive and shows neither a cleanup attempt nor an error, and no source, no parsed object and no entry is left. |
| IndexCourses.RefusedDeletesChangeNothing | backend/app/services/knowledge_document_service.py:341-367 | A delete of an active document that a live Agent names ends without a change. |
| IndexCourses.UndisturbedFailureIsRecorded | backend/app/services/knowledge_index_worker.py:232-271 | An attempt that cannot read its source, and which nobody disturbs, leaves the row failed with the error code, and of its generation neither an object nor an entry; other generations keep theirs. |
| IndexCourses.LoadingNeedsTheSource | backend/app/services/knowledge_index_worker.py:173-197 | An attempt goes on exactly if the source is there and gives a text that is not blank, with that text; otherwise it has failed. |
| IndexCourses.SourceIsLostExactly | backend/app/services/knowledge_document_service.py:196-281 | In every reachable state: a new row has its source, and an active row loses it exactly when the clean-up of its own upload deletes it, after an insert that raised though it had taken effect. |
| IndexCourses.ActiveDocumentsHaveTheirSource | backend/app/services/knowledge_document_service.py:196-281 | As long as no insert raises after it took effect, every active document has its source, in every reachable state. |
| IndexCourses.AmbiguousInsertsLoseTheSource | backend/app/services/knowledge_document_service.py:264-281 | If one does, the clean-up leaves an active, queued row without a source. |
| DocumentRow.ClaimNext | backend/app/repositories/knowledge_document_repository.py:48-105 | Nothing is claimed exactly if no active document in a live Collection of its owner is queued, or in processing and last updated before the given time. Otherwise the one of these that waits longest is claimed, ties broken by id, for the new attempt; no other row changes. |
| IndexFrames.StepStaysPut | backend/app/services/knowledge_index_worker.py:199-231 | A step of anybody else neither moves a given worker or delete request nor ends it. |
| IndexFrames.OnlyTheHolderTouches | backend/app/services/knowledge_index_worker.py:199-231 | While somebody holds the document lock, no step of anybody else changes a parsed object or an index entry. |
| IndexFrames.OthersRespect | backend/app/services/knowledge_index_worker.py:316-328 | Steps of anybody else keep the invariant, leave a given worker or delete request where it is and, while it holds the lock, leave every object and entry alone: all the interference there is between two steps of a program. |
| IndexFrames.FinishLeads | backend/app/api/knowledge.py:72-89 | In every reachable state in which a delete comes to its last update, the row still names its cleanup attempt: the conditional update always matches, so the answer never depends on `_cleanup_is_complete`, and the row ends up deleted exactly if no part failed. |
| IndexWorker.Deployment.RunOnce | backend/app/services/knowledge_index_worker.py:158-271 | The whole of `run_once` as a program, with arbitrary interference between any two steps: it reports work only on a claimable row and otherwise changes nothing; when it ends, the attempt is gone and holds no lock; if it reports publication, its own completion made the row ready; and a ready row is exact. |
| IndexWorker.Deployment.IndexClaimed | backend/app/services/knowledge_index_worker.py:173-231 | The `try` block ends the attempt, or leaves it where the handler takes over; publication is reported only after this attempt's own completion left a ready row. |
| IndexWorker.Deployment.PrepareForMutation | backend/app/services/knowledge_index_worker.py:316-328 | It lets the attempt go on only where the claim is owned at that moment; otherwise the attempt is over, or an exception leads to the handler. |
| IndexWorker.Deployment.PutParsed | backend/app/services/knowledge_index_worker.py:297-314 | After it returns normally, the attempt is what it was, and the parsed object of its generation holds its text, whether it was put now or found there. |
| IndexWorker.Deployment.Rebuild | backend/app/services/knowledge_index_worker.py:206-216 | After it returns normally, the index holds for the attempt's generation exactly the chunks of its text under its sizes, whatever an earlier attempt left there, and the parsed object still holds the text. |
| IndexWorker.Deployment.Publish | backend/app/services/knowledge_index_worker.py:218-231 | It reports publication only if this attempt's own completion, among the steps since, left the row ready; the attempt is then over or an exception leads to the handler. |
| IndexWorker.Deployment.HandleFailure | backend/app/services/knowledge_index_worker.py:232-271 | Wherever the exception came from, the handler, which takes the lock again, leaves neither the attempt nor its hold on the lock; and if its transaction took effect, then at that step a claim that was still owned was recorded as failed, and any other row was left as it was. |
| IndexWorker.Deployment.CleanupStaleAttempt | backend/app/services/knowledge_index_worker.py:420-446 | When it records no error, neither the parsed object nor an index entry of the attempt's generation is left, whatever others did meanwhile. |
| IndexWorker.Deployment.CleanupPublishedOldGenerations | backend/app/services/knowledge_index_worker.py:350-418 | When its loop over the listed keys records no error, no object and no entry of any older generation is left. |
| IndexWorker.Deployment.DeleteDocument | backend/app/api/knowledge.py:331-389 | A delete request that answers complete has left neither source nor parsed objects nor entries, and its row says so (inactive, no cleanup attempt, no error); in any case the request is over when it returns. |
| IndexWorker.Deployment.CleanupInactive | backend/app/services/knowledge_document_service.py:124-178 | The cleanup tries every part in order, whatever fails on the way, and reaches its end. |
| DocumentRow.KnowledgeDocument.CompleteGeneration | backend/app/repositories/knowledge_document_repository.py:107-139 | The conditional update matches exactly the row that the attempt still owns and whose retriever is the one it used; a row that does not match stays as it is. |
| DocumentRow.KnowledgeDocument.FailGeneration | backend/app/repositories/knowledge_document_repository.py:141-170 | A failure is stored exactly in the row that the attempt still owns; a row that does not match stays as it is. |
| DocumentRow.KnowledgeDocument.Reindex | backend/app/services/knowledge_document_service.py:282-316 | A re-index request bumps the generation of failed, ready and stale rows, takes the Collection's retriever over, and leaves every other row as it is. |
| DocumentRow.KnowledgeDocument.BeginCleanup | backend/app/repositories/knowledge_document_repository.py:371-383 | Deactivates the row and names the one cleanup attempt that may later record how the delete ended. |
| DocumentRow.KnowledgeDocument.MarkCleanupFailedIfInactive | backend/app/repositories/knowledge_document_repository.py:191-215 | Only the cleanup attempt that the row names may record a failure. |
| DocumentRow.KnowledgeDocument.ClearCleanupErrorIfInactive | backend/app/repositories/knowledge_document_repository.py:217-240 | Only the cleanup attempt that the row names may finish the delete. |
| ObjectKeys.ListedGenerationIs | backend/app/services/knowledge_index_worker.py:350-418 | A listed key is recognised as generation `g` of this document if and only if it is the parsed key of that generation. |
| ObjectKeys.KeysAreDistinct | backend/app/services/knowledge_document_service.py:180-194 | Two documents never share a source or parsed key, two generations never share a parsed key, and no source key is a parsed key. |
| DocumentLocks.DocumentOperationCoordinator.Enter | backend/app/services/document_operation_coordinator.py:17-24 | Over arbitrary digests: a thread enters exactly when no other thread is inside a block whose document shares the lock, however many blocks it is inside of itself; a refused entry changes nothing, and the empty id is invalid. |
| DocumentLocks.DocumentOperationCoordinator.Exit | backend/app/services/document_operation_coordinator.py:17-24 | Leaving closes that one block; every other open block stays accounted for. |
| DocumentLocks.OneThreadInside | backend/app/services/document_operation_coordinator.py:17-24 | Two threads are never inside blocks of one document at once; this is the single lock holder of the protocol. |
| Chunking.SourceRanges | backend/app/services/knowledge_chunk_service.py:73-98 | The loop ends for every text and every allowed size and overlap and computes the specified ranges. |
| Chunking.FindEnd | backend/app/services/knowledge_chunk_service.py:73-98 | The separator loop picks the specified end: after the first separator kind that has a late enough last occurrence in the window. |
| Chunking.ChunkEndsWell | backend/app/services/knowledge_chunk_service.py:73-98 | A chunk that cannot take the rest of the text ends after the last occurrence in its window of the first of blank line, newline, ideographic full stop, full stop and space whose last occurrence is late enough, and at the full size if there is none. |
| Chunking.EveryRangeEndsWell | backend/app/services/knowledge_chunk_service.py:73-98 | So does every range of the text. |
| Chunking.RangesTile | backend/app/services/knowledge_chunk_service.py:73-98 | The ranges start at the start and end at the end, each is at most the chunk size, neighbours overlap by exactly the chunk overlap, starts and ends strictly increase. |
| Chunking.DroppingOverlapsRebuilds | backend/app/services/knowledge_chunk_service.py:73-98 | Joining the ranges with the overlaps dropped gives back the text. |
| Chunking.EveryPositionIsCovered | backend/app/services/knowledge_chunk_service.py:73-98 | Every position of the text lies in some range. |
| Chunking.Split | backend/app/services/knowledge_chunk_service.py:44-71 | `split` computes the specified chunks: the ranges that are not blank, numbered in order. |
| Chunking.ChunksAreTheSolidRanges | backend/app/services/knowledge_chunk_service.py:44-71 | Every range with something in it is kept, with its text and its place, and nothing else is. |
| Chunking.ChunksPassTheReader | backend/app/services/knowledge_retrieval_service.py:275-382 | Every chunk the splitter keeps carries its place as index and passes the reader's slice check on the same text. |
| Chunking.NoChunksOnlyForBlankText | backend/app/services/knowledge_index_worker.py:196-197 | There are no chunks exactly when the text is blank, so the worker's second parse error cannot happen after the first check. |
| Utf8.ScanUtf16Units | backend/app/services/chat_stream_redis.py:96-132 | The Lua scanner answers a number exactly on byte strings within the cap that are well formed by section 4 of RFC 3629, and the number is the UTF-16 length of the decoded text. |
| Utf8.DecodeIsTheGrammar | backend/app/services/chat_stream_redis.py:96-132 | The decoder accepts exactly the strings of the RFC's grammar (no overlong forms, no surrogates, nothing above U+10FFFF). |
| Utf8.DecodeThenEncode | backend/app/services/text_offsets.py:10-27 | Encoding what was decoded gives the same bytes. |
| Utf8.EncodeThenDecode | backend/app/services/text_offsets.py:10-27 | Decoding what was encoded gives the same text, so every text has a well-formed encoding. |
| Utf8.DecodeAdds | backend/app/services/chat_stream_redis.py:96-132 | Concatenated bytes decode to the concatenated texts, and their UTF-16 lengths add up. |
| Utf8.Utf16LengthAdds | backend/app/services/text_offsets.py:10-27 | The UTF-16 length of a concatenation is the sum of the lengths. |
| Utf8.EncodeInjective | backend/app/services/text_offsets.py:10-27 | Different texts have different encodings. |
| StreamTheorems.StoresAgreeExactlyBelowTheCap | backend/app/services/chat_stream_redis.py:147-150 | The two stores differ on an operation exactly if it is acceptable and is an append that names a live stream, its generation and its offset while the text or the chunk is beyond the cap, or a snapshot of a live stream that does not fit; and then it is their replies that differ. |
| StreamTheorems.StoresRunInLockstep | backend/app/services/chat_stream_redis.py:38-379 | Over any run on one clock, the stores give the same replies, snapshots included, and end with the same streams, if and only if no call of the run meets that condition in the streams that the calls before it leave. |
| StreamTheorems.RunsKeepWellFormed | backend/app/services/chat_stream_memory.py:59-258 | Every run of either store keeps one live stream per task, distinct block ids and canonical fields. |
| StreamTheorems.TextIsWhatWasAccepted | backend/app/services/chat_stream_memory.py:118-141 | Nothing is lost, doubled or reordered: a stream that outlives a run holds its earlier text followed by exactly the chunks whose append was accepted, in order. |
| StreamHistory.StreamIsItsHistory | backend/app/services/chat_stream_memory.py:59-258 | A stream that is still alive tells by its answers what was accepted since it was started: it is cancelled exactly if some accepted call cancelled it, and its snapshot has the accepted chunks joined, each block in first-seen order as it was upserted last, the last status, and the times of the start and of the last accepted write. |
| StreamHistory.BadArgumentsAreRefused | backend/app/services/chat_stream_memory.py:59-258 | A call is refused before any stream is looked at exactly if an id is not positive, the generation is only whitespace, a block id is not 1 to 36 letters, digits, dots, underscores, colons and hyphens, or a JSON text is empty or longer than 4 MiB. |
| StreamHistory.FencedCallsSucceedExactly | backend/app/services/chat_stream_memory.py:102-205 | A call with good arguments that names a stream and a generation is refused exactly if there is no such live stream of that generation, or the task of a validation or the offset of an append is not the stream's. |
| StreamHistory.StreamLivesExactly | backend/app/services/chat_stream_memory.py:227-258 | Unless its task is started elsewhere or it is finalized, a stream is alive exactly until a time-to-live after the last call that wrote to it, whatever is called in between. |
| StreamHistory.StreamsEndExactly | backend/app/services/chat_stream_memory.py:59-87 | A live stream ends exactly by a finalization that names its task and generation, or by a start of its task under another subtask. |
| StreamHistory.AbsentStreamsAnswer | backend/app/services/chat_stream_memory.py:89-188 | A task without a live stream has no snapshot; a missing stream is not cancelled; asking with another generation is refused. |
| StreamTheorems.SnapshotsPartBeyondTheCap | backend/app/services/chat_stream_redis.py:278-361 | The scripts check old text and chunk against the cap, but not their sum: two chunks that each fit and together do not are accepted by both stores, and then only the in-process store gives a snapshot. |
| StreamTheorems.SuchChunksExist | backend/app/services/chat_stream_redis.py:147-150 | Chunks that fit the cap one by one and not together exist, and a stream that was just started takes them. |
| StreamTheorems.SweepingIsNotSeen | backend/app/services/chat_stream_memory.py:250-253 | Expired streams may be forgotten at any moment: no later run gives another reply or ends with other streams. |
| StreamSpec.PutBlockKeepsOrder | backend/app/services/chat_stream_memory.py:143-164 | First-seen order: an upsert never moves an id and appends at most one. |
| StreamSpec.PutBlockReplacesOne | backend/app/services/chat_stream_memory.py:143-164 | The upserted block is there afterwards, and every block of another id is what it was. |
| StreamSpec.RefusedChangesNothing | backend/app/services/chat_stream_redis.py:38-379 | A refused operation changes no live stream. |
| StreamSpec.StaleGenerationsChangeNothing | backend/app/services/chat_stream_memory.py:230-239 | Generation fencing: except for a start, an operation that does not name a stream's current generation leaves that stream as it was. |
| StreamSpec.StepSeesOnlyLive | backend/app/services/chat_stream_memory.py:250-253 | Stores that differ only in expired streams answer alike, so it does not matter when a store forgets them. |
| MemoryStream.StartRestoresInverse | backend/app/services/chat_stream_memory.py:59-87 | After `start`, the task-to-subtask pointers and the states are inverse to each other again, whatever the task and the subtask had before. |
| MemoryStream.MemoryChatStreamStore.Start | backend/app/services/chat_stream_memory.py:59-87 | Pops, pointers and the fresh state together do to the live streams what the specification of a start says. |
| MemoryStream.MemoryChatStreamStore.GetActive | backend/app/services/chat_stream_memory.py:89-100 | Replies with the specified snapshot, changing no live stream. |
| MemoryStream.MemoryChatStreamStore.ValidateGeneration | backend/app/services/chat_stream_memory.py:102-116 | Accepts exactly the live stream of that task, subtask and generation. |
| MemoryStream.MemoryChatStreamStore.AppendText | backend/app/services/chat_stream_memory.py:118-141 | Accepts exactly appends at the current UTF-16 offset of the named generation, grows the text and renews the deadline. |
| MemoryStream.MemoryChatStreamStore.UpsertBlock | backend/app/services/chat_stream_memory.py:143-164 | Replaces the block of that id in its place or appends it. |
| MemoryStream.MemoryChatStreamStore.SetCancelled | backend/app/services/chat_stream_memory.py:166-174 | After it is accepted, that generation is cancelled, and nothing else changes but its deadline; `StreamHistory.StreamIsItsHistory` says the same of whole runs. |
| MemoryStream.MemoryChatStreamStore.IsCancelled | backend/app/services/chat_stream_memory.py:176-188 | Reads the flag of the named generation only. |
| MemoryStream.MemoryChatStreamStore.SetStatusSnapshot | backend/app/services/chat_stream_memory.py:190-205 | Stores the status of the named generation only. |
| MemoryStream.MemoryChatStreamStore.Finalize | backend/app/services/chat_stream_memory.py:207-225 | Removes the stream, with its pointer, exactly if task, subtask and generation are those of one live stream; otherwise nothing changes. |
| MemoryStream.MemoryChatStreamStore.CleanupExpired | backend/app/services/chat_stream_memory.py:250-253 | Removes exactly the expired states, and with each its pointer. |
| RedisKeys.AppendCodeIs | backend/app/services/chat_stream_redis.py:95-164 | On keys that stand for a well-formed store, the append script answers `malformed` exactly when the old text or the chunk is beyond the cap; otherwise its checks decide by generation and offset alone. |
| RedisKeys.UpsertCodeIs | backend/app/services/chat_stream_redis.py:166-216 | On keys that stand for a well-formed store the upsert script never answers `malformed`: it decides by stream and generation. |
| RedisKeys.MutateCodeIs | backend/app/services/chat_stream_redis.py:218-242 | On keys that stand for a well-formed store the mutate script never answers `malformed`. |
| RedisKeys.PairCodeIs | backend/app/services/chat_stream_redis.py:244-276 | The finalize and validate scripts pass exactly on the stream of that task, subtask and generation, and never answer `malformed`. |
| RedisKeys.SnapshotCodeIs | backend/app/services/chat_stream_redis.py:278-361 | The snapshot script passes exactly on the streams whose text and block order are within the cap. |
| RedisKeys.CancelledCodeIs | backend/app/services/chat_stream_redis.py:363-379 | On keys that stand for a well-formed store the cancelled script never answers `malformed`. |
| RedisKeys.StartCodeIs | backend/app/services/chat_stream_redis.py:38-93 | On keys that stand for a well-formed store the start script always passes. |
| RedisKeys.StartIsRepresented | backend/app/services/chat_stream_redis.py:38-93 | What `start` deletes and writes stands for the store in which the task has the new stream and no other. |
| RedisKeys.ExpiryIsLive | backend/app/services/chat_stream_redis.py:38-93 | A stream and its pointer carry one deadline, so expiry key by key is expiry of whole streams. |
| RedisKeys.StoredReadsBack | backend/app/services/chat_stream_redis.py:644-706 | Decoding a stored hash gives exactly the snapshot of the stream it stands for. |
| RedisStream.RedisChatStreamStore.Start | backend/app/services/chat_stream_redis.py:408-426 | Whatever the task and the subtask streamed before, afterwards the keys hold exactly one stream of the task, empty, of the new generation, and every stream of other tasks is untouched. |
| RedisStream.RedisChatStreamStore.GetActive | backend/app/services/chat_stream_redis.py:428-472 | Replies with exactly the snapshot the in-process store would give, decoded from the hash, or with none where that has none; it refuses only beyond the cap. Nothing changes. |
| RedisStream.RedisChatStreamStore.ValidateGeneration | backend/app/services/chat_stream_redis.py:474-493 | Succeeds exactly on the live stream of that task, subtask and generation, as the in-process store does; nothing changes. |
| RedisStream.RedisChatStreamStore.AppendText | backend/app/services/chat_stream_redis.py:495-525 | Accepts exactly what the in-process store accepts, with the same new offset and text, except that a text or a chunk beyond the cap is refused without a change. |
| RedisStream.RedisChatStreamStore.UpsertBlock | backend/app/services/chat_stream_redis.py:527-551 | Writing one block field, the order and both deadlines has the effect of the in-process upsert: first-seen order, one block replaced or appended. |
| RedisStream.RedisChatStreamStore.SetCancelled | backend/app/services/chat_stream_redis.py:553-554 | Sets the flag of the named live generation and renews both deadlines; refused without a change on any other generation. |
| RedisStream.RedisChatStreamStore.IsCancelled | backend/app/services/chat_stream_redis.py:556-572 | Replies with the flag that the in-process store would reply with, and is refused exactly when that is. |
| RedisStream.RedisChatStreamStore.SetStatusSnapshot | backend/app/services/chat_stream_redis.py:574-586 | Stores the status of the named live generation only, as the in-process store does. |
| RedisStream.RedisChatStreamStore.Finalize | backend/app/services/chat_stream_redis.py:588-608 | Both keys go, exactly if task, subtask and generation are those of one live stream; otherwise neither does. |
| RedisStream.RedisChatStreamStore.Expire | backend/app/services/chat_stream_redis.py:38-93 | Keys that disappear when their time is up take exactly the expired streams with them. |
| JsonWalk.Walk | backend/app/services/json_safety.py:17-80 | The explicit-stack walk ends on every object graph, shared or cyclic (its loop keeps the exit markers equal to the open ancestors), and passes exactly the values whose unfolding exists within the depth limit and has fine leaves, and whose node and raw byte counts are within the limits. |
| JsonWalk.CanonicalJson | backend/app/services/json_safety.py:17-95 | `canonical_json` succeeds if and only if the value unfolds to a tree within all limits. Its text, read as RFC 8259 says, is then a value equal to that tree with the keys of every object in order, and never longer than the limit in octets. |
| JsonReader.TextReadsBack | backend/app/services/json_safety.py:82-95 | Reading a printed text by the grammar of RFC 8259 (blanks, literals, numbers, escapes with surrogate pairs, arrays, members) gives the tree that was printed, and nothing is left over. |
| JsonReader.CanonicalTextsAreFaithful | backend/app/services/json_safety.py:82-95 | The canonical text of a value reads back as an equal value with sorted keys; so two values have the same canonical text if and only if they are equal. |
| JsonWalk.UnfoldIsTheTree | backend/app/services/json_safety.py:17-80 | The tree that a value unfolds to is the one that its containers spell out, each item and member in its place; there is no other. |
| CanonicalData.SortedAlikeIfAgree | backend/app/services/json_safety.py:82-95 | Two values have the same canonical tree if and only if they are equal lists and dictionaries, at every depth, whatever order their keys came in. |
| CanonicalData.SortingAgrees | backend/app/services/json_safety.py:83-89 | Sorting changes nothing but the order of keys, at every depth. |
| CanonicalData.SortedIsSorted | backend/app/services/json_safety.py:83-89 | No key of a canonical tree stands before a smaller one, at any depth. |
| CanonicalOrder.OrderLeavesNoTrace | backend/app/services/json_safety.py:82-95 | Two dictionaries have the same canonical tree if and only if they have the same members, in whatever order they were filled. |
| CanonicalOrder.SortedIsPermutation | backend/app/services/json_safety.py:83-89 | Sorting a dictionary keeps every member, with its multiplicity. |
| CanonicalOrder.SortedIsOrdered | backend/app/services/json_safety.py:83-89 | Sorted members stand in the order of their keys by code points. |
| CanonicalOrder.TextHasTheSize | backend/app/services/json_safety.py:82-95 | Sorting changes neither nodes, height nor size: the length in octets of the canonical text is the size that was checked before sorting. |
| JsonWalk.WalkCostIs | backend/app/services/json_safety.py:17-80 | What the walk counts is what the unfolded tree has: the same nodes, the same raw bytes, fine exactly where the tree is, and never deeper than the levels allowed. |
| JsonWalk.CyclesHaveNoUnfolding | backend/app/services/json_safety.py:17-80 | A container met inside itself has no unfolding of any depth: the cycle error of `active_path` rejects only what has to be rejected. |
| JsonWalk.CyclesAreRefused | backend/app/services/json_safety.py:17-80 | A value from which some container reaches itself is refused, however long the cycle. |
| JsonWalk.LongPathsAreRefused | backend/app/services/json_safety.py:17-80 | A value with a container path longer than the limit is refused. |
| JsonSafety.RawBytesWithinSize | backend/app/services/json_safety.py:17-95 | The raw byte count is never larger than the canonical size, so stopping early on it rejects nothing that the final check would accept. |
| CanonicalText.SizeIsTheLength | backend/app/services/json_safety.py:82-95 | The size that all limits are stated about is the length in octets of the printed canonical text, escapes included. |
| ReductionSafety.AcceptKeeps | backend/app/services/runtime_event_reducer.py:97-106 | Every accepted event keeps chain, blocks, declared calls, results and offsets in agreement; by induction so does every run of accepted events. |
| ReductionTheorems.FinishedChainValidates | backend/app/services/runtime_event_reducer.py:108-129 | When `finish_success` passes its own checks, validating the chain returns it unchanged, or fails exactly where one of the limits that only the validator knows is exceeded. |
| ReductionTheorems.OneMessageOneBlock | backend/app/services/runtime_event_reducer.py:269-289 | Each answered call has exactly one tool message and exactly one tool block, and the block is terminal with that message's content as its output. |
| ReductionTheorems.AnsweredOnce | backend/app/services/message_chain.py:62-125 | In any chain of the right shape a call counts as resolved exactly if some tool message answers it, and no two messages answer the same call. |
| ReductionTheorems.NoPendingBlocks | backend/app/services/runtime_event_reducer.py:108-129 | When no call is unresolved every tool block is terminal, so the last check of `finish_success` never fails. |
| ReductionTheorems.SourcesStayBounded | backend/app/services/runtime_event_reducer.py:291-311 | Collecting sources keeps the earlier ones, in order, and never exceeds the bound. |
| Emissions.AcceptReplays | backend/app/services/runtime_event_reducer.py:155-289 | Replaying the emissions of one accepted event on the blocks before it gives the blocks after it. |
| Emissions.RunReplays | backend/app/services/runtime_event_reducer.py:155-289 | Over a run: chunks applied at their block offset and blocks created or replaced by id rebuild exactly the reducer's blocks. |
| StreamedRuns.RunGathers | backend/app/services/runtime_event_reducer.py:155-289 | No write that a run emits is refused for what it is: every block id, offset and block size is acceptable, and together the writes amount to the text of the run and its blocks. |
| StreamedRuns.WritesNeedTime | backend/app/services/chat_stream_memory.py:118-172 | On a live stream, acceptable writes at any times are all accepted if and only if each comes within the time-to-live of the one before it; each renews the deadline. |
| RuntimeReducer.WholeRun | backend/app/services/runtime_event_reducer.py:97-129 | From a new reducer: the chain holds, field by field, the messages and results of the events in order, each result with its content, its name and its error flag in its one message and its one block; text, compactions, sources and reason are those of the events; replaying the emissions from nothing gives the blocks; and when `finish_success` passes its checks, the chain validates within the limits and every declared call is answered by exactly one message and one finished block with the same output. |
| Acceptance.RunGoesOnExactly | backend/app/services/runtime_event_reducer.py:97-289 | A run of events goes on exactly with those that may come next, said over the events before: text while no call waits for its result and there is room; a message whose visible text is what was streamed since the last one, of the model of this run, with new calls; a declared call that has not started; a result of a call that has started and has none, and fits. |
| Acceptance.AcceptedExactly | backend/app/services/runtime_event_reducer.py:97-289 | After any run the reducer accepts an event if and only if it may come next; everything else is refused. |
| Acceptance.FinishesExactly | backend/app/services/runtime_event_reducer.py:108-129 | After any run `finish_success` gives an envelope if and only if the assistant had the last word, without calls and with visible text, no text came after it, no call waits for its result, and chain and envelope keep the limits; its value is that word, and the rest is what is on record. |
| RunRecords.ResultIsOnRecord | backend/app/services/runtime_event_reducer.py:269-289 | Whatever was accepted before and after: an accepted result is recorded with its content and its name, flagged exactly if it is an error, in the one message that answers the call; the one block of the call has that output and ended in error exactly then. |
| RunRecords.StartIsOnRecord | backend/app/services/runtime_event_reducer.py:252-267 | A tool that started has its block for good, at the place where it started, with its name and arguments and the minted id and time. |
| RunRecords.ChainIsTheRun | backend/app/services/message_chain.py:20-59 | The chain that a run appends is its assistant messages and tool results, one by one and in order, field by field as the events say. |
| RunRecords.TextIsTheRun | backend/app/services/runtime_event_reducer.py:155-198 | The text of a run is all that was streamed, in order. |
| RunRecords.CompactionsAreTheRun | backend/app/services/runtime_event_reducer.py:237-249 | The compaction entries of a run are those of its marked messages, each with the place of its message in the chain. |
| RunRecords.SourcesAreTheRun | backend/app/services/runtime_event_reducer.py:291-311 | The sources of a run are the first twenty storable dictionaries that its results offer. |
| RunRecords.ReasonIsTheRun | backend/app/services/runtime_event_reducer.py:291-311 | The termination reason of a run is the last well-formed one that a result gave. |
| RunRecords.VisibleTextIs | backend/app/services/runtime_event_reducer.py:364-382 | The visible text of a list of parts is that of the shown ones in order, and there is none exactly if a part is no dictionary, has a container for its kind, or is shown without a string. |
| StreamedRuns.WholeRunStreams | backend/app/api/ws/emitter.py:60-106 | Every emission of any run is written at its own time, chunks as appends and blocks as upserts. All writes are accepted if and only if no gap since the start reaches the time-to-live; the stream of the in-process store then holds, until a time-to-live after the last write, exactly the text of the run and its blocks in order, an open text block as it was created. |
| RefusedEvents.AnyRunIsShown | backend/app/services/runtime_event_reducer.py:97-106 | After any events from a new reducer, each accepted or refused: the blocks are canonical with distinct ids, their texts joined are exactly the streamed text, and compactions, sources and the termination reason are bounded, safe and attributed to messages of the chain. |
| RefusedEvents.AcceptShows | backend/app/services/runtime_event_reducer.py:97-106 | A refused event may leave the reducer half changed, but never breaks the agreement of blocks and text. |
| RuntimeReducer.RuntimeEventReducer.Accept | backend/app/services/runtime_event_reducer.py:97-106 | The object is then in the state, and has emitted what, the theorems above are about, on refusal as well as on success. |
| RuntimeReducer.RuntimeEventReducer.AcceptTextDelta | backend/app/services/runtime_event_reducer.py:155-198 | A chunk is accepted only while no call is open; the emissions are the new block, if one was opened, and one chunk at the offsets before it. |
| RuntimeReducer.RuntimeEventReducer.AcceptAssistantMessage | backend/app/services/runtime_event_reducer.py:200-250 | Accepted only if no call is unanswered, its visible text is what was streamed and its calls are new; the open block is closed, the calls are declared and the message is recorded. |
| RuntimeReducer.RuntimeEventReducer.AcceptStart | backend/app/services/runtime_event_reducer.py:252-267 | Accepted only for a declared call that has not started, with the same name and arguments; one tool block is created. |
| RuntimeReducer.RuntimeEventReducer.AcceptResult | backend/app/services/runtime_event_reducer.py:269-289 | Accepted only for a started call without a result; its block is closed and one tool message is recorded. `RunRecords.ResultIsOnRecord` says what they say. |
| RuntimeReducer.RuntimeEventReducer.FinishSuccess | backend/app/services/runtime_event_reducer.py:108-129 | Gives an envelope exactly when there is a final answer, no text, call or tool block is open, the chain validates and the whole is within the limits. |
| RuntimeReducer.RuntimeEventReducer.Partial | backend/app/services/runtime_event_reducer.py:134-153 | The loop that drops blocks ends, with the envelope that is shown to be the longest valid one. |
| RuntimeReducer.RuntimeEventReducer.CloseAll | backend/app/services/runtime_event_reducer.py:384-399 | Closes all blocks in order, or raises exactly where the first block that cannot be closed does. |
| PartialResults.PartialResultIsValid | backend/app/services/runtime_event_reducer.py:134-153 | After any events from a new reducer, each accepted or refused: `partial_result` raises exactly if some unfinished tool block has no room for the note; otherwise the envelope is valid, its blocks are the reducer's, an open text done as it is and an open call ended by the note `execution_interrupted`, in the longest prefix that validates, and its value is a prefix of the text that was streamed, or nothing where not even that fits. |
| PartialResults.TrimmedIsLongest | backend/app/services/runtime_event_reducer.py:134-153 | The trimming loop stops at the longest prefix that holds, and gives up the text only if it does not fit alone. |
| PartialResults.CrowdedCallsHaveNoPartialResult | backend/app/services/runtime_event_reducer.py:384-399 | An unfinished block without room for the note is reached: after two accepted events, a call with the arguments `{"a": [null, ...]}` of 49980 to 49983 nulls and its start, `partial_result` raises. |
| ChatBlocks.ClosingNeedsRoom | backend/app/services/chat_blocks.py:140-171 | An unfinished tool block closes exactly if its JSON has 4 nodes and 45 octets to spare (32 while its arguments are still generated); it is then the same block with the note. |
| ChatBlocks.AppendingNeedsRoom | backend/app/services/chat_blocks.py:91-107 | Appending to an open text block succeeds exactly if the longer text stays within the string limit and the escaped octets of the addition within the size limit. |
| PartialResults.OnlyToolBlocksFailToClose | backend/app/services/runtime_event_reducer.py:384-399 | Over canonical blocks, closing gives the closed blocks, or raises exactly if an unfinished tool block has fewer than 4 nodes or fewer than 45 octets left below the limits (32 while its arguments are still generated). |
| ChatBlocks.TextBlocksClose | backend/app/services/chat_blocks.py:91-107 | Closing a canonical text block always succeeds, since it only shortens its JSON. |
| MessageChain.ValidateMessagesChain | backend/app/services/message_chain.py:62-125 | The validator's loop with its three collections computes the specification of a valid chain. |
| ChainRules.ValidatedExactly | backend/app/services/message_chain.py:62-125 | A list is accepted if and only if it is neither empty nor too long, every message is good, every assistant message waits for all results and declares new ids, every result answers an earlier call of that name for the first time, no call is too many and none is left open, and the cleaned list is small enough; it comes back message by message as it was cleaned. |
| ChainRules.NormalizedIs | backend/app/services/message_chain.py:128-238 | A message is accepted exactly if it is a good assistant message or a good result, field by field; nothing in it is made up, and what was null, empty or not of its role is gone. |
| StoredForms.ResultsAreStored | backend/app/services/runtime_event_reducer.py:108-153 | The stored result has exactly its six keys (five without a chain): the value, every block and compaction in order, the sources, the reason or a null, and the chain. |
| StoredForms.BlocksAreStored | backend/app/services/chat_blocks.py:184-256 | A stored block has exactly its type, id, status in words and timestamp, and its text, or the call with its id, name and input and, exactly if there is one, its output. |
| StoredForms.AssistantsAreStored | backend/app/services/message_chain.py:20-46 | A stored assistant message, key by key: role, content, calls, reasoning, model, markers and version, each exactly if there is one, and nothing else. |
| StoredForms.AnswersAreStored | backend/app/services/message_chain.py:49-59 | A stored tool message, key by key: role, content, the id and the name of the call, the error flag exactly if there is one, and nothing else. |
| StoredForms.CallsAreStored | backend/app/services/message_chain.py:20-46 | A stored call has its id, the type `function`, and its name with the text of its arguments. |
| StoredForms.ModelInfosAreStored | backend/app/services/message_chain.py:20-46 | Provider and model of a message, with a null where there was none, and nothing else. |
| MessageChain.ValidatingTwice | backend/app/services/message_chain.py:62-125 | A validated chain validates again and comes back unchanged. |
| MessageChain.NormalizingTwice | backend/app/services/message_chain.py:128-238 | Normalizing is idempotent on every message it accepts. |
| TaskLifecycle.EveryRunKeepsTheRows | backend/app/repositories/task_repository.py:141-325 | In every run of sends, retries, executions, cancels, failures before or after a commit, fallbacks, crashes, recoveries and deletes: message ids are 1..2n, USER and ASSISTANT alternate, each parent is the previous message, and Task and assistant statuses agree. |
| TaskLifecycle.TaskStatusIsTheAssistants | backend/app/repositories/task_repository.py:141-325 | In every reachable world the Task is PENDING or RUNNING exactly when some message is; then it is exactly one, an assistant, with that same status. |
| TaskLifecycle.TerminalRowsStay | backend/app/services/task_execution_service.py:579-685 | Whatever step is taken, the persistence-failure fallback included, a terminal message changes only by a retry of that message, and only if it was FAILED. |
| TaskLifecycle.DoneIsDone | backend/app/services/task_execution_service.py:579-685 | Over any run a completed or cancelled assistant stays exactly what it is, result included. |
| TaskLifecycle.StoredWritesItsOwnRow | backend/app/services/task_execution_service.py:579-640 | Storing an outcome writes status, progress, result and error of its own live assistant, and the Task's status; no other message changes. |
| TaskLifecycle.EveryRunKeepsClaims | backend/app/services/task_execution_service.py:307-437 | In every run at most one execution holds the terminal claim of a state, and what it persists is what it claimed. |
| TaskLifecycle.AcceptedCancelsAreHonoured | backend/app/services/task_execution_service.py:579-640 | In every reachable world an execution that is about to persist holds the only claim of its state, and if a cancel was accepted the outcome it persists is CANCELLED. |
| TaskOutcomes.PersistDecides | backend/app/services/task_execution_service.py:588-634 | Storing the claimed outcome of a live assistant saves exactly that outcome and result in its row and no other, unless something raised before the transaction took effect; then the assistant stays live, and the execution falls back, except when it was storing a failure. |
| TaskOutcomes.FallbackDecides | backend/app/services/task_execution_service.py:636-679 | Falling back fails a live assistant, and changes no other row, unless something raises before that transaction took effect, a raising `partial_result` included; then the assistant stays live. |
| TaskOutcomes.LeavesLiveExactly | backend/app/services/task_execution_service.py:579-679 | An execution that holds its claim over a live assistant leaves it live by its last step if and only if something raised before that step's transaction took effect: a database error, or `partial_result` after the claim. |
| TaskOutcomes.ClaimedOutcomesStay | backend/app/services/task_execution_service.py:588-634 | A claimed outcome whose transaction took effect is what the assistant shows after any later steps of anybody, with its result, until that very message is retried. |
| TaskTransitions.RecoveryFailsInterrupted | backend/app/repositories/task_repository.py:412-438 | After a recovery, in every reachable world: each assistant that was PENDING or RUNNING is FAILED with progress 100 and error `generation_interrupted`, and keeps the rest; every other message is what it was; the Task is FAILED exactly if there was such an assistant; and that assistant can be retried exactly while the Task is not deleted. |
| TaskTransitions.UndisturbedTurnEnds | backend/app/services/task_execution_service.py:307-437 | An execution that nobody disturbs takes its pending assistant to COMPLETED with its result, to FAILED with its error if the stream failed, or to CANCELLED if a cancel came while it streamed; the Task ends with the same status and nothing else changes. |
| TaskTransitions.SendsAndRetriesCommit | backend/app/services/task_execution_service.py:127-305 | In every reachable world a send to a new Task or to one at rest, and the retry of a failed assistant of such a Task, give an execution of a pending assistant; every other send or retry changes nothing. |
| TaskTransitions.RaisingLeads | backend/app/services/task_execution_service.py:579-679 | Where an exception leads an execution: before its claim to a failure, and in that failure out; while an outcome is stored to the fallback, and while a failure is stored out; in the fallback out; in `partial_result`, which only a cancelled outcome and the fallback call after the claim, out. Nothing else changes. |
| TaskExecution.OneTerminalClaim | backend/app/services/task_execution_cancellation.py:42-50 | Over any sequence of calls on a state at most one terminal claim succeeds. |
| TaskExecution.ClaimSeesEarlierCancel | backend/app/services/task_execution_cancellation.py:42-50 | The successful claim answers CANCELLED if a cancel was accepted before it, and otherwise what was desired. |
| TaskExecution.CancelIsRefusedAfterClaim | backend/app/services/task_execution_cancellation.py:24-29 | A cancel is accepted only before the claim, and at most once. |
| TaskExecution.StateIsHistory | backend/app/services/task_execution_cancellation.py:15-50 | The two flags say exactly whether a cancel was accepted and whether a claim succeeded so far. |
| TaskExecution.TaskExecutionState.RequestCancel | backend/app/services/task_execution_cancellation.py:24-29 | A cancel is accepted exactly if none was before and no outcome is claimed; it is then set, and the attached stream is given to be closed. Nothing else changes. |
| TaskExecution.TaskExecutionState.AttachStream | backend/app/services/task_execution_cancellation.py:35-40 | The stream is attached unless an outcome is claimed, and the execution is told to go on exactly if neither a cancel nor a claim came first. |
| TaskExecution.TaskExecutionState.ClaimTerminal | backend/app/services/task_execution_cancellation.py:42-50 | The first claim gets CANCELLED if a cancel was accepted, and otherwise what it desired; every later one gets nothing and changes nothing. |
| TaskExecution.TaskExecutionCancellationRegistry.Prepare | backend/app/services/task_execution_cancellation.py:58-72 | A fresh state replaces whatever the task had. |
| TaskExecution.TaskExecutionCancellationRegistry.Claim | backend/app/services/task_execution_cancellation.py:74-94 | The prepared state of this very user and assistant is reused; in every other case a fresh one takes its place. |
| TaskExecution.TaskExecutionCancellationRegistry.RequestCancel | backend/app/services/task_execution_cancellation.py:96-106 | A cancel reaches the state only for the user who owns it, and no other state changes. |
| TaskExecution.TaskExecutionCancellationRegistry.Discard | backend/app/services/task_execution_cancellation.py:108-111 | A state is removed only if it is still the registered one. |
| TaskTransitions.MarkedRunningIs | backend/app/repositories/task_repository.py:180-196 | Exactly a PENDING assistant of a Task that is not deleted is marked: it and the Task are RUNNING, and nothing else changes, its progress included where that was in range. |
| TaskTransitions.FinishedIs | backend/app/repositories/task_repository.py:198-222 | Exactly a live assistant of a Task that is not deleted is finished, as COMPLETED or FAILED: with that status, progress 100, that result and that error; the Task follows and nothing else changes. |
| TaskTransitions.CancelledIs | backend/app/repositories/task_repository.py:224-244 | Exactly a live assistant of a Task that is not deleted is cancelled: with progress 100, the result and no error; the Task follows and nothing else changes. |
| TaskTransitions.FailedActiveIs | backend/app/repositories/task_repository.py:246-293 | The fallback fails a live assistant of a live Task with the result and error it is given, does nothing to a finished one, and raises for the rest. |
| TaskTransitions.ResetIs | backend/app/repositories/task_repository.py:295-325 | Exactly a FAILED assistant of a Task that is not deleted is reset: to PENDING, progress 0, without result or error. |
| TaskTransitions.SoftDeletedIs | backend/app/repositories/task_repository.py:350-370 | A Task is hidden exactly if it is visible and at rest; its status and its messages stay. |
| TaskTransitions.TurnIs | backend/app/repositories/task_repository.py:141-178 | A new turn is a finished USER message with the prompt, answering the last message if there is one, and a PENDING ASSISTANT message that answers it; all earlier messages stay. |
| TaskRows.TaskTable.CreateTurn | backend/app/repositories/task_repository.py:141-178 | The table afterwards is the one for which order, numbering and consistency are proved: two rows more, numbered after the largest message id, the Task PENDING. |
| TaskRows.TaskTable.MarkRunning | backend/app/repositories/task_repository.py:180-196 | Succeeds exactly on a PENDING assistant of this Task; both rows become RUNNING, or neither changes. |
| TaskRows.TaskTable.FinishAssistant | backend/app/repositories/task_repository.py:198-222 | Succeeds exactly on an active assistant and the outcomes COMPLETED and FAILED; outcome, result, error and progress are stored and the Task follows, or nothing changes. |
| TaskRows.TaskTable.CancelAssistant | backend/app/repositories/task_repository.py:224-244 | Succeeds exactly on an active assistant; it and the Task become CANCELLED, or nothing changes. |
| TaskRows.TaskTable.FailActiveAssistant | backend/app/repositories/task_repository.py:246-293 | Of the two conditional updates both take effect or none does: where only the first matches the transaction is rolled back, where the first does not match it reports so and changes nothing. |
| TaskRows.TaskTable.ResetFailedAssistant | backend/app/repositories/task_repository.py:295-325 | Succeeds exactly on a FAILED assistant, whichever of the Task's it is; it becomes PENDING without result or error, and the Task PENDING; otherwise nothing changes. |
| TaskRows.TaskTable.RecoverInterrupted | backend/app/repositories/task_repository.py:412-438 | Every active assistant and the Task become FAILED; it counts none if and only if it changed nothing. `TaskTransitions.RecoveryFailsInterrupted` says what becomes of every field. |
| TaskRows.TaskTable.SoftDelete | backend/app/repositories/task_repository.py:350-370 | Hides the Task exactly if it is neither PENDING nor RUNNING nor hidden already, and otherwise changes nothing. |
| RuntimeTurns.BuildTurns | backend/app/services/task_execution_service.py:491-562 | The filter and the loop compute the specified turns, and raise exactly where the specification does. |
| RuntimeTurns.OrderedHistoriesAreValid | backend/app/services/task_execution_service.py:491-562 | For every ordered history and every cutoff: no `history_invalid`, one turn per user message in order with its own contexts, and each turn carries exactly the texts projected from the assistant that answered it. |
| RuntimeTurns.UnfinishedShowsAtMostItsValue | backend/app/services/subtask_history.py:19-50 | A running or pending assistant contributes nothing to the conversation, a failed or cancelled one at most its plain value. |
| RuntimeTurns.CompletedShowsItsChain | backend/app/services/subtask_history.py:19-50 | Of a completed assistant the conversation has exactly what its own messages in the validated chain say, each at its place and in order, tool results left out; without such a chain at most its plain value. |
| RuntimeTurns.TextsAreJoined | backend/app/services/task_execution_service.py:811-823 | What a list of blocks says is the strings under `text` of its dictionaries, in order, and everything else adds nothing. |
| RuntimeTurns.SendSeesAValidHistory | backend/app/services/task_execution_service.py:127-226 | After the new turn is stored, the history up to the new user message is valid and ends with that message, without an answer. |
| RuntimeTurns.RetrySeesAValidHistory | backend/app/services/task_execution_service.py:228-305 | After a FAILED assistant is reset, the history up to the user message before it is valid and ends with that message, without an answer. |
| RuntimeTurns.EveryReachableHistoryIsValid | backend/app/services/task_execution_service.py:491-562 | In every reachable world both a send and a retry are given a valid history that ends with their own user message. |
| ResourceSafety.RunKeeps | backend/app/services/agent_service.py:448-551 | Under every sequence of create, put, delete and isolate operations by any actors: every live Agent's references are active, of the right type, distinct, with an allowed owner and in the right collection; active documents are in live collections of their owner; names are unique. |
| ResourceSafety.NoTurnMeetsABadReference | backend/app/services/agent_service.py:253-391 | After any sequence of resource operations, resolving an Agent for a turn never fails because of a reference. |
| ResourceSafety.ReferencesStayWithTheOwner | backend/app/services/agent_service.py:564-567 | The home Workspace and every Collection of a live Agent are live, and public or its owner's own; those of a public Agent are public. Every document that it names is active, in that Collection, and of that Collection's owner. |
| ResourceRules.CreateAgentIs | backend/app/services/agent_service.py:410-433 | An Agent is created exactly for its own user, or for everybody by an administrator, under a name that is free among that owner's resources of its type, with references that are live, of the right type, named once and allowed to the owner. |
| ResourceRules.CreateOtherIs | backend/app/services/knowledge_collection_service.py:318-334 | A Workspace or Collection is created exactly for its own user, or for everybody by an administrator, under a free name. |
| ResourceRules.PutAgentIs | backend/app/services/agent_service.py:207-234 | An Agent changes exactly for its owner, or for an administrator if it is public, and not once it is deleted, to a free name and references that are good for its owner; owner and deletion mark stay. |
| ResourceRules.PutWorkspaceIs | backend/app/services/workspace_resource_service.py:155-196 | A Workspace changes exactly for its owner, or by the public route for an administrator if it is public, keeps its configuration, and is not switched off while it is the home of a live Agent. |
| ResourceRules.PutCollectionIs | backend/app/services/knowledge_collection_service.py:179-253 | Likewise a Collection, which is not switched off while a live Agent searches it or a document of it is active or about to be cleaned up. |
| ResourceRules.DeletesAre | backend/app/services/agent_service.py:236-251 | A resource is deleted exactly by those who may change it, once, and never while somebody needs it; the row stays, neither active nor visible. |
| ResourceRules.DocumentsAre | backend/app/services/knowledge_document_service.py:341-367 | A document is uploaded to, and taken out of, a live Collection exactly by those who may manage it, and none is taken out that a live Agent names. |
| ResourceRules.ReferencesAre | backend/app/services/agent_service.py:448-551 | The check of all references passes exactly if home and scopes lead to live resources that are public or the owner's, each document is active in its Collection, and no document is named in two scopes. |
| ResourceServices.ResourceDatabase.ReferencesAreValid | backend/app/services/agent_service.py:448-551 | The loops over expected types, targets and documents accept exactly the valid references. |
| ResourceServices.ResourceDatabase.WorkspaceIsReferenced | backend/app/services/workspace_resource_service.py:273-278 | The scan over the Agents finds a reference exactly if some live Agent has one. |
| ResourceServices.ResourceDatabase.CollectionIsInUse | backend/app/services/knowledge_collection_service.py:336-373 | A Collection counts as in use exactly if a live Agent refers to it or a document of it blocks the change. |
| ResourceServices.ResourceDatabase.IsExactlyReferenced | backend/app/services/knowledge_document_service.py:519-528 | The scan over the Agents finds exactly the documents that a live Agent names. |
| ResourceServices.ResourceDatabase.NameConflicts | backend/app/repositories/resource_repository.py:110-127 | The name check of a flush finds exactly the violations of the unique name. |
| ResourceServices.ResourceDatabase.CreateAgent | backend/app/services/agent_service.py:410-433 | Succeeds exactly if the actor may, the name is free and every reference is valid; otherwise the tables are what they were. |
| ResourceServices.ResourceDatabase.PutAgent | backend/app/services/agent_service.py:207-234 | Succeeds exactly if the actor may manage it, the name is free and every reference of the new configuration is valid; otherwise nothing changes. |
| ResourceServices.ResourceDatabase.DeleteAgent | backend/app/services/agent_service.py:236-251 | Retires the Agent exactly if the actor may manage it; otherwise nothing changes. |
| ResourceServices.ResourceDatabase.PutWorkspace | backend/app/services/workspace_resource_service.py:155-196 | Is refused, changing nothing, where an Agent that refers to it would lose its active home of that type. |
| ResourceServices.ResourceDatabase.DeleteWorkspace | backend/app/services/workspace_resource_service.py:227-253 | Succeeds only if no live Agent refers to it; otherwise nothing changes. |
| ResourceServices.ResourceDatabase.PutCollection | backend/app/services/knowledge_collection_service.py:179-253 | Is refused, changing nothing, where retiring it would break a live Agent or strand a document that blocks the change. |
| ResourceServices.ResourceDatabase.DeleteCollection | backend/app/services/knowledge_collection_service.py:284-316 | Succeeds only if no live Agent and no blocking document needs it; otherwise nothing changes. |
| ResourceServices.ResourceDatabase.IsolateDocument | backend/app/services/knowledge_document_service.py:341-367 | Deactivates the document exactly if no live Agent names it and the actor may; otherwise nothing changes. |
| TokenCounter.NormalizeImages | backend/app/services/token_counter.py:14-35 | The recursion with its accumulating loops computes the normalized value and the number of images taken out. |
| TokenCounter.ImagesAre | backend/app/services/token_counter.py:14-35 | A block of one of the three image types counts once and leaves a stand-in with its type; every other dictionary keeps its keys, with the images inside it taken out. |
| TokenCounter.OthersAreKept | backend/app/services/token_counter.py:14-35 | What has no image block anywhere in it is counted as it is. |
| TokenCounter.CountIs | backend/app/services/token_counter.py:56-87 | Given tool schemas without images, counting succeeds and is the frame of the tools plus what each message weighs, images and reserves included. |
| TokenCounter.InsertedMessagesCount | backend/app/services/token_counter.py:56-87 | Monotone: inserting messages anywhere never makes the count smaller. |
| TokenCounter.CountIsSubadditive | backend/app/services/token_counter.py:56-87 | Counting two lists apart gives exactly the empty input, 26, more than counting them together, less one for the comma between them. |
| ContextSelection.SelectTurns | backend/app/services/context_assembler.py:43-109 | Succeeds if and only if the budget is usable and the newest turn fits; then it returns the longest suffix of the history that fits, with its count and the limit. |
| ContextSelection.SelectionIs | backend/app/services/context_assembler.py:43-109 | Said over budget, reserve and counts: turns are selected exactly if there is a budget, of which the reserve, if there are tools, takes less than all, and the newest turn is within it, or the prompts alone where there is no turn; and then as many of the newest turns as are within it together. |
| ContextSelection.FewerTurnsCountLess | backend/app/services/context_assembler.py:132-174 | Leaving out oldest turns never makes the count larger. |
| ContextSelection.SelectionsAreRendered | backend/app/services/context_assembler.py:111-130 | `render_selected` never refuses what `select_turns` returned, and renders exactly those turns. |
| ContextSelection.LongestSuffixIsUnique | backend/app/services/context_assembler.py:43-109 | There is exactly one longest fitting suffix. |
| Transcripts.MessagesReadBack | backend/app/services/context_assembler.py:153-174 | Reading the rendered messages by role gives the platform's prompt, then the Agent's and `AGENTS.md` where there are any, all before the first question; then for every turn in order one question with its text and its contexts, and its answers in order. |
| Transcripts.ContextReadsBack | backend/app/services/context_assembler.py:212-233 | A framed context, read by the octet counts in its first line, gives back source, name and content, whatever they contain: nothing in a context can pass for its end. |
| Transcripts.RoundsAreRendered | backend/app/services/token_counter.py:89-124 | A round is counted as one assistant message without text that makes the calls in order, each with its id, its name and the text of its arguments, and one tool message per result with its content and the id of its call. |
| Transcripts.ToolsAreOffered | backend/app/services/token_counter.py:56-87 | A tool is counted with its name, its description and its schema. |
| Transcripts.NotesAre | backend/app/services/react_loop.py:312-340 | What takes the place of a result is an error for that very call whose metadata gives the code and the tool; the one that ends the turn is marked as terminal. |
| ToolBudget.FitResult | backend/app/services/react_loop.py:293-303 | A result that fits its share is kept, otherwise a note that fits takes its place, and the turn ends exactly if neither fits. |
| ToolBudget.SiblingCalls | backend/app/services/react_loop.py:362-378 | The calls that share the budget are never none and include the one that is being answered. |
| ToolBudget.CallsTogether | backend/app/services/token_counter.py:89-112 | One assistant message with n calls counts exactly 92 (n - 1) less than its calls one by one. |
| ToolBudget.ResultsTogether | backend/app/services/token_counter.py:114-124 | n results together count exactly 25 (n - 1) less than one by one. |
| ToolBudget.RoundTogether | backend/app/services/react_loop.py:277-291 | What a round of n calls adds to a conversation counts exactly 117 (n - 1) + 50 less than its calls and results one by one (51 after no messages). |
| ToolBudget.SiblingsShareTheBudget | backend/app/services/react_loop.py:224-303 | For any number of sibling calls of which none ends the turn: if the fixed answer to each unknown tool fits the floor-divided share, then prior messages, calls and all results together count at most the token budget. |
| ToolBudget.BudgetHoldsExactly | backend/app/services/react_loop.py:224-303 | Before any tool runs it is settled whether the round can exceed its budget: it cannot, whatever the tools answer, if and only if some known tool must end the turn, or the shares of the known tools and the fixed answers to the unknown ones are within what remains and what the round saves. |
| ToolBudget.UnknownToolsMayExceed | backend/app/services/react_loop.py:245-246 | After any messages, one call of an unknown tool with a share of 1 goes on above the budget, because its answer is not fitted. |

## Left out

- ToolBudget.BudgetHoldsExactly: covers assistant messages without preamble text, because the split is computed from the messages before that turn; an image inside a tool's own schema is excluded, since counting then raises. Tools answer to their own call id, which the loop enforces, and with a message rather than a control command.
- IndexTheorems.UndisturbedRunPublishes: no liveness beyond one undisturbed attempt; polling and back-off are left to chance, whether a claim is stale is a parameter of the step that `DocumentRow.ClaimNext` decides by the clock, and a lock that is never granted counts as a crash.
- DocumentRow.KnowledgeDocument.Reindex: the authority of the actor is checked before the row is reached, as for a manageable collection in `Resources`. A Collection never changes its retriever, so the protocol does not carry the retriever of a row.
- Several documents at once: the protocol follows one document. `ObjectKeys.KeysAreDistinct` shows that documents share no object key; retrievers filter by document id.
- The protocol allows every claim that the row allows, in any order and whatever became of the Collection; rows that another session has locked, which `claim_next` skips, appear as claims that do not happen. `DocumentRow.ClaimNext` is the query itself. `IndexProtocol` recognises listed keys by generation, and `ObjectKeys` has the key syntax; mime types and content hashes are not in the protocol.
- Extraction yields some text out of a set fixed with the source bytes; parsing of file formats, hashing and verifying the source are not modelled.
- Concrete retrievers (Elasticsearch, Qdrant) are a map from generation and chunk index to chunks whose failing calls may take effect in part; scoring and the rest of retrieval are left out, apart from the comparisons of name and slice.
- Lone surrogates: a text here is a sequence of Unicode scalar values, so the rejections of non-strict text are excluded by type.
- The stream stores share one clock, and a Redis key is gone exactly when its time is up. The fields of one in-process stream are replaced as a value in the dictionary, so aliasing of the state object is not captured. Timestamps in snapshots and error codes are not compared, only success or failure and the resulting state.
- In Redis hashes blocks, statuses and block orders are kept as what their JSON decodes to, so corrupt JSON is outside the model; the size in octets of the order is exact.
- StreamedRuns.WholeRunStreams: follows the emissions of accepted events up to the terminal event, in the in-process store; beyond the byte cap the Redis store may refuse an append that it accepts, as `StreamTheorems.StoresRunInLockstep` says. Operations of others on the same stream, such as a cancel, would only renew the deadline once more.
- JSON text is read by `JsonReader` only to say what a canonical text means; in the message chain canonical argument strings are kept as the tree they print. The numeral that `repr` gives a float is kept as it stands, and Python's equality across number types (`True == 1`) is not modelled.
- The index protocol and the Task runs are values changed step by step by the classes `Deployment`, `TaskTable` and `TaskExecutionState`; database transactions are serial, and locks, threads and event loops appear as the order of the steps.
- `prepare_send` binds contexts, resolves models and freezes configurations before the turn is stored; in the model it either fails or stores the turn. What the runtime streams is any sequence of events.
- The order of rows that a query returns is taken from their ids, and fresh ids (UUIDs, attempt ids, block ids) are new by assumption.
- Seeded resources are taken to satisfy the invariant, since bootstrap does not check the scopes it stores.
- The wording of prompts is a parameter; labels of capability sources, which need not be distinct, are left out.
- The web frontend, HTTP routing and authentication, Socket.IO, configuration, migrations, the S3 and file stores, and the model providers: I/O around the modelled core.
