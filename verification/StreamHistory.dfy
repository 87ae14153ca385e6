/**
 What a stream is, said by calls and replies alone: the text is what was appended, the blocks what was upserted, the
 flag and the status what was set, and the stream lives until a time-to-live after the last write.
 */
module StreamHistory {
  import opened Outcomes
  import opened Utf8
  import opened Texts
  import opened BlockIds
  import opened Sequences
  import opened StreamSpec
  import opened StreamTheorems

  // ----- Accepted writes -----------------------------------------------------------------------------

  /** A call that names this stream, writes to it, and was not refused. */
  predicate IsWrite(call: Call, reply: Reply, subtask: nat, generation: string) {
    match call.op
    case Append(s, g, _, _, _) => s == subtask && g == generation && reply.Offset?
    case Upsert(s, g, _) => s == subtask && g == generation && reply == Done
    case SetCancelled(s, g) => s == subtask && g == generation && reply == Done
    case SetStatus(s, g, _) => s == subtask && g == generation && reply == Done
    case _ => false
  }

  /** The accepted writes among these calls, in order. */
  function Writes(calls: seq<Call>, replies: seq<Reply>, subtask: nat, generation: string): seq<Call>
    requires |replies| == |calls|
    decreases |calls|
  {
    if calls == [] then []
    else
      (if IsWrite(calls[0], replies[0], subtask, generation) then [calls[0]] else [])
      + Writes(calls[1..], replies[1..], subtask, generation)
  }

  // ----- What they amount to -------------------------------------------------------------------------

  function Appended(writes: seq<Call>): string {
    if writes == [] then ""
    else (if writes[0].op.Append? then writes[0].op.content else "") + Appended(writes[1..])
  }

  predicate SomeCancel(writes: seq<Call>) {
    exists i :: 0 <= i < |writes| && writes[i].op.SetCancelled?
  }

  function LastStatus(writes: seq<Call>, before: Option<string>): Option<string>
    decreases |writes|
  {
    if writes == [] then before
    else
      var last := writes[|writes| - 1].op;
      if last.SetStatus? then Some(last.payload) else LastStatus(writes[..|writes| - 1], before)
  }

  function LastTime(writes: seq<Call>, before: nat): nat {
    if writes == [] then before else writes[|writes| - 1].now
  }

  /** The ids of the upserted blocks after those already there, each where it was first seen. */
  function FirstSeen(ids: seq<string>, writes: seq<Call>): seq<string>
    decreases |writes|
  {
    if writes == [] then ids
    else
      var op := writes[0].op;
      FirstSeen(if op.Upsert? && op.block.id !in ids then ids + [op.block.id] else ids, writes[1..])
  }

  /** The block that was upserted last under this id. */
  function LastUpsert(writes: seq<Call>, id: string): Option<Block>
    decreases |writes|
  {
    if writes == [] then None
    else
      var last := writes[|writes| - 1].op;
      if last.Upsert? && last.block.id == id then Some(last.block) else LastUpsert(writes[..|writes| - 1], id)
  }

  /** Every block in first-seen order, and each as it was upserted last. */
  predicate AreUpserted(blocks: seq<Block>, writes: seq<Call>) {
    && Ids(blocks) == FirstSeen([], writes)
    && forall k :: 0 <= k < |blocks| ==> LastUpsert(writes, blocks[k].id) == Some(blocks[k])
  }

  // ----- One call ------------------------------------------------------------------------------------

  /** The stream after an accepted write. */
  function Wrote(x: Stream, call: Call, ttl: nat): Stream {
    x.(text := if call.op.Append? then x.text + call.op.content else x.text,
       blocks := if call.op.Upsert? then PutBlock(x.blocks, call.op.block) else x.blocks,
       cancelled := x.cancelled || call.op.SetCancelled?,
       status := if call.op.SetStatus? then Some(call.op.payload) else x.status,
       lastActivityAt := call.now,
       expiresAt := call.now + ttl)
  }

  lemma OneCall(m: Streams, ttl: nat, call: Call, s: nat)
    requires s in m && Leaves(call.op, s) && s in Step(m, call.now, ttl, call.op).0
    ensures var (n, reply) := Step(m, call.now, ttl, call.op);
            n[s] == if IsWrite(call, reply, s, m[s].generation) then Wrote(m[s], call, ttl) else m[s]
  {
    hide PutBlock, Utf16Length, IsBlank, IsBlockId, IsWithinCap;
  }

  lemma RunNext(m: Streams, ttl: nat, calls: seq<Call>)
    ensures |MemoryRun(m, ttl, calls).1| == |calls|
    ensures calls != [] ==>
              var (n, reply) := Step(m, calls[0].now, ttl, calls[0].op);
              && MemoryRun(m, ttl, calls).0 == MemoryRun(n, ttl, calls[1..]).0
              && MemoryRun(m, ttl, calls).1 == [reply] + MemoryRun(n, ttl, calls[1..]).1
    decreases |calls|
  {
    hide Step;
    if calls != [] {
      RunNext(Step(m, calls[0].now, ttl, calls[0].op).0, ttl, calls[1..]);
    }
  }

  // ----- Many calls ----------------------------------------------------------------------------------

  function WroteAll(x: Stream, writes: seq<Call>, ttl: nat): Stream
    decreases |writes|
  {
    if writes == [] then x else WroteAll(Wrote(x, writes[0], ttl), writes[1..], ttl)
  }

  lemma {:induction false} RunWrites(m: Streams, ttl: nat, calls: seq<Call>, s: nat)
    requires s in m && forall i :: 0 <= i < |calls| ==> Leaves(calls[i].op, s)
    requires s in MemoryRun(m, ttl, calls).0
    ensures |MemoryRun(m, ttl, calls).1| == |calls|
    ensures var writes := Writes(calls, MemoryRun(m, ttl, calls).1, s, m[s].generation);
            MemoryRun(m, ttl, calls).0[s] == WroteAll(m[s], writes, ttl)
    decreases |calls|
  {
    hide Step, IsWrite, Wrote, Leaves;
    RunNext(m, ttl, calls);
    if calls != [] {
      var (n, reply) := Step(m, calls[0].now, ttl, calls[0].op);
      hide MemoryRun;
      if s !in n {
        GoneStaysGone(n, ttl, calls[1..], s);
      }
      OneCall(m, ttl, calls[0], s);
      WroteKeepsGeneration(m[s], calls[0], ttl);
      RunWrites(n, ttl, calls[1..], s);
      var rest := MemoryRun(n, ttl, calls[1..]).1;
      assert ([reply] + rest)[1..] == rest;
      WroteOneMore(m[s], calls[0], Writes(calls[1..], rest, s, m[s].generation), ttl);
    }
  }

  lemma WroteKeepsGeneration(x: Stream, call: Call, ttl: nat)
    ensures Wrote(x, call, ttl).generation == x.generation
  {
  }

  lemma WroteOneMore(x: Stream, call: Call, writes: seq<Call>, ttl: nat)
    ensures WroteAll(x, [call] + writes, ttl) == WroteAll(Wrote(x, call, ttl), writes, ttl)
    ensures WroteAll(x, [] + writes, ttl) == WroteAll(x, writes, ttl)
  {
    hide Wrote;
    assert ([call] + writes)[1..] == writes && [] + writes == writes;
  }

  lemma {:induction false} WroteAllIs(x: Stream, writes: seq<Call>, ttl: nat)
    ensures var y := WroteAll(x, writes, ttl);
            && y.task == x.task && y.generation == x.generation && y.startedAt == x.startedAt
            && y.text == x.text + Appended(writes)
            && (y.cancelled <==> x.cancelled || SomeCancel(writes))
            && y.status == LastStatus(writes, x.status)
            && y.lastActivityAt == LastTime(writes, x.lastActivityAt)
            && y.expiresAt == if writes == [] then x.expiresAt else LastTime(writes, 0) + ttl
    decreases |writes|
  {
    hide PutBlock;
    if writes == [] {
      assert x.text + "" == x.text;
    } else {
      var rest := writes[1..];
      WroteAllIs(Wrote(x, writes[0], ttl), rest, ttl);
      assert writes == [writes[0]] + rest;
      StatusFirst(writes[0], rest, x.status);
      CancelFirst(writes[0], rest);
      TextFirst(x.text, writes[0], rest);
      hide WroteAll, Appended, SomeCancel, LastStatus;
    }
  }

  lemma TextFirst(before: string, first: Call, rest: seq<Call>)
    ensures before + Appended([first] + rest)
            == (if first.op.Append? then before + first.op.content else before) + Appended(rest)
  {
    assert ([first] + rest)[1..] == rest;
    if first.op.Append? {
      assert before + (first.op.content + Appended(rest)) == before + first.op.content + Appended(rest);
    } else {
      assert "" + Appended(rest) == Appended(rest);
    }
  }

  lemma {:induction false} StatusFirst(first: Call, rest: seq<Call>, before: Option<string>)
    ensures LastStatus([first] + rest, before)
            == LastStatus(rest, if first.op.SetStatus? then Some(first.op.payload) else before)
    decreases |rest|
  {
    var all := [first] + rest;
    if rest == [] {
      assert all[..0] == [];
    } else {
      assert all[..|all| - 1] == [first] + rest[..|rest| - 1];
      StatusFirst(first, rest[..|rest| - 1], before);
    }
  }

  lemma CancelFirst(first: Call, rest: seq<Call>)
    ensures SomeCancel([first] + rest) <==> first.op.SetCancelled? || SomeCancel(rest)
  {
    var all := [first] + rest;
    assert all[0] == first;
    forall i | 0 <= i < |rest|
      ensures all[i + 1] == rest[i]
    {
    }
    if i :| 0 <= i < |all| && all[i].op.SetCancelled? {
      if i > 0 {
        assert rest[i - 1].op.SetCancelled?;
      }
    }
    if i :| 0 <= i < |rest| && rest[i].op.SetCancelled? {
      assert all[i + 1].op.SetCancelled?;
    }
  }

  // ----- Blocks --------------------------------------------------------------------------------------

  /** What is already there, and what is upserted later. */
  predicate AreKept(blocks: seq<Block>, before: seq<Block>, writes: seq<Call>) {
    && Ids(blocks) == FirstSeen(Ids(before), writes)
    && forall k :: 0 <= k < |blocks| ==>
         match LastUpsert(writes, blocks[k].id)
         case None => blocks[k] in before
         case Some(b) => blocks[k] == b
  }

  lemma {:induction false} UpsertFirst(first: Call, rest: seq<Call>, id: string)
    ensures LastUpsert([first] + rest, id)
            == if LastUpsert(rest, id).Some? then LastUpsert(rest, id)
               else if first.op.Upsert? && first.op.block.id == id then Some(first.op.block) else None
    decreases |rest|
  {
    var all := [first] + rest;
    if rest == [] {
      assert all[..0] == [];
    } else {
      assert all[..|all| - 1] == [first] + rest[..|rest| - 1];
      UpsertFirst(first, rest[..|rest| - 1], id);
    }
  }

  lemma {:induction false} WroteAllBlocks(x: Stream, writes: seq<Call>, ttl: nat)
    requires DistinctIds(x.blocks)
    ensures AreKept(WroteAll(x, writes, ttl).blocks, x.blocks, writes)
    decreases |writes|
  {
    hide PutBlock, DistinctIds, Ids;
    if writes != [] {
      var (first, rest) := (writes[0], writes[1..]);
      var next := Wrote(x, first, ttl);
      if first.op.Upsert? {
        PutBlockKeepsOrder(x.blocks, first.op.block);
      }
      WroteAllBlocks(next, rest, ttl);
      var blocks := WroteAll(x, writes, ttl).blocks;
      assert writes == [first] + rest;
      hide WroteAll, FirstSeen, Wrote;
      FirstSeenNext(Ids(x.blocks), first, rest);
      NextIds(x, first, ttl);
      forall k | 0 <= k < |blocks|
        ensures match LastUpsert(writes, blocks[k].id)
                case None => blocks[k] in x.blocks
                case Some(b) => blocks[k] == b
      {
        UpsertFirst(first, rest, blocks[k].id);
        if LastUpsert(rest, blocks[k].id).None? {
          OneBlock(x, first, ttl, blocks[k]);
        }
      }
    }
  }

  lemma FirstSeenNext(ids: seq<string>, first: Call, rest: seq<Call>)
    ensures FirstSeen(ids, [first] + rest)
            == FirstSeen(if first.op.Upsert? && first.op.block.id !in ids then ids + [first.op.block.id] else ids, rest)
  {
    assert ([first] + rest)[1..] == rest;
  }

  lemma NextIds(x: Stream, call: Call, ttl: nat)
    ensures Ids(Wrote(x, call, ttl).blocks)
            == if call.op.Upsert? && call.op.block.id !in Ids(x.blocks) then Ids(x.blocks) + [call.op.block.id]
               else Ids(x.blocks)
  {
    hide Ids, PutBlock, DistinctIds;
    if call.op.Upsert? {
      PutBlockKeepsOrder(x.blocks, call.op.block);
    }
  }

  lemma OneBlock(x: Stream, call: Call, ttl: nat, b: Block)
    requires DistinctIds(x.blocks) && b in Wrote(x, call, ttl).blocks
    ensures if call.op.Upsert? && call.op.block.id == b.id then b == call.op.block else b in x.blocks
  {
    hide PutBlock;
    if call.op.Upsert? {
      var (block, after) := (call.op.block, PutBlock(x.blocks, call.op.block));
      PutBlockKeepsOrder(x.blocks, block);
      PutBlockReplacesOne(x.blocks, block);
      if b.id == block.id {
        var i :| 0 <= i < |after| && after[i] == b;
        var j :| 0 <= j < |after| && after[j] == block;
        assert Ids(after)[i] == Ids(after)[j];
      }
    }
  }

  // ----- The life of a stream ------------------------------------------------------------------------

  /** The start of a stream, and calls of which none starts its subtask again or finalizes it. */
  predicate IsLife(start: Call, later: seq<Call>) {
    start.op.Start? && Accepts(start.op) && forall i :: 0 <= i < |later| ==> Leaves(later[i].op, start.op.subtask)
  }

  /** A snapshot that tells what was started and written since. */
  predicate Recovers(x: Snapshot, start: Call, writes: seq<Call>)
    requires start.op.Start?
  {
    && x.task == start.op.task && x.subtask == start.op.subtask && x.generation == start.op.generation
    && x.cachedContent == Appended(writes) && x.offset == Utf16Length(Appended(writes))
    && AreUpserted(x.blocks, writes) && x.status == LastStatus(writes, None)
    && x.startedAt == start.now && x.lastActivityAt == LastTime(writes, start.now)
  }

  /**
   A stream that is still alive: whether it is cancelled, and what a client recovers of it, are what was accepted since
   it was started, said by calls and replies.
   */
  lemma StreamIsItsHistory(m: Streams, ttl: nat, start: Call, later: seq<Call>, now: nat)
    requires IsLife(start, later) && WellFormed(m)
    requires start.op.subtask in Live(MemoryRun(m, ttl, [start] + later).0, now)
    ensures |MemoryRun(m, ttl, [start] + later).1| == 1 + |later|
    ensures var (task, s, g) := (start.op.task, start.op.subtask, start.op.generation);
            var (end, replies) := MemoryRun(m, ttl, [start] + later);
            var writes := Writes(later, replies[1..], s, g);
            && Step(end, now, ttl, IsCancelled(s, g)).1 == Flag(SomeCancel(writes))
            && Step(end, now, ttl, GetActive(task)).1.Active?
            && Step(end, now, ttl, GetActive(task)).1.snapshot.Some?
            && Recovers(Step(end, now, ttl, GetActive(task)).1.snapshot.value, start, writes)
  {
    hide Step, MemoryRun, Accepts, WellFormed, Live;
    var (task, s, g) := (start.op.task, start.op.subtask, start.op.generation);
    var all := [start] + later;
    RunNext(m, ttl, all);
    assert all[1..] == later;
    var n := Step(m, start.now, ttl, start.op).0;
    StartMakesNew(m, start, ttl);
    var rest := MemoryRun(n, ttl, later).1;
    assert MemoryRun(m, ttl, all).1[1..] == rest;
    var end := MemoryRun(n, ttl, later).0;
    LiveIsThere(end, now, s);
    RunWrites(n, ttl, later, s);
    var writes := Writes(later, rest, s, g);
    WroteAllIs(n[s], writes, ttl);
    NoBlocksAreDistinct();
    WroteAllBlocks(n[s], writes, ttl);
    RunsKeepWellFormed(m, ttl, all);
    AnswersOf(end, now, ttl, s);
    KeptFromNothing(end[s].blocks, writes);
  }

  lemma KeptFromNothing(blocks: seq<Block>, writes: seq<Call>)
    requires AreKept(blocks, [], writes)
    ensures AreUpserted(blocks, writes)
  {
    assert Ids([]) == [];
  }

  lemma StartMakesNew(m: Streams, start: Call, ttl: nat)
    requires start.op.Start? && Accepts(start.op)
    ensures var n := Step(m, start.now, ttl, start.op).0;
            && start.op.subtask in n
            && n[start.op.subtask] == NewStream(start.op.task, start.op.generation, start.now, ttl)
  {
    hide IsBlank;
  }

  lemma LiveIsThere(m: Streams, now: nat, s: nat)
    requires s in Live(m, now)
    ensures s in m && m[s].expiresAt > now
  {
  }

  lemma AnswersOf(m: Streams, now: nat, ttl: nat, s: nat)
    requires WellFormed(m) && s in Live(m, now)
    ensures Step(m, now, ttl, IsCancelled(s, m[s].generation)).1 == Flag(m[s].cancelled)
    ensures Step(m, now, ttl, GetActive(m[s].task)).1 == Active(Some(SnapshotOf(s, m[s])))
  {
    hide IsBlank, GoodBlocks, IsWithinCap, Utf16Length;
    assert s > 0 && GoodStream(m[s]);
    LiveIsWellFormed(m, now);
    ActiveIs(Live(m, now), s);
  }

  // ----- Who is answered, and for how long -----------------------------------------------------------

  /** A block id: up to 36 letters, digits, dots, underscores, colons and hyphens. */
  predicate IsGoodId(id: string) {
    && 1 <= |id| <= 36
    && forall i :: 0 <= i < |id| ==>
         || 'a' <= id[i] <= 'z' || 'A' <= id[i] <= 'Z' || '0' <= id[i] <= '9'
         || id[i] == '.' || id[i] == '_' || id[i] == ':' || id[i] == '-'
  }

  /** A JSON text of at most four mebibytes. */
  predicate IsGoodJson(json: string) {
    1 <= |json| && |Encode(json)| <= 4194304
  }

  /** Ids are positive, a generation is more than whitespace, blocks and statuses are well formed and not too long. */
  predicate HasGoodArguments(op: Op) {
    && (op.Start? || op.GetActive? || op.Validate? || op.Finalize? ==> op.task > 0)
    && (!op.GetActive? ==> op.subtask > 0 && exists i :: 0 <= i < |op.generation| && !IsSpace(op.generation[i]))
    && (op.Append? ==> IsGoodId(op.blockId)) && (op.Upsert? ==> IsGoodId(op.block.id) && IsGoodJson(op.block.json))
    && (op.SetStatus? ==> IsGoodJson(op.payload))
  }

  /** Calls with bad arguments are refused before any stream is looked at, and no others. */
  lemma BadArgumentsAreRefused(m: Streams, now: nat, ttl: nat, op: Op)
    ensures Accepts(op) <==> HasGoodArguments(op)
    ensures !HasGoodArguments(op) ==> Step(m, now, ttl, op) == (Live(m, now), Refused)
  {
    IdsAre();
    hide IsSpace, Encode, Step;
    if !Accepts(op) {
      RefusedAtOnce(m, now, ttl, op);
    }
  }

  lemma IdsAre()
    ensures forall id :: IsBlockId(id) <==> IsGoodId(id)
  {
  }

  lemma RefusedAtOnce(m: Streams, now: nat, ttl: nat, op: Op)
    requires !Accepts(op)
    ensures Step(m, now, ttl, op) == (Live(m, now), Refused)
  {
    hide Accepts;
  }

  /** The calls that only the current generation of a live stream may make. */
  predicate IsFenced(op: Op) {
    op.Validate? || op.Append? || op.Upsert? || op.SetCancelled? || op.SetStatus?
  }

  /**
   A call with good arguments succeeds if and only if the stream it names is alive in the generation
   it names, and, for a validation, of that task, or, for an append, has a text of that many UTF-16 code units.
   */
  lemma FencedCallsSucceedExactly(m: Streams, now: nat, ttl: nat, op: Op, s: nat, g: string)
    requires HasGoodArguments(op) && IsFenced(op) && Names(op, s, g)
    ensures Step(m, now, ttl, op).1 != Refused
            <==> && s in m && now < m[s].expiresAt && m[s].generation == g
                 && (op.Validate? ==> m[s].task == op.task)
                 && (op.Append? ==> op.offset == Utf16Length(m[s].text))
    ensures op.Append? && Step(m, now, ttl, op).1 != Refused ==>
              Step(m, now, ttl, op).1 == Offset(op.offset + Utf16Length(op.content))
  {
    BadArgumentsAreRefused(m, now, ttl, op);
    hide HasGoodArguments, PutBlock, Utf16Length, IsBlank, IsBlockId, IsWithinCap;
  }

  /** What a live stream does not survive: its finalization, by task and generation, and another start of its task. */
  lemma StreamsEndExactly(m: Streams, now: nat, ttl: nat, op: Op, s: nat)
    requires Accepts(op) && s in Live(m, now)
    ensures s !in Step(m, now, ttl, op).0
            <==> || (op.Finalize? && op.subtask == s && op.task == m[s].task && op.generation == m[s].generation)
                 || (op.Start? && op.subtask != s && op.task == m[s].task)
  {
    hide PutBlock, Utf16Length, IsBlank, IsBlockId, IsWithinCap;
  }

  /** What is answered where nothing is found. */
  lemma AbsentStreamsAnswer(m: Streams, now: nat, ttl: nat, task: nat, s: nat, g: string)
    requires Accepts(GetActive(task)) && Accepts(IsCancelled(s, g))
    ensures Step(m, now, ttl, GetActive(task)).1 == Active(None)
            <==> forall u :: u in m && m[u].task == task ==> m[u].expiresAt <= now
    ensures s !in m || m[s].expiresAt <= now ==> Step(m, now, ttl, IsCancelled(s, g)).1 == Flag(false)
    ensures s in m && now < m[s].expiresAt && m[s].generation != g ==>
              Step(m, now, ttl, IsCancelled(s, g)).1 == Refused
  {
    hide IsBlank, Utf16Length;
    var live := Live(m, now);
    if u :| u in m && m[u].task == task && m[u].expiresAt > now {
      assert u in live && live[u].task == task;
    }
  }

  predicate StartsTask(op: Op, task: nat) {
    op.Start? && op.task == task
  }

  /** No call is later than `now`. */
  predicate NoneAfter(calls: seq<Call>, now: nat)
    decreases |calls|
  {
    calls == [] || (calls[0].now <= now && NoneAfter(calls[1..], now))
  }

  lemma OneCallKeeps(m: Streams, ttl: nat, call: Call, s: nat)
    requires s in m && Leaves(call.op, s) && !StartsTask(call.op, m[s].task)
    ensures s in Step(m, call.now, ttl, call.op).0 <==> call.now < m[s].expiresAt
    ensures call.now >= m[s].expiresAt ==>
              !IsWrite(call, Step(m, call.now, ttl, call.op).1, s, m[s].generation)
  {
    hide PutBlock, Utf16Length, IsBlank, IsBlockId, IsWithinCap;
  }

  lemma {:induction false} NoWritesToNothing(m: Streams, ttl: nat, calls: seq<Call>, s: nat, g: string)
    requires s !in m && forall i :: 0 <= i < |calls| ==> Leaves(calls[i].op, s)
    ensures |MemoryRun(m, ttl, calls).1| == |calls| && Writes(calls, MemoryRun(m, ttl, calls).1, s, g) == []
    decreases |calls|
  {
    hide Step, IsWrite, Leaves;
    RunNext(m, ttl, calls);
    if calls != [] {
      var (n, reply) := Step(m, calls[0].now, ttl, calls[0].op);
      NothingIsWritten(m, ttl, calls[0], s, g);
      NoWritesToNothing(n, ttl, calls[1..], s, g);
      assert ([reply] + MemoryRun(n, ttl, calls[1..]).1)[1..] == MemoryRun(n, ttl, calls[1..]).1;
    }
  }

  lemma NothingIsWritten(m: Streams, ttl: nat, call: Call, s: nat, g: string)
    requires s !in m && Leaves(call.op, s)
    ensures s !in Step(m, call.now, ttl, call.op).0 && !IsWrite(call, Step(m, call.now, ttl, call.op).1, s, g)
  {
    hide PutBlock, Utf16Length, IsBlank, IsBlockId, IsWithinCap;
  }

  lemma {:induction false} LivesFrom(m: Streams, ttl: nat, calls: seq<Call>, s: nat, last: nat, now: nat)
    requires s in m && m[s].expiresAt == last + ttl && NoneAfter(calls, now)
    requires forall i :: 0 <= i < |calls| ==> Leaves(calls[i].op, s) && !StartsTask(calls[i].op, m[s].task)
    ensures |MemoryRun(m, ttl, calls).1| == |calls|
    ensures var writes := Writes(calls, MemoryRun(m, ttl, calls).1, s, m[s].generation);
            s in Live(MemoryRun(m, ttl, calls).0, now) <==> now < LastTime(writes, last) + ttl
    decreases |calls|
  {
    hide Step, IsWrite, Leaves, StartsTask;
    RunNext(m, ttl, calls);
    if calls != [] {
      var (call, rest) := (calls[0], calls[1..]);
      var (n, reply) := Step(m, call.now, ttl, call.op);
      OneCallKeeps(m, ttl, call, s);
      var others := MemoryRun(n, ttl, rest).1;
      assert ([reply] + others)[1..] == others;
      hide MemoryRun;
      if s in n {
        OneCall(m, ttl, call, s);
        var wrote := IsWrite(call, reply, s, m[s].generation);
        LivesFrom(n, ttl, rest, s, if wrote then call.now else last, now);
        LastTimeNext(call, Writes(rest, others, s, m[s].generation), last);
      } else {
        NoWritesToNothing(n, ttl, rest, s, m[s].generation);
        GoneStaysGone(n, ttl, rest, s);
      }
    }
  }

  lemma LastTimeNext(first: Call, rest: seq<Call>, last: nat)
    ensures LastTime([first] + rest, last) == LastTime(rest, first.now)
    ensures LastTime([] + rest, last) == LastTime(rest, last)
  {
    assert [] + rest == rest;
  }

  /**
   Unless its task is started elsewhere, a stream is alive exactly until a time-to-live after the last call that wrote
   to it, whatever else is called in between.
   */
  lemma StreamLivesExactly(m: Streams, ttl: nat, start: Call, later: seq<Call>, now: nat)
    requires IsLife(start, later) && NoneAfter(later, now)
    requires forall i :: 0 <= i < |later| ==> !StartsTask(later[i].op, start.op.task)
    ensures |MemoryRun(m, ttl, [start] + later).1| == 1 + |later|
    ensures var (end, replies) := MemoryRun(m, ttl, [start] + later);
            var writes := Writes(later, replies[1..], start.op.subtask, start.op.generation);
            start.op.subtask in Live(end, now) <==> now < LastTime(writes, start.now) + ttl
  {
    hide Step, MemoryRun, Accepts, Live, Leaves, StartsTask;
    RunNext(m, ttl, [start] + later);
    assert ([start] + later)[1..] == later;
    var n := Step(m, start.now, ttl, start.op).0;
    StartMakesNew(m, start, ttl);
    var rest := MemoryRun(n, ttl, later).1;
    assert MemoryRun(m, ttl, [start] + later).1[1..] == rest;
    LivesFrom(n, ttl, later, start.op.subtask, start.now, now);
  }
}
