/**
 The ephemeral chat stream store, said once: at most one live stream per subtask and per task, text at
 UTF-16 offsets, blocks in first-seen order, fenced by generation and gone when its time is up. Both the
 in-process store and the Redis scripts are proved against the functions of this module.
 */
module StreamSpec {
  import opened Outcomes
  import opened Utf8
  import opened Texts
  import opened Sequences
  import opened BlockIds
  import JsonSafety

  /** A canonical block: its id and its canonical JSON text. */
  datatype Block = Block(id: string, json: string)

  datatype Stream = Stream(
    task: nat,
    generation: string,
    text: string,
    blocks: seq<Block>,
    startedAt: nat,
    lastActivityAt: nat,
    status: Option<string>,
    cancelled: bool,
    expiresAt: nat)

  /** Streams by subtask id. */
  type Streams = map<nat, Stream>

  datatype Snapshot = Snapshot(
    task: nat, subtask: nat, generation: string, offset: nat, cachedContent: string,
    blocks: seq<Block>, startedAt: nat, lastActivityAt: nat, status: Option<string>)

  datatype Op =
    | Start(task: nat, subtask: nat, generation: string)
    | GetActive(task: nat)
    | Validate(task: nat, subtask: nat, generation: string)
    | Append(subtask: nat, generation: string, blockId: string, offset: nat, content: string)
    | Upsert(subtask: nat, generation: string, block: Block)
    | SetCancelled(subtask: nat, generation: string)
    | IsCancelled(subtask: nat, generation: string)
    | SetStatus(subtask: nat, generation: string, payload: string)
    | Finalize(task: nat, subtask: nat, generation: string)

  /** Every exception is `Refused`: the two stores do not agree on which one they raise. */
  datatype Reply = Done | Offset(units: nat) | Active(snapshot: Option<Snapshot>) | Flag(raised: bool) | Refused

  // ----- Arguments -----------------------------------------------------------------------------------

  const MAX_JSON_CANONICAL_BYTES: nat := JsonSafety.MAX_CANONICAL_BYTES

  /** JSON text that `canonical_json` would have returned is never empty and never longer than this. */
  predicate IsWithinCap(json: string) {
    json != "" && |Encode(json)| <= MAX_JSON_CANONICAL_BYTES
  }

  /** The checks both stores make on their arguments before they look at any state. */
  predicate Accepts(op: Op) {
    match op
    case Start(task, subtask, generation) => task > 0 && subtask > 0 && !IsBlank(generation)
    case GetActive(task) => task > 0
    case Validate(task, subtask, generation) => task > 0 && subtask > 0 && !IsBlank(generation)
    case Append(subtask, generation, blockId, _, _) => subtask > 0 && !IsBlank(generation) && IsBlockId(blockId)
    case Upsert(subtask, generation, block) =>
      subtask > 0 && !IsBlank(generation) && IsBlockId(block.id) && IsWithinCap(block.json)
    case SetCancelled(subtask, generation) => subtask > 0 && !IsBlank(generation)
    case IsCancelled(subtask, generation) => subtask > 0 && !IsBlank(generation)
    case SetStatus(subtask, generation, payload) => subtask > 0 && !IsBlank(generation) && IsWithinCap(payload)
    case Finalize(task, subtask, generation) => task > 0 && subtask > 0 && !IsBlank(generation)
  }

  // ----- Blocks --------------------------------------------------------------------------------------

  function Ids(blocks: seq<Block>): (ids: seq<string>)
    ensures |ids| == |blocks|
    ensures forall i :: 0 <= i < |ids| ==> ids[i] == blocks[i].id
  {
    seq(|blocks|, i requires 0 <= i < |blocks| => blocks[i].id)
  }

  predicate DistinctIds(blocks: seq<Block>) {
    NoRepeats(Ids(blocks))
  }

  /** Replace the block of that id where it stands, or append it. */
  function PutBlock(blocks: seq<Block>, block: Block): seq<Block> {
    if blocks == [] then [block]
    else if blocks[0].id == block.id then [block] + blocks[1..]
    else [blocks[0]] + PutBlock(blocks[1..], block)
  }

  lemma IdsNext(b: Block, rest: seq<Block>)
    ensures Ids([b] + rest) == [b.id] + Ids(rest)
  {
  }

  lemma {:induction false} PutBlockIds(blocks: seq<Block>, block: Block)
    ensures Ids(PutBlock(blocks, block)) == if block.id in Ids(blocks) then Ids(blocks) else Ids(blocks) + [block.id]
  {
    if blocks == [] {
      IdsNext(block, []);
    } else {
      var first, rest := blocks[0], blocks[1..];
      PutBlockIds(rest, block);
      assert blocks == [first] + rest;
      hide Ids;
      IdsNext(first, rest);
      IdsNext(block, rest);
      IdsNext(first, PutBlock(rest, block));
      assert [first.id] + (Ids(rest) + [block.id]) == [first.id] + Ids(rest) + [block.id];
    }
  }

  /** First-seen order: an upsert never moves an id, and appends one at most. */
  lemma PutBlockKeepsOrder(blocks: seq<Block>, block: Block)
    ensures Ids(PutBlock(blocks, block)) == if block.id in Ids(blocks) then Ids(blocks) else Ids(blocks) + [block.id]
    ensures DistinctIds(blocks) ==> DistinctIds(PutBlock(blocks, block))
  {
    hide Ids, PutBlock, NoRepeats;
    PutBlockIds(blocks, block);
    LastIsNew(Ids(blocks), block.id);
  }

  lemma {:induction false} PutBlockAt(blocks: seq<Block>, block: Block, k: nat)
    requires k <= |blocks| && forall j :: 0 <= j < k ==> blocks[j].id != block.id
    ensures k < |blocks| && blocks[k].id == block.id ==> PutBlock(blocks, block) == blocks[k := block]
    ensures k == |blocks| ==> PutBlock(blocks, block) == blocks + [block]
  {
    if blocks != [] && k > 0 {
      PutBlockAt(blocks[1..], block, k - 1);
    }
  }

  /** The upserted block replaces the one of its id; every other block stays what it was. */
  lemma {:induction false} PutBlockReplacesOne(blocks: seq<Block>, block: Block)
    ensures block in PutBlock(blocks, block)
    ensures forall b :: b in PutBlock(blocks, block) ==> b == block || b in blocks
    ensures forall b :: b in blocks && b.id != block.id ==> b in PutBlock(blocks, block)
  {
    if blocks != [] {
      PutBlockReplacesOne(blocks[1..], block);
      assert blocks == [blocks[0]] + blocks[1..];
    }
  }

  // ----- Streams -------------------------------------------------------------------------------------

  function Live(m: Streams, now: nat): Streams {
    map s | s in m && m[s].expiresAt > now :: m[s]
  }

  ghost predicate OneStreamPerTask(m: Streams) {
    forall s, u :: s in m && u in m && m[s].task == m[u].task ==> s == u
  }

  ghost predicate GoodBlocks(blocks: seq<Block>) {
    DistinctIds(blocks) && forall b :: b in blocks ==> IsBlockId(b.id) && IsWithinCap(b.json)
  }

  ghost predicate GoodStream(x: Stream) {
    && x.task > 0 && !IsBlank(x.generation)
    && GoodBlocks(x.blocks)
    && (x.status.Some? ==> IsWithinCap(x.status.value))
  }

  lemma StaysGood(x: Stream, y: Stream)
    requires GoodStream(x) && y.task == x.task && y.generation == x.generation
    requires y.blocks == x.blocks || GoodBlocks(y.blocks)
    requires y.status == x.status || (y.status.Some? && IsWithinCap(y.status.value))
    ensures GoodStream(y)
  {
    hide GoodBlocks, IsWithinCap, IsBlank;
  }

  lemma PutBlockStaysGood(blocks: seq<Block>, block: Block)
    requires GoodBlocks(blocks) && IsBlockId(block.id) && IsWithinCap(block.json)
    ensures GoodBlocks(PutBlock(blocks, block))
  {
    hide IsBlockId, IsWithinCap, DistinctIds, PutBlock;
    PutBlockKeepsOrder(blocks, block);
    PutBlockReplacesOne(blocks, block);
  }

  ghost predicate WellFormed(m: Streams) {
    OneStreamPerTask(m) && forall s :: s in m ==> s > 0 && GoodStream(m[s])
  }

  function NewStream(task: nat, generation: string, now: nat, ttl: nat): Stream {
    Stream(task, generation, "", [], now, now, None, false, now + ttl)
  }

  function Started(live: Streams, now: nat, ttl: nat, task: nat, subtask: nat, generation: string): Streams {
    (map s | s in live && live[s].task != task :: live[s])[subtask := NewStream(task, generation, now, ttl)]
  }

  function SnapshotOf(subtask: nat, x: Stream): Snapshot {
    Snapshot(x.task, subtask, x.generation, Utf16Length(x.text), x.text, x.blocks, x.startedAt, x.lastActivityAt,
             x.status)
  }

  predicate Fenced(live: Streams, subtask: nat, generation: string) {
    subtask in live && live[subtask].generation == generation
  }

  function Touched(live: Streams, subtask: nat, x: Stream, now: nat, ttl: nat): Streams {
    live[subtask := x.(lastActivityAt := now, expiresAt := now + ttl)]
  }

  ghost function ActiveOf(live: Streams, task: nat): Option<Snapshot> {
    if exists s :: s in live && live[s].task == task
    then
      var s :| s in live && live[s].task == task;
      Some(SnapshotOf(s, live[s]))
    else None
  }

  lemma ActiveIs(live: Streams, s: nat)
    requires OneStreamPerTask(live) && s in live
    ensures ActiveOf(live, live[s].task) == Some(SnapshotOf(s, live[s]))
  {
  }

  ghost function Step(m: Streams, now: nat, ttl: nat, op: Op): (Streams, Reply) {
    var live := Live(m, now);
    if !Accepts(op) then (live, Refused)
    else
      match op
      case Start(task, subtask, generation) => (Started(live, now, ttl, task, subtask, generation), Done)
      case GetActive(task) => (live, Active(ActiveOf(live, task)))
      case Validate(task, subtask, generation) =>
        (live, if Fenced(live, subtask, generation) && live[subtask].task == task then Done else Refused)
      case Append(subtask, generation, _, offset, content) =>
        if Fenced(live, subtask, generation) && Utf16Length(live[subtask].text) == offset then
          (Touched(live, subtask, live[subtask].(text := live[subtask].text + content), now, ttl),
           Offset(offset + Utf16Length(content)))
        else (live, Refused)
      case Upsert(subtask, generation, block) =>
        if Fenced(live, subtask, generation) then
          (Touched(live, subtask, live[subtask].(blocks := PutBlock(live[subtask].blocks, block)), now, ttl), Done)
        else (live, Refused)
      case SetCancelled(subtask, generation) =>
        if Fenced(live, subtask, generation)
        then (Touched(live, subtask, live[subtask].(cancelled := true), now, ttl), Done)
        else (live, Refused)
      case IsCancelled(subtask, generation) =>
        if subtask !in live then (live, Flag(false))
        else (live, if Fenced(live, subtask, generation) then Flag(live[subtask].cancelled) else Refused)
      case SetStatus(subtask, generation, payload) =>
        if Fenced(live, subtask, generation)
        then (Touched(live, subtask, live[subtask].(status := Some(payload)), now, ttl), Done)
        else (live, Refused)
      case Finalize(task, subtask, generation) =>
        if Fenced(live, subtask, generation) && live[subtask].task == task
        then (live - {subtask}, Done)
        else (live, Done)
  }

  // ----- What every operation keeps ------------------------------------------------------------------

  lemma LiveAgain(m: Streams, now: nat, later: nat)
    requires now <= later
    ensures Live(Live(m, now), later) == Live(m, later)
  {
  }

  lemma LiveIsWellFormed(m: Streams, now: nat)
    requires WellFormed(m)
    ensures WellFormed(Live(m, now))
  {
  }

  lemma NoBlocksAreDistinct()
    ensures DistinctIds([])
  {
  }

  lemma StepKeepsWellFormed(m: Streams, now: nat, ttl: nat, op: Op)
    requires WellFormed(m)
    ensures WellFormed(Step(m, now, ttl, op).0)
  {
    hide IsBlank, IsBlockId, IsWithinCap, GoodBlocks, PutBlock, Live;
    LiveIsWellFormed(m, now);
    if Accepts(op) {
      if op.Start? {
        StartedIsWellFormed(Live(m, now), now, ttl, op.task, op.subtask, op.generation);
      } else if op.Upsert? && op.subtask in Live(m, now) {
        PutBlockStaysGood(Live(m, now)[op.subtask].blocks, op.block);
      }
    }
  }

  lemma StartedIsWellFormed(live: Streams, now: nat, ttl: nat, task: nat, subtask: nat, generation: string)
    requires WellFormed(live) && task > 0 && subtask > 0 && !IsBlank(generation)
    ensures WellFormed(Started(live, now, ttl, task, subtask, generation))
  {
    hide IsBlank, IsBlockId, IsWithinCap, DistinctIds;
    NoBlocksAreDistinct();
  }

  /** A refused operation changes no live stream. */
  lemma RefusedChangesNothing(m: Streams, now: nat, ttl: nat, op: Op)
    requires Step(m, now, ttl, op).1 == Refused
    ensures Step(m, now, ttl, op).0 == Live(m, now)
  {
  }

  predicate Names(op: Op, subtask: nat, generation: string) {
    match op
    case Start(_, _, _) => false
    case GetActive(_) => false
    case Validate(_, s, g) => s == subtask && g == generation
    case Append(s, g, _, _, _) => s == subtask && g == generation
    case Upsert(s, g, _) => s == subtask && g == generation
    case SetCancelled(s, g) => s == subtask && g == generation
    case IsCancelled(s, g) => s == subtask && g == generation
    case SetStatus(s, g, _) => s == subtask && g == generation
    case Finalize(_, s, g) => s == subtask && g == generation
  }

  /** Generation fencing: only a start, or an operation that names it, ever changes a live stream. */
  lemma StaleGenerationsChangeNothing(m: Streams, now: nat, ttl: nat, op: Op, subtask: nat)
    requires !op.Start? && subtask in Live(m, now) && !Names(op, subtask, m[subtask].generation)
    ensures subtask in Step(m, now, ttl, op).0
    ensures Step(m, now, ttl, op).0[subtask] == m[subtask]
  {
  }

  /** Operations see only what is alive, so a store may forget expired streams at any time. */
  lemma StepSeesOnlyLive(m: Streams, n: Streams, now: nat, ttl: nat, op: Op)
    requires Live(m, now) == Live(n, now)
    ensures Step(m, now, ttl, op) == Step(n, now, ttl, op)
  {
  }
}
