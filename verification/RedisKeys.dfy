/**
 The keys and hashes of the Redis stream store: the decisions that the Lua scripts take over them, check by check
 in the order of the scripts, and how such keys stand for the streams of `StreamSpec`.
 */
module RedisKeys {
  import opened Outcomes
  import opened Utf8
  import opened Decimal
  import opened Texts
  import opened Sequences
  import opened BlockIds
  import opened StreamSpec

  // ----- What Redis holds ----------------------------------------------------------------------------

  /** The hash at `<prefix>:subtask:<id>:stream`; a field that is not set is `None`. */
  datatype Fields = Fields(
    taskId: Option<string>,
    subtaskId: Option<string>,
    generationId: Option<string>,
    offset: Option<string>,
    cachedContent: Option<Bytes>,
    blockOrder: Option<seq<string>>,
    startedAt: Option<nat>,
    lastActivityAt: Option<nat>,
    cancelled: Option<string>,
    statusUpdated: Option<string>,
    blocks: map<string, Block>)

  /** Entries also stand for keys that hold something else than a hash: `TYPE` tells them apart. */
  datatype StreamEntry = StreamHash(fields: Fields, expiresAt: nat) | OtherStream(expiresAt: nat)

  /** The key `<prefix>:task:<id>:active`. */
  datatype TaskEntry = TaskHash(subtaskId: Option<string>, expiresAt: nat) | OtherTask(expiresAt: nat)

  type TaskKeys = map<string, TaskEntry>
  type StreamKeys = map<string, StreamEntry>

  datatype Code = Passed | NotActive | Malformed | Stale | BadOffset

  // ----- The decisions of the scripts ----------------------------------------------------------------

  predicate Complete(f: Fields) {
    && f.taskId.Some? && f.subtaskId.Some? && f.generationId.Some? && f.offset.Some? && f.cachedContent.Some?
    && f.blockOrder.Some? && f.startedAt.Some? && f.lastActivityAt.Some? && f.cancelled.Some?
  }

  predicate Numeric(v: Option<string>) {
    v.Some? && IsNumeral(v.value)
  }

  predicate HasFlag(f: Fields) {
    f.cancelled == Some("0") || f.cancelled == Some("1")
  }

  /** Every script that guards a live hash makes these checks on its fields. */
  predicate Sound(f: Fields) {
    Complete(f) && Numeric(f.taskId) && Numeric(f.subtaskId) && Numeric(f.offset) && HasFlag(f)
  }

  function PointerCode(tasks: TaskKeys, f: Fields): Code
    requires f.taskId.Some?
  {
    if f.taskId.value !in tasks || !tasks[f.taskId.value].TaskHash? then Malformed
    else if tasks[f.taskId.value].subtaskId != f.subtaskId then NotActive
    else Passed
  }

  function OldStreamCode(streams: StreamKeys, prior: string, task: string): Code {
    if prior !in streams || !streams[prior].StreamHash? || !Complete(streams[prior].fields) then Malformed
    else if streams[prior].fields.taskId != Some(task) || streams[prior].fields.subtaskId != Some(prior) then Malformed
    else Passed
  }

  function StartCode(tasks: TaskKeys, streams: StreamKeys, task: string, subtask: string): Code {
    if (task in tasks && !tasks[task].TaskHash?) || (subtask in streams && !streams[subtask].StreamHash?) then Malformed
    else if task in tasks && !Numeric(tasks[task].subtaskId) then Malformed
    else if task in tasks && tasks[task].subtaskId.value != subtask
            && OldStreamCode(streams, tasks[task].subtaskId.value, task) == Malformed then Malformed
    else if subtask in streams && !(Complete(streams[subtask].fields) && Numeric(streams[subtask].fields.taskId))
    then Malformed
    else if subtask in streams then
      var oldTask := streams[subtask].fields.taskId.value;
      if oldTask == task then Passed
      else if oldTask !in tasks || !tasks[oldTask].TaskHash? || !Numeric(tasks[oldTask].subtaskId) then Malformed
      else Passed
    else Passed
  }

  function AppendCode(tasks: TaskKeys, streams: StreamKeys, subtask: string, generation: string, offset: nat,
                      content: string): Code
  {
    if subtask !in streams then NotActive
    else if !streams[subtask].StreamHash? then Malformed
    else
      var f := streams[subtask].fields;
      if !Sound(f) then Malformed
      else if f.generationId != Some(generation) then Stale
      else
        var cachedUnits := MeasuredUnits(f.cachedContent.value, MAX_JSON_CANONICAL_BYTES);
        var chunkUnits := MeasuredUnits(Encode(content), MAX_JSON_CANONICAL_BYTES);
        if cachedUnits.None? || chunkUnits.None? then Malformed
        else if cachedUnits.value != Number(f.offset.value) || chunkUnits.value != Utf16Length(content) then Malformed
        else if f.offset.value != Numeral(offset) then BadOffset
        else if offset + Utf16Length(content) != Number(f.offset.value) + chunkUnits.value then Malformed
        else PointerCode(tasks, f)
  }

  function MutateCode(tasks: TaskKeys, streams: StreamKeys, subtask: string, generation: string): Code {
    if subtask !in streams then NotActive
    else if !streams[subtask].StreamHash? then Malformed
    else
      var f := streams[subtask].fields;
      if !Sound(f) then Malformed
      else if f.generationId != Some(generation) then Stale
      else PointerCode(tasks, f)
  }

  predicate GoodOrder(order: seq<string>) {
    NoRepeats(order) && forall i :: 0 <= i < |order| ==> IsBlockId(order[i])
  }

  function UpsertCode(tasks: TaskKeys, streams: StreamKeys, subtask: string, generation: string): Code {
    var code := MutateCode(tasks, streams, subtask, generation);
    if code == Passed && streams[subtask].StreamHash? && streams[subtask].fields.blockOrder.Some?
       && !GoodOrder(streams[subtask].fields.blockOrder.value)
    then Malformed
    else code
  }

  /** The validate script checks the fields' form; the finalize script does not, and calls a missing key stale. */
  function PairCode(tasks: TaskKeys, streams: StreamKeys, task: string, subtask: string, generation: string,
                    checked: bool): Code
  {
    if task !in tasks || subtask !in streams then (if checked then NotActive else Stale)
    else if !tasks[task].TaskHash? || !streams[subtask].StreamHash? then Malformed
    else
      var f := streams[subtask].fields;
      if tasks[task].subtaskId.None? || !Complete(f) then Malformed
      else if checked && !(Numeric(tasks[task].subtaskId) && Sound(f)) then Malformed
      else if tasks[task].subtaskId != Some(subtask) || f.taskId != Some(task) || f.subtaskId != Some(subtask)
              || f.generationId != Some(generation)
      then Stale
      else Passed
  }

  function CancelledCode(tasks: TaskKeys, streams: StreamKeys, subtask: string, generation: string): Code {
    if subtask !in streams then NotActive
    else if !streams[subtask].StreamHash? then Malformed
    else
      var f := streams[subtask].fields;
      if !Complete(f) then Malformed
      else if f.generationId != Some(generation) then Stale
      else if !Sound(f) then Malformed
      else if PointerCode(tasks, f) != Passed then Malformed
      else Passed
  }

  /** The size of the JSON array of block ids: quotes around each, commas between, and the brackets. */
  function OrderBytes(order: seq<string>): nat {
    2 + QuotedBytes(order)
  }

  function QuotedBytes(order: seq<string>): nat {
    if order == [] then 0
    else if |order| == 1 then |order[0]| + 2
    else |order[0]| + 3 + QuotedBytes(order[1..])
  }

  predicate HasBlocks(f: Fields, order: seq<string>) {
    forall i :: 0 <= i < |order| ==>
      order[i] in f.blocks && |Encode(f.blocks[order[i]].json)| <= MAX_JSON_CANONICAL_BYTES
  }

  function SnapshotCode(tasks: TaskKeys, streams: StreamKeys, task: string): Code {
    if task !in tasks then NotActive
    else if !tasks[task].TaskHash? || !Numeric(tasks[task].subtaskId) then Malformed
    else
      var subtask := tasks[task].subtaskId.value;
      if subtask !in streams || !streams[subtask].StreamHash? then Malformed
      else
        var f := streams[subtask].fields;
        if !Complete(f) then Malformed
        else if f.taskId != Some(task) || f.subtaskId != Some(subtask) || f.generationId == Some("")
                || !Numeric(f.offset) || !HasFlag(f) then Malformed
        else if MeasuredUnits(f.cachedContent.value, MAX_JSON_CANONICAL_BYTES) != Some(Number(f.offset.value))
        then Malformed
        else if OrderBytes(f.blockOrder.value) > MAX_JSON_CANONICAL_BYTES
                || (f.statusUpdated.Some? && |Encode(f.statusUpdated.value)| > MAX_JSON_CANONICAL_BYTES)
        then Malformed
        else if !GoodOrder(f.blockOrder.value) || !HasBlocks(f, f.blockOrder.value) then Malformed
        else Passed
  }

  // ----- The stored form of a stream -----------------------------------------------------------------

  predicate HoldsFields(f: Fields, s: nat, x: Stream) {
    && f.taskId == Some(Numeral(x.task))
    && f.subtaskId == Some(Numeral(s))
    && f.generationId == Some(x.generation)
    && f.offset == Some(Numeral(Utf16Length(x.text)))
    && f.cachedContent == Some(Encode(x.text))
    && f.blockOrder == Some(Ids(x.blocks))
    && f.startedAt == Some(x.startedAt)
    && f.lastActivityAt == Some(x.lastActivityAt)
    && f.cancelled == Some(if x.cancelled then "1" else "0")
    && f.statusUpdated == x.status
    && HoldsBlocks(f.blocks, x.blocks)
  }

  predicate HoldsBlocks(table: map<string, Block>, blocks: seq<Block>) {
    forall i :: 0 <= i < |blocks| ==> blocks[i].id in table && table[blocks[i].id] == blocks[i]
  }

  predicate HoldsEntry(e: StreamEntry, s: nat, x: Stream) {
    e.StreamHash? && e.expiresAt == x.expiresAt && HoldsFields(e.fields, s, x)
  }

  ghost predicate IsStreamKey(k: string, m: Streams) {
    IsNumeral(k) && Number(k) in m && Numeral(Number(k)) == k
  }

  ghost predicate IsTaskKey(k: string, e: TaskEntry, m: Streams) {
    && e.TaskHash? && Numeric(e.subtaskId) && Number(e.subtaskId.value) in m
    && k == Numeral(m[Number(e.subtaskId.value)].task)
    && e == TaskHash(Some(Numeral(Number(e.subtaskId.value))), m[Number(e.subtaskId.value)].expiresAt)
  }

  ghost predicate IsHeld(tasks: TaskKeys, streams: StreamKeys, s: nat, x: Stream) {
    && Numeral(s) in streams && HoldsEntry(streams[Numeral(s)], s, x)
    && Numeral(x.task) in tasks && tasks[Numeral(x.task)] == TaskHash(Some(Numeral(s)), x.expiresAt)
  }

  /** The keys hold exactly the streams of `m`, and every pointer expires with its stream. */
  ghost predicate Represents(tasks: TaskKeys, streams: StreamKeys, m: Streams) {
    && WellFormed(m)
    && (forall s: nat :: s in m ==> IsHeld(tasks, streams, s, m[s]))
    && (forall k :: k in streams ==> IsStreamKey(k, m))
    && (forall k :: k in tasks ==> IsTaskKey(k, tasks[k], m))
  }

  lemma KnownStream(tasks: TaskKeys, streams: StreamKeys, m: Streams, s: nat)
    requires Represents(tasks, streams, m)
    ensures Numeral(s) in streams <==> s in m
    ensures s in m ==>
              && HoldsEntry(streams[Numeral(s)], s, m[s]) && GoodStream(m[s]) && s > 0
              && Numeral(m[s].task) in tasks
              && tasks[Numeral(m[s].task)] == TaskHash(Some(Numeral(s)), m[s].expiresAt)
  {
    hide GoodStream, HoldsEntry;
    NumberOfNumeral(s);
  }

  lemma KnownTask(tasks: TaskKeys, streams: StreamKeys, m: Streams, t: nat)
    requires Represents(tasks, streams, m)
    ensures Numeral(t) in tasks <==> exists s :: s in m && m[s].task == t
    ensures Numeral(t) in tasks ==>
              exists s :: s in m && m[s].task == t && tasks[Numeral(t)] == TaskHash(Some(Numeral(s)), m[s].expiresAt)
  {
    hide GoodStream, HoldsEntry;
    if Numeral(t) in tasks {
      var s := Number(tasks[Numeral(t)].subtaskId.value);
      NumeralsDiffer(t, m[s].task);
      assert s in m && m[s].task == t;
    }
  }

  // ----- What the scripts decide on such keys --------------------------------------------------------

  lemma HeldIsSound(f: Fields, s: nat, x: Stream)
    requires HoldsFields(f, s, x)
    ensures Sound(f)
  {
    hide HoldsBlocks;
  }

  lemma MutateCodeIs(tasks: TaskKeys, streams: StreamKeys, m: Streams, s: nat, generation: string)
    requires Represents(tasks, streams, m)
    ensures MutateCode(tasks, streams, Numeral(s), generation)
            == if s !in m then NotActive else if m[s].generation != generation then Stale else Passed
  {
    hide Represents, GoodStream, Sound, HoldsBlocks;
    KnownStream(tasks, streams, m, s);
    if s in m {
      HeldIsSound(streams[Numeral(s)].fields, s, m[s]);
    }
  }

  lemma UpsertCodeIs(tasks: TaskKeys, streams: StreamKeys, m: Streams, s: nat, generation: string)
    requires Represents(tasks, streams, m)
    ensures UpsertCode(tasks, streams, Numeral(s), generation)
            == if s !in m then NotActive else if m[s].generation != generation then Stale else Passed
  {
    hide Represents, HoldsBlocks, MutateCode, IsBlockId, IsWithinCap;
    KnownStream(tasks, streams, m, s);
    MutateCodeIs(tasks, streams, m, s, generation);
    if s in m {
      var order := Ids(m[s].blocks);
      assert forall i :: 0 <= i < |order| ==> m[s].blocks[i] in m[s].blocks;
    }
  }

  lemma MeasureOfEncoded(text: string)
    ensures MeasuredUnits(Encode(text), MAX_JSON_CANONICAL_BYTES)
            == if |Encode(text)| > MAX_JSON_CANONICAL_BYTES then None else Some(Utf16Length(text))
  {
    EncodeThenDecode(text);
  }

  predicate IsTooLong(text: string) {
    |Encode(text)| > MAX_JSON_CANONICAL_BYTES
  }

  lemma AppendCodeIs(tasks: TaskKeys, streams: StreamKeys, m: Streams, s: nat, generation: string, offset: nat,
                     content: string)
    requires Represents(tasks, streams, m)
    ensures AppendCode(tasks, streams, Numeral(s), generation, offset, content)
            == if s !in m then NotActive
               else if m[s].generation != generation then Stale
               else if IsTooLong(m[s].text) || IsTooLong(content) then Malformed
               else if Utf16Length(m[s].text) != offset then BadOffset
               else Passed
  {
    hide Represents, GoodStream, Sound, HoldsBlocks, MeasuredUnits, Number, Encode, Utf16Length;
    KnownStream(tasks, streams, m, s);
    MeasureOfEncoded(content);
    if s in m {
      HeldIsSound(streams[Numeral(s)].fields, s, m[s]);
      MeasureOfEncoded(m[s].text);
      NumberOfNumeral(Utf16Length(m[s].text));
      NumberOfNumeral(offset);
      assert Sound(streams[Numeral(s)].fields) ==> Numeric(streams[Numeral(s)].fields.offset);
    }
  }

  lemma PairCodeIs(tasks: TaskKeys, streams: StreamKeys, m: Streams, t: nat, s: nat, generation: string, checked: bool)
    requires Represents(tasks, streams, m)
    ensures PairCode(tasks, streams, Numeral(t), Numeral(s), generation, checked) == Passed
            <==> s in m && m[s].task == t && m[s].generation == generation
    ensures PairCode(tasks, streams, Numeral(t), Numeral(s), generation, checked) != Malformed
    ensures !checked ==> PairCode(tasks, streams, Numeral(t), Numeral(s), generation, checked) in {Passed, Stale}
  {
    hide Represents, GoodStream, Sound, HoldsBlocks;
    KnownStream(tasks, streams, m, s);
    KnownTask(tasks, streams, m, t);
    if s in m {
      HeldIsSound(streams[Numeral(s)].fields, s, m[s]);
      if m[s].task != t && Numeral(m[s].task) == Numeral(t) {
        NumeralsDiffer(m[s].task, t);
      }
    }
  }

  lemma CancelledCodeIs(tasks: TaskKeys, streams: StreamKeys, m: Streams, s: nat, generation: string)
    requires Represents(tasks, streams, m)
    ensures CancelledCode(tasks, streams, Numeral(s), generation)
            == if s !in m then NotActive else if m[s].generation != generation then Stale else Passed
  {
    hide Represents, GoodStream, HoldsBlocks;
    KnownStream(tasks, streams, m, s);
    if s in m {
      HeldIsSound(streams[Numeral(s)].fields, s, m[s]);
    }
  }

  lemma StartCodeIs(tasks: TaskKeys, streams: StreamKeys, m: Streams, t: nat, s: nat)
    requires Represents(tasks, streams, m)
    ensures StartCode(tasks, streams, Numeral(t), Numeral(s)) == Passed
  {
    hide Represents, GoodStream, HoldsBlocks;
    KnownStream(tasks, streams, m, s);
    KnownTask(tasks, streams, m, t);
    if Numeral(t) in tasks {
      var u :| u in m && m[u].task == t && tasks[Numeral(t)] == TaskHash(Some(Numeral(u)), m[u].expiresAt);
      KnownStream(tasks, streams, m, u);
    }
  }

  predicate Fits(x: Stream) {
    !IsTooLong(x.text) && OrderBytes(Ids(x.blocks)) <= MAX_JSON_CANONICAL_BYTES
  }

  lemma SnapshotOfHeld(f: Fields, s: nat, x: Stream)
    requires HoldsFields(f, s, x) && GoodStream(x)
    ensures Complete(f) && GoodOrder(f.blockOrder.value) && HasBlocks(f, f.blockOrder.value)
    ensures f.statusUpdated.Some? ==> |Encode(f.statusUpdated.value)| <= MAX_JSON_CANONICAL_BYTES
    ensures f.generationId != Some("")
  {
    hide IsBlockId;
    assert forall i :: 0 <= i < |x.blocks| ==> x.blocks[i] in x.blocks;
  }

  lemma SnapshotCodeIs(tasks: TaskKeys, streams: StreamKeys, m: Streams, s: nat)
    requires Represents(tasks, streams, m) && s in m
    ensures SnapshotCode(tasks, streams, Numeral(m[s].task)) == if Fits(m[s]) then Passed else Malformed
  {
    hide Represents, GoodStream, HoldsBlocks, HasBlocks, GoodOrder, MeasuredUnits, Number, Encode, Utf16Length;
    KnownStream(tasks, streams, m, s);
    var f := streams[Numeral(s)].fields;
    SnapshotOfHeld(f, s, m[s]);
    MeasureOfEncoded(m[s].text);
    NumberOfNumeral(Utf16Length(m[s].text));
  }

  lemma NoSnapshot(tasks: TaskKeys, streams: StreamKeys, m: Streams, t: nat)
    requires Represents(tasks, streams, m) && forall s :: s in m ==> m[s].task != t
    ensures SnapshotCode(tasks, streams, Numeral(t)) == NotActive
  {
    hide Represents;
    KnownTask(tasks, streams, m, t);
  }

  // ----- What the scripts leave behind ---------------------------------------------------------------

  function FreshFields(task: nat, subtask: nat, generation: string, now: nat): Fields {
    Fields(Some(Numeral(task)), Some(Numeral(subtask)), Some(generation), Some("0"), Some([]), Some([]),
           Some(now), Some(now), Some("0"), None, map[])
  }

  lemma FreshIsHeld(task: nat, subtask: nat, generation: string, now: nat, ttl: nat)
    requires task > 0 && !IsBlank(generation)
    ensures HoldsFields(FreshFields(task, subtask, generation, now), subtask, NewStream(task, generation, now, ttl))
    ensures GoodStream(NewStream(task, generation, now, ttl))
  {
    hide IsBlank;
    assert Numeral(0) == "0";
    NoBlocksAreDistinct();
  }

  lemma DifferentKeys(m: Streams, s: nat, u: nat, t: nat)
    requires s != u && (u in m ==> m[u].task != t)
    ensures Numeral(s) != Numeral(u)
    ensures u in m ==> Numeral(m[u].task) != Numeral(t)
  {
    if Numeral(u) == Numeral(s) {
      NumeralsDiffer(u, s);
    }
    if u in m && Numeral(m[u].task) == Numeral(t) {
      NumeralsDiffer(m[u].task, t);
    }
  }

  lemma StreamKeysStay(m: Streams, n: Streams, k: string, s: nat)
    requires IsStreamKey(k, m) && k != Numeral(s)
    requires forall u :: u in m && u != s ==> u in n
    ensures IsStreamKey(k, n)
  {
  }

  lemma TaskKeysStay(m: Streams, n: Streams, k: string, e: TaskEntry, s: nat, t: nat)
    requires IsTaskKey(k, e, m) && k != Numeral(t)
    requires s in m ==> m[s].task == t
    requires forall u :: u in m && u != s ==> u in n && n[u] == m[u]
    ensures IsTaskKey(k, e, n)
  {
  }

  lemma NewKeys(m: Streams, s: nat, y: Stream)
    requires s in m && m[s] == y
    ensures IsStreamKey(Numeral(s), m)
    ensures IsTaskKey(Numeral(y.task), TaskHash(Some(Numeral(s)), y.expiresAt), m)
  {
    NumberOfNumeral(s);
  }

  lemma StoredIsWellFormed(m: Streams, s: nat, y: Stream)
    requires WellFormed(m) && s > 0 && GoodStream(y)
    requires forall u :: u in m && u != s ==> m[u].task != y.task
    ensures WellFormed(m[s := y])
  {
    hide GoodStream;
  }

  lemma RemovedIsWellFormed(m: Streams, s: nat)
    requires WellFormed(m) && s in m
    ensures WellFormed(m - {s})
    ensures forall u :: u in m && u != s ==> m[u].task != m[s].task
  {
    hide GoodStream;
  }

  lemma StillHeld(tasks: TaskKeys, streams: StreamKeys, m: Streams, s: nat, t: nat, u: nat, e: TaskEntry,
                  f: StreamEntry)
    requires u in m && u != s && m[u].task != t && IsHeld(tasks, streams, u, m[u])
    ensures IsHeld(tasks[Numeral(t) := e], streams[Numeral(s) := f], u, m[u])
    ensures IsHeld(tasks - {Numeral(t)}, streams - {Numeral(s)}, u, m[u])
  {
    hide Numeral, HoldsEntry;
    DifferentKeys(m, s, u, t);
  }

  /** Writing one block field keeps every field that the new order names. */
  lemma PutBlockIsHeld(table: map<string, Block>, blocks: seq<Block>, block: Block)
    requires HoldsBlocks(table, blocks) && GoodBlocks(blocks) && IsBlockId(block.id) && IsWithinCap(block.json)
    ensures HoldsBlocks(table[block.id := block], PutBlock(blocks, block))
  {
    hide IsBlockId, IsWithinCap, PutBlock;
    var after := PutBlock(blocks, block);
    PutBlockKeepsOrder(blocks, block);
    PutBlockReplacesOne(blocks, block);
    var k :| 0 <= k < |after| && after[k] == block;
    forall i | 0 <= i < |after|
      ensures after[i].id in table[block.id := block] && table[block.id := block][after[i].id] == after[i]
    {
      assert Ids(after)[i] == after[i].id && Ids(after)[k] == block.id;
      assert after[i] in after;
    }
  }

  lemma NewIsHeld(tasks: TaskKeys, streams: StreamKeys, s: nat, f: Fields, y: Stream)
    requires HoldsFields(f, s, y)
    ensures IsHeld(tasks[Numeral(y.task) := TaskHash(Some(Numeral(s)), y.expiresAt)],
                   streams[Numeral(s) := StreamHash(f, y.expiresAt)], s, y)
  {
    hide HoldsFields, Numeral;
  }

  /** Storing one stream and its pointer under one deadline. */
  lemma StoredIsRepresented(tasks: TaskKeys, streams: StreamKeys, m: Streams, s: nat, f: Fields, y: Stream)
    requires Represents(tasks, streams, m)
    requires s > 0 && GoodStream(y) && HoldsFields(f, s, y)
    requires forall u :: u in m && u != s ==> m[u].task != y.task
    requires s in m ==> m[s].task == y.task
    ensures Represents(tasks[Numeral(y.task) := TaskHash(Some(Numeral(s)), y.expiresAt)],
                       streams[Numeral(s) := StreamHash(f, y.expiresAt)], m[s := y])
  {
    hide GoodStream, HoldsFields, Numeral, IsStreamKey, IsTaskKey, WellFormed, IsHeld;
    var (e, h) := (TaskHash(Some(Numeral(s)), y.expiresAt), StreamHash(f, y.expiresAt));
    var (tasks', streams', m') := (tasks[Numeral(y.task) := e], streams[Numeral(s) := h], m[s := y]);
    StoredIsWellFormed(m, s, y);
    NewKeys(m', s, y);
    NewIsHeld(tasks, streams, s, f, y);
    forall u | u in m && u != s
      ensures IsHeld(tasks', streams', u, m'[u])
    {
      StillHeld(tasks, streams, m, s, y.task, u, e, h);
    }
    forall k | k in streams && k != Numeral(s)
      ensures IsStreamKey(k, m')
    {
      StreamKeysStay(m, m', k, s);
    }
    forall k | k in tasks && k != Numeral(y.task)
      ensures IsTaskKey(k, tasks[k], m')
    {
      TaskKeysStay(m, m', k, tasks[k], s, y.task);
    }
  }

  lemma RemovedIsRepresented(tasks: TaskKeys, streams: StreamKeys, m: Streams, s: nat)
    requires Represents(tasks, streams, m) && s in m
    ensures Represents(tasks - {Numeral(m[s].task)}, streams - {Numeral(s)}, m - {s})
  {
    hide Numeral, IsStreamKey, IsTaskKey, WellFormed, IsHeld;
    var t := m[s].task;
    RemovedIsWellFormed(m, s);
    var (tasks', streams', m') := (tasks - {Numeral(t)}, streams - {Numeral(s)}, m - {s});
    forall u | u in m'
      ensures IsHeld(tasks', streams', u, m'[u])
    {
      StillHeld(tasks, streams, m, s, t, u, OtherTask(0), OtherStream(0));
    }
    forall k | k in streams && k != Numeral(s)
      ensures IsStreamKey(k, m')
    {
      StreamKeysStay(m, m', k, s);
    }
    forall k | k in tasks && k != Numeral(t)
      ensures IsTaskKey(k, tasks[k], m')
    {
      TaskKeysStay(m, m', k, tasks[k], s, t);
    }
  }

  function VisibleTasks(tasks: TaskKeys, now: nat): TaskKeys {
    map k | k in tasks && tasks[k].expiresAt > now :: tasks[k]
  }

  function VisibleStreams(streams: StreamKeys, now: nat): StreamKeys {
    map k | k in streams && streams[k].expiresAt > now :: streams[k]
  }

  /** A stream and its pointer go together, so expiry by key is expiry of whole streams. */
  lemma ExpiryIsLive(tasks: TaskKeys, streams: StreamKeys, m: Streams, now: nat)
    requires Represents(tasks, streams, m)
    ensures Represents(VisibleTasks(tasks, now), VisibleStreams(streams, now), Live(m, now))
  {
    hide GoodStream, HoldsFields, Numeral, Number, IsNumeral, Numeric;
    LiveIsWellFormed(m, now);
    forall k | k in streams && streams[k].expiresAt > now
      ensures IsStreamKey(k, Live(m, now))
    {
      assert IsStreamKey(k, m);
      assert IsHeld(tasks, streams, Number(k), m[Number(k)]);
    }
  }

  // ----- Starting ------------------------------------------------------------------------------------

  /** The pointer that `start` deletes: the one of the task that the subtask streamed for before. */
  function TasksBeforeStart(tasks: TaskKeys, streams: StreamKeys, task: string, subtask: string): TaskKeys {
    if subtask in streams && streams[subtask].StreamHash? && streams[subtask].fields.taskId.Some? then
      var oldTask := streams[subtask].fields.taskId.value;
      if oldTask != task && oldTask in tasks && tasks[oldTask].TaskHash? && tasks[oldTask].subtaskId == Some(subtask)
      then tasks - {oldTask}
      else tasks
    else tasks
  }

  /** The stream that `start` deletes: the one that the task pointed to before. */
  function StreamsBeforeStart(tasks: TaskKeys, streams: StreamKeys, task: string, subtask: string): StreamKeys {
    if task in tasks && tasks[task].TaskHash? && tasks[task].subtaskId.Some? && tasks[task].subtaskId.value != subtask
    then streams - {tasks[task].subtaskId.value}
    else streams
  }

  lemma TaskWithoutStream(tasks: TaskKeys, streams: StreamKeys, m: Streams, t: nat, s: nat)
    requires Represents(tasks, streams, m) && forall u :: u in m && u != s ==> m[u].task != t
    ensures StreamsBeforeStart(tasks, streams, Numeral(t), Numeral(s)) == streams
  {
    hide Represents, Numeral;
    KnownTask(tasks, streams, m, t);
  }

  lemma StartDropsStream(tasks: TaskKeys, streams: StreamKeys, m: Streams, t: nat, s: nat, u: nat)
    requires Represents(tasks, streams, m) && u in m && u != s && m[u].task == t
    ensures StreamsBeforeStart(tasks, streams, Numeral(t), Numeral(s)) == streams - {Numeral(u)}
    ensures Represents(tasks - {Numeral(t)}, streams - {Numeral(u)}, m - {u})
    ensures Numeral(s) in streams ==> Numeral(s) in streams - {Numeral(u)}
  {
    hide Represents, Numeral, HoldsEntry, GoodStream;
    KnownStream(tasks, streams, m, u);
    RemovedIsRepresented(tasks, streams, m, u);
    if Numeral(u) == Numeral(s) {
      NumeralsDiffer(u, s);
    }
  }

  lemma StartDropsPointer(tasks: TaskKeys, streams: StreamKeys, m: Streams, t: nat, s: nat)
    requires Represents(tasks, streams, m)
    ensures s in m && m[s].task != t ==>
              && TasksBeforeStart(tasks, streams, Numeral(t), Numeral(s)) == tasks - {Numeral(m[s].task)}
              && Represents(tasks - {Numeral(m[s].task)}, streams - {Numeral(s)}, m - {s})
    ensures !(s in m && m[s].task != t) ==> TasksBeforeStart(tasks, streams, Numeral(t), Numeral(s)) == tasks
  {
    hide Represents, Numeral, GoodStream, HoldsBlocks;
    KnownStream(tasks, streams, m, s);
    if s in m && m[s].task != t {
      RemovedIsRepresented(tasks, streams, m, s);
      if Numeral(m[s].task) == Numeral(t) {
        NumeralsDiffer(m[s].task, t);
      }
    }
  }

  /** The writes of `start`, on keys that hold no other stream of the task. */
  lemma StartOverwrites(tasks: TaskKeys, streams: StreamKeys, m: Streams, t: nat, s: nat, f: Fields, y: Stream)
    requires Represents(tasks, streams, m) && forall u :: u in m && u != s ==> m[u].task != t
    requires s > 0 && GoodStream(y) && HoldsFields(f, s, y) && y.task == t
    ensures Represents(TasksBeforeStart(tasks, streams, Numeral(t), Numeral(s))
                         [Numeral(t) := TaskHash(Some(Numeral(s)), y.expiresAt)],
                       streams[Numeral(s) := StreamHash(f, y.expiresAt)], m[s := y])
  {
    hide Represents, Numeral, GoodStream, HoldsFields, TasksBeforeStart;
    StartDropsPointer(tasks, streams, m, t, s);
    if s in m && m[s].task != t {
      var (tasks', streams', m') := (tasks - {Numeral(m[s].task)}, streams - {Numeral(s)}, m - {s});
      StoredIsRepresented(tasks', streams', m', s, f, y);
      assert streams'[Numeral(s) := StreamHash(f, y.expiresAt)] == streams[Numeral(s) := StreamHash(f, y.expiresAt)];
      assert m'[s := y] == m[s := y];
    } else {
      StoredIsRepresented(tasks, streams, m, s, f, y);
    }
  }

  lemma StartIsRepresented(tasks: TaskKeys, streams: StreamKeys, m: Streams, t: nat, s: nat, f: Fields, y: Stream)
    requires Represents(tasks, streams, m)
    requires s > 0 && GoodStream(y) && HoldsFields(f, s, y) && y.task == t
    ensures Represents(TasksBeforeStart(tasks, streams, Numeral(t), Numeral(s))
                         [Numeral(t) := TaskHash(Some(Numeral(s)), y.expiresAt)],
                       StreamsBeforeStart(tasks, streams, Numeral(t), Numeral(s))
                         [Numeral(s) := StreamHash(f, y.expiresAt)],
                       (map u | u in m && m[u].task != t :: m[u])[s := y])
  {
    hide Represents, Numeral, GoodStream, HoldsFields;
    var (k, h) := (Numeral(t), Numeral(s));
    if u :| u in m && u != s && m[u].task == t {
      OnlyStreamOf(tasks, streams, m, u);
      StartDropsStream(tasks, streams, m, t, s, u);
      StartOverwrites(tasks - {k}, streams - {Numeral(u)}, m - {u}, t, s, f, y);
      StartsAlike(tasks, streams, m, t, s, u);
      assert (m - {u})[s := y] == (map u | u in m && m[u].task != t :: m[u])[s := y];
      assert (TasksBeforeStart(tasks, streams, k, h) - {k})[k := TaskHash(Some(h), y.expiresAt)]
          == TasksBeforeStart(tasks, streams, k, h)[k := TaskHash(Some(h), y.expiresAt)];
    } else {
      TaskWithoutStream(tasks, streams, m, t, s);
      StartOverwrites(tasks, streams, m, t, s, f, y);
      assert m[s := y] == (map u | u in m && m[u].task != t :: m[u])[s := y];
    }
  }

  lemma OnlyStreamOf(tasks: TaskKeys, streams: StreamKeys, m: Streams, u: nat)
    requires Represents(tasks, streams, m) && u in m
    ensures OneStreamPerTask(m)
    ensures forall v :: v in m && m[v].task == m[u].task ==> v == u
  {
  }

  /** The pointer that `start` deletes is the same before and after the task's own stream is gone. */
  lemma StartsAlike(tasks: TaskKeys, streams: StreamKeys, m: Streams, t: nat, s: nat, u: nat)
    requires Represents(tasks, streams, m) && u in m && u != s && m[u].task == t
    ensures TasksBeforeStart(tasks - {Numeral(t)}, streams - {Numeral(u)}, Numeral(t), Numeral(s))
            == TasksBeforeStart(tasks, streams, Numeral(t), Numeral(s)) - {Numeral(t)}
  {
    hide Represents, Numeral;
    if Numeral(u) == Numeral(s) {
      NumeralsDiffer(u, s);
    }
  }

  // ----- What the Redis store does -------------------------------------------------------------------

  /** Where the byte cap is felt: by an append to or of a long text, and by a snapshot of a long stream. */
  ghost predicate Overflows(live: Streams, op: Op) {
    match op
    case Append(subtask, _, _, _, content) => IsTooLong(content) || (subtask in live && IsTooLong(live[subtask].text))
    case GetActive(task) => exists s :: s in live && live[s].task == task && !Fits(live[s])
    case _ => false
  }

  ghost function RedisStep(m: Streams, now: nat, ttl: nat, op: Op): (Streams, Reply) {
    if Overflows(Live(m, now), op) then (Live(m, now), Refused) else Step(m, now, ttl, op)
  }

  /** What `_snapshot_from_redis` checks again, in Python, on the strings that the script returned. */
  predicate Decodes(f: Fields, task: nat, subtask: nat) {
    && Complete(f) && Numeric(f.taskId) && Numeric(f.subtaskId) && Numeric(f.offset)
    && Number(f.taskId.value) == task > 0 && Number(f.subtaskId.value) == subtask > 0
    && !IsBlank(f.generationId.value)
    && MeasuredUnits(f.cachedContent.value, |f.cachedContent.value|) == Some(Number(f.offset.value))
    && GoodOrder(f.blockOrder.value)
    && forall i :: 0 <= i < |f.blockOrder.value| ==>
         f.blockOrder.value[i] in f.blocks && f.blocks[f.blockOrder.value[i]].id == f.blockOrder.value[i]
  }

  function DecodedBlocks(f: Fields): seq<Block>
    requires f.blockOrder.Some?
    requires forall i :: 0 <= i < |f.blockOrder.value| ==> f.blockOrder.value[i] in f.blocks
  {
    seq(|f.blockOrder.value|, i requires 0 <= i < |f.blockOrder.value| => f.blocks[f.blockOrder.value[i]])
  }

  function DecodedSnapshot(f: Fields, task: nat, subtask: nat): Option<Snapshot> {
    if !Decodes(f, task, subtask) then None
    else
      var text :- Decode(f.cachedContent.value);
      Some(Snapshot(task, subtask, f.generationId.value, Number(f.offset.value), text, DecodedBlocks(f),
                    f.startedAt.value, f.lastActivityAt.value, f.statusUpdated))
  }

  /** Reading a stored stream back gives the snapshot of the stream. */
  lemma StoredReadsBack(f: Fields, s: nat, x: Stream)
    requires HoldsFields(f, s, x) && GoodStream(x) && s > 0
    ensures DecodedSnapshot(f, x.task, s) == Some(SnapshotOf(s, x))
  {
    hide IsBlockId, IsWithinCap, Numeral, Number, IsBlank, Encode, Decode, Utf16Length;
    NumberOfNumeral(x.task);
    NumberOfNumeral(s);
    NumberOfNumeral(Utf16Length(x.text));
    EncodeThenDecode(x.text);
    SnapshotOfHeld(f, s, x);
    assert DecodedBlocks(f) == x.blocks;
  }
}
