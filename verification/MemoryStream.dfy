/** The in-process stream store: two dictionaries that every operation keeps inverse to each other. */
module MemoryStream {
  import opened Outcomes
  import opened Utf8
  import opened Texts
  import opened BlockIds
  import opened StreamSpec

  datatype MemoryState = MemoryState(
    taskId: nat,
    subtaskId: nat,
    generationId: string,
    offset: nat,
    cachedContent: string,
    blocks: seq<Block>,
    startedAt: nat,
    lastActivityAt: nat,
    statusUpdated: Option<string>,
    cancelled: bool,
    expiresAt: nat)

  function Abstracted(x: MemoryState): Stream {
    Stream(x.taskId, x.generationId, x.cachedContent, x.blocks, x.startedAt, x.lastActivityAt, x.statusUpdated,
           x.cancelled, x.expiresAt)
  }

  function AbstractedAll(states: map<nat, MemoryState>): Streams {
    map s | s in states :: Abstracted(states[s])
  }

  /** The two dictionaries are inverse to each other, and offsets are the UTF-16 lengths of the texts. */
  ghost predicate Inverse(active: map<nat, nat>, states: map<nat, MemoryState>) {
    && (forall s :: s in states ==>
          && states[s].subtaskId == s
          && states[s].taskId in active && active[states[s].taskId] == s
          && states[s].offset == Utf16Length(states[s].cachedContent)
          && s > 0 && GoodStream(Abstracted(states[s])))
    && (forall t :: t in active ==> active[t] in states && states[active[t]].taskId == t)
  }

  lemma InverseIsWellFormed(active: map<nat, nat>, states: map<nat, MemoryState>)
    requires Inverse(active, states)
    ensures WellFormed(AbstractedAll(states))
  {
    hide GoodStream;
  }

  lemma KnownState(active: map<nat, nat>, states: map<nat, MemoryState>, s: nat)
    requires Inverse(active, states) && s in states
    ensures states[s].subtaskId == s && states[s].taskId in active && active[states[s].taskId] == s
    ensures states[s].offset == Utf16Length(states[s].cachedContent)
    ensures s > 0 && GoodStream(Abstracted(states[s])) && GoodBlocks(states[s].blocks)
  {
    hide GoodBlocks;
  }

  /** The pointer of a task names its stream, and every stream of the task. */
  lemma PointersAreTotal(active: map<nat, nat>, states: map<nat, MemoryState>, t: nat, s: nat)
    requires Inverse(active, states)
    ensures t in active && active[t] == s <==> s in states && states[s].taskId == t
  {
    hide GoodStream;
  }

  lemma RemovalRestoresInverse(active: map<nat, nat>, states: map<nat, MemoryState>, s: nat)
    requires Inverse(active, states) && s in states
    ensures Inverse(active - {states[s].taskId}, states - {s})
  {
    hide GoodStream;
  }

  lemma RemovalIsAbstract(states: map<nat, MemoryState>, s: nat)
    ensures AbstractedAll(states - {s}) == AbstractedAll(states) - {s}
  {
  }

  function Stored(states: map<nat, MemoryState>, s: nat, x: MemoryState, now: nat, ttl: nat): map<nat, MemoryState> {
    states[s := x.(lastActivityAt := now, expiresAt := now + ttl)]
  }

  lemma StoreKeepsInverse(active: map<nat, nat>, states: map<nat, MemoryState>, s: nat, x: MemoryState, now: nat,
                          ttl: nat)
    requires Inverse(active, states) && s in states
    requires x.taskId == states[s].taskId && x.subtaskId == s && x.offset == Utf16Length(x.cachedContent)
    requires GoodStream(Abstracted(x))
    ensures Inverse(active, Stored(states, s, x, now, ttl))
  {
    var y := x.(lastActivityAt := now, expiresAt := now + ttl);
    assert GoodStream(Abstracted(y));
    hide GoodStream, Utf16Length;
  }

  lemma StoreIsTouched(states: map<nat, MemoryState>, s: nat, x: MemoryState, now: nat, ttl: nat)
    requires ttl > 0
    ensures Live(AbstractedAll(Stored(states, s, x, now, ttl)), now)
            == Touched(Live(AbstractedAll(states), now), s, Abstracted(x), now, ttl)
  {
  }

  function FreshState(task: nat, subtask: nat, generation: string, now: nat, ttl: nat): MemoryState {
    MemoryState(task, subtask, generation, 0, "", [], now, now, None, false, now + ttl)
  }

  function StatesWithout(states: map<nat, MemoryState>, task: nat, subtask: nat): map<nat, MemoryState> {
    map s | s in states && s != subtask && states[s].taskId != task :: states[s]
  }

  function PointersWithout(active: map<nat, nat>, task: nat, subtask: nat): map<nat, nat> {
    map t | t in active && t != task && active[t] != subtask :: active[t]
  }

  /** Starting afresh: whatever the task and the subtask had before is gone, pointers included. */
  lemma StartRestoresInverse(active: map<nat, nat>, states: map<nat, MemoryState>, task: nat, subtask: nat,
                             generation: string, now: nat, ttl: nat)
    requires Inverse(active, states) && task > 0 && subtask > 0 && !IsBlank(generation)
    ensures Inverse(PointersWithout(active, task, subtask)[task := subtask],
                    StatesWithout(states, task, subtask)[subtask := FreshState(task, subtask, generation, now, ttl)])
  {
  }

  lemma StartIsStarted(states: map<nat, MemoryState>, task: nat, subtask: nat, generation: string, now: nat, ttl: nat)
    requires Live(AbstractedAll(states), now) == AbstractedAll(states) && ttl > 0
    ensures var after := AbstractedAll(
              StatesWithout(states, task, subtask)[subtask := FreshState(task, subtask, generation, now, ttl)]);
            after == Started(AbstractedAll(states), now, ttl, task, subtask, generation) && Live(after, now) == after
  {
  }

  lemma FinalizeIs(m: Streams, now: nat, ttl: nat, task: nat, subtask: nat, generation: string)
    requires task > 0 && subtask > 0 && !IsBlank(generation)
    ensures Step(m, now, ttl, Op.Finalize(task, subtask, generation))
            == (if Fenced(Live(m, now), subtask, generation) && Live(m, now)[subtask].task == task
                then Live(m, now) - {subtask} else Live(m, now), Done)
  {
    hide IsBlank, Live;
  }

  lemma LiveWithout(m: Streams, now: nat, subtask: nat)
    requires Live(m, now) == m
    ensures Live(m - {subtask}, now) == m - {subtask}
  {
  }

  class MemoryChatStreamStore {
    const ttl: nat
    var activeByTask: map<nat, nat>
    var states: map<nat, MemoryState>

    ghost predicate Valid()
      reads this
    {
      ttl > 0 && Inverse(activeByTask, states)
    }

    ghost function Contents(): Streams
      reads this
    {
      AbstractedAll(states)
    }

    constructor (ttlSeconds: nat)
      requires 60 <= ttlSeconds <= 86400
      ensures Valid() && Contents() == map[] && ttl == ttlSeconds
    {
      ttl := ttlSeconds;
      activeByTask := map[];
      states := map[];
    }

    method RemoveState(subtask: nat)
      requires Valid() && subtask in states
      modifies this
      ensures Valid()
      ensures states == old(states) - {subtask}
      ensures Contents() == old(Contents()) - {subtask}
    {
      hide Inverse, AbstractedAll, GoodStream, GoodBlocks;
      KnownState(activeByTask, states, subtask);
      RemovalRestoresInverse(activeByTask, states, subtask);
      RemovalIsAbstract(states, subtask);
      var task := states[subtask].taskId;
      states := states - {subtask};
      if task in activeByTask && activeByTask[task] == subtask {
        activeByTask := activeByTask - {task};
      }
    }

    method CleanupExpired(now: nat)
      requires Valid()
      modifies this
      ensures Valid()
      ensures Contents() == Live(old(Contents()), now)
      ensures Live(Contents(), now) == Contents()
    {
      hide Inverse;
      var todo := states.Keys;
      while todo != {}
        invariant Valid() && todo <= states.Keys
        invariant Live(Contents(), now) == Live(old(Contents()), now)
        invariant forall s :: s in states && s !in todo ==> states[s].expiresAt > now
        decreases |todo|
      {
        var s :| s in todo;
        todo := todo - {s};
        if states[s].expiresAt <= now {
          RemoveState(s);
        }
      }
      assert Contents() == Live(Contents(), now);
    }

    /** `_active_state`: the live state of that subtask, or `ChatStreamNotActive`. */
    method ActiveState(subtask: nat, now: nat) returns (found: bool)
      requires Valid()
      modifies this
      ensures Valid()
      ensures Live(Contents(), now) == Live(old(Contents()), now)
      ensures found <==> subtask in Live(old(Contents()), now)
      ensures found ==> states == old(states)
    {
      hide GoodStream, GoodBlocks, Utf16Length;
      if subtask !in states {
        return false;
      }
      if states[subtask].expiresAt <= now {
        RemoveState(subtask);
        return false;
      }
      var task := states[subtask].taskId;
      if task !in activeByTask || activeByTask[task] != subtask {
        return false;
      }
      return true;
    }

    /** Assigning fields of one live state and touching it. */
    method Store(subtask: nat, x: MemoryState, now: nat)
      requires Valid() && subtask in states
      requires x.taskId == states[subtask].taskId && x.subtaskId == subtask
      requires x.offset == Utf16Length(x.cachedContent)
      requires GoodStream(Abstracted(x))
      modifies this`states
      ensures Valid()
      ensures Live(Contents(), now) == Touched(Live(old(Contents()), now), subtask, Abstracted(x), now, ttl)
    {
      hide Inverse, AbstractedAll, Touched, GoodStream, Live, Abstracted, Utf16Length;
      StoreKeepsInverse(activeByTask, states, subtask, x, now, ttl);
      StoreIsTouched(states, subtask, x, now, ttl);
      states := states[subtask := x.(lastActivityAt := now, expiresAt := now + ttl)];
    }

    /** What `start` pops: the task's old state, the subtask's old state, and that one's pointer. */
    method PopFor(task: nat, subtask: nat)
      requires Valid()
      modifies this
      ensures states == StatesWithout(old(states), task, subtask)
      ensures activeByTask - {task} == PointersWithout(old(activeByTask), task, subtask)
    {
      hide GoodStream, GoodBlocks, Utf16Length;
      if task in activeByTask {
        states := states - {activeByTask[task]};
      }
      if subtask in states {
        var oldTask := states[subtask].taskId;
        states := states - {subtask};
        if oldTask in activeByTask && activeByTask[oldTask] == subtask {
          activeByTask := activeByTask - {oldTask};
        }
      }
    }

    method Start(task: nat, subtask: nat, generation: string, now: nat) returns (reply: Reply)
      requires Valid()
      modifies this
      ensures Valid()
      ensures (Live(Contents(), now), reply) == Step(old(Contents()), now, ttl, Op.Start(task, subtask, generation))
    {
      hide Inverse, StatesWithout, PointersWithout, AbstractedAll;
      if task == 0 || subtask == 0 || IsBlank(generation) {
        return Refused;
      }
      CleanupExpired(now);
      StartRestoresInverse(activeByTask, states, task, subtask, generation, now, ttl);
      StartIsStarted(states, task, subtask, generation, now, ttl);
      PopFor(task, subtask);
      states := states[subtask := FreshState(task, subtask, generation, now, ttl)];
      assert activeByTask[task := subtask] == (activeByTask - {task})[task := subtask];
      activeByTask := activeByTask[task := subtask];
      reply := Done;
    }

    method GetActive(task: nat, now: nat) returns (reply: Reply)
      requires Valid()
      modifies this
      ensures Valid()
      ensures (Live(Contents(), now), reply) == Step(old(Contents()), now, ttl, Op.GetActive(task))
    {
      hide GoodStream, GoodBlocks, Utf16Length;
      if task == 0 {
        return Refused;
      }
      CleanupExpired(now);
      if task !in activeByTask {
        assert forall s :: s in Contents() ==> Contents()[s].task != task;
        return Active(None);
      }
      var subtask := activeByTask[task];
      var x := states[subtask];
      InverseIsWellFormed(activeByTask, states);
      ActiveIs(Contents(), subtask);
      reply := Active(Some(Snapshot(x.taskId, x.subtaskId, x.generationId, x.offset, x.cachedContent, x.blocks,
                                    x.startedAt, x.lastActivityAt, x.statusUpdated)));
    }

    method ValidateGeneration(task: nat, subtask: nat, generation: string, now: nat) returns (reply: Reply)
      requires Valid()
      modifies this
      ensures Valid()
      ensures (Live(Contents(), now), reply) == Step(old(Contents()), now, ttl, Op.Validate(task, subtask, generation))
    {
      if task == 0 || subtask == 0 || IsBlank(generation) {
        return Refused;
      }
      var found := ActiveState(subtask, now);
      if !found || states[subtask].taskId != task || states[subtask].generationId != generation {
        return Refused;
      }
      reply := Done;
    }

    method AppendText(subtask: nat, generation: string, blockId: string, offset: nat, content: string, now: nat)
      returns (reply: Reply)
      requires Valid()
      modifies this
      ensures Valid()
      ensures (Live(Contents(), now), reply)
              == Step(old(Contents()), now, ttl, Op.Append(subtask, generation, blockId, offset, content))
    {
      hide Inverse, GoodStream, GoodBlocks, IsBlank, IsBlockId, IsWithinCap, PutBlock, Utf16Length;
      if subtask == 0 || IsBlank(generation) || !IsBlockId(blockId) {
        return Refused;
      }
      var found := ActiveState(subtask, now);
      if found {
        KnownState(activeByTask, states, subtask);
      }
      if !found || states[subtask].generationId != generation || states[subtask].offset != offset {
        return Refused;
      }
      var x := states[subtask];
      Utf16LengthAdds(x.cachedContent, content);
      StaysGood(Abstracted(x), Abstracted(x).(text := x.cachedContent + content));
      Store(subtask,
            x.(cachedContent := x.cachedContent + content, offset := x.offset + Utf16Length(content)),
            now);
      reply := Offset(offset + Utf16Length(content));
    }

    method UpsertBlock(subtask: nat, generation: string, block: Block, now: nat) returns (reply: Reply)
      requires Valid()
      modifies this
      ensures Valid()
      ensures (Live(Contents(), now), reply) == Step(old(Contents()), now, ttl, Op.Upsert(subtask, generation, block))
    {
      hide Inverse, GoodStream, GoodBlocks, IsBlank, IsBlockId, IsWithinCap, PutBlock, Utf16Length;
      if subtask == 0 || IsBlank(generation) || !IsBlockId(block.id) || !IsWithinCap(block.json) {
        return Refused;
      }
      var found := ActiveState(subtask, now);
      if !found || states[subtask].generationId != generation {
        return Refused;
      }
      var blocks := ReplaceOrAppend(states[subtask].blocks, block);
      KnownState(activeByTask, states, subtask);
      PutBlockStaysGood(states[subtask].blocks, block);
      StaysGood(Abstracted(states[subtask]), Abstracted(states[subtask]).(blocks := blocks));
      Store(subtask, states[subtask].(blocks := blocks), now);
      reply := Done;
    }

    method SetCancelled(subtask: nat, generation: string, now: nat) returns (reply: Reply)
      requires Valid()
      modifies this
      ensures Valid()
      ensures (Live(Contents(), now), reply) == Step(old(Contents()), now, ttl, Op.SetCancelled(subtask, generation))
    {
      hide Inverse, GoodStream, GoodBlocks, IsBlank, IsBlockId, IsWithinCap, PutBlock, Utf16Length;
      if subtask == 0 || IsBlank(generation) {
        return Refused;
      }
      var found := ActiveState(subtask, now);
      if !found || states[subtask].generationId != generation {
        return Refused;
      }
      KnownState(activeByTask, states, subtask);
      StaysGood(Abstracted(states[subtask]), Abstracted(states[subtask]).(cancelled := true));
      Store(subtask, states[subtask].(cancelled := true), now);
      reply := Done;
    }

    method IsCancelled(subtask: nat, generation: string, now: nat) returns (reply: Reply)
      requires Valid()
      modifies this
      ensures Valid()
      ensures (Live(Contents(), now), reply) == Step(old(Contents()), now, ttl, Op.IsCancelled(subtask, generation))
    {
      hide Inverse, GoodStream, GoodBlocks, IsBlank, IsBlockId, IsWithinCap, PutBlock, Utf16Length;
      if subtask == 0 || IsBlank(generation) {
        return Refused;
      }
      if subtask !in states {
        return Flag(false);
      }
      if states[subtask].expiresAt <= now {
        RemoveState(subtask);
        assert Live(Contents(), now) == Live(old(Contents()), now);
        return Flag(false);
      }
      if states[subtask].generationId != generation {
        return Refused;
      }
      reply := Flag(states[subtask].cancelled);
    }

    method SetStatusSnapshot(subtask: nat, generation: string, payload: string, now: nat) returns (reply: Reply)
      requires Valid()
      modifies this
      ensures Valid()
      ensures (Live(Contents(), now), reply)
              == Step(old(Contents()), now, ttl, Op.SetStatus(subtask, generation, payload))
    {
      hide Inverse, GoodStream, GoodBlocks, IsBlank, IsBlockId, IsWithinCap, PutBlock, Utf16Length;
      if subtask == 0 || IsBlank(generation) || !IsWithinCap(payload) {
        return Refused;
      }
      var found := ActiveState(subtask, now);
      if !found || states[subtask].generationId != generation {
        return Refused;
      }
      KnownState(activeByTask, states, subtask);
      StaysGood(Abstracted(states[subtask]), Abstracted(states[subtask]).(status := Some(payload)));
      Store(subtask, states[subtask].(statusUpdated := Some(payload)), now);
      reply := Done;
    }

    method Finalize(task: nat, subtask: nat, generation: string, now: nat) returns (reply: Reply)
      requires Valid()
      modifies this
      ensures Valid()
      ensures (Live(Contents(), now), reply) == Step(old(Contents()), now, ttl, Op.Finalize(task, subtask, generation))
    {
      if task == 0 || subtask == 0 || IsBlank(generation) {
        return Refused;
      }
      hide Inverse, GoodStream, GoodBlocks, IsBlank, Step;
      FinalizeIs(Contents(), now, ttl, task, subtask, generation);
      CleanupExpired(now);
      LiveWithout(Contents(), now, subtask);
      reply := Done;
      PointersAreTotal(activeByTask, states, task, subtask);
      if task !in activeByTask || activeByTask[task] != subtask {
        return;
      }
      if states[subtask].generationId != generation {
        return;
      }
      RemovalRestoresInverse(activeByTask, states, subtask);
      RemovalIsAbstract(states, subtask);
      activeByTask := activeByTask - {task};
      states := states - {subtask};
    }
  }

  /** The loop of `upsert_block`. */
  method ReplaceOrAppend(blocks: seq<Block>, block: Block) returns (r: seq<Block>)
    ensures r == PutBlock(blocks, block)
  {
    for index := 0 to |blocks|
      invariant forall j :: 0 <= j < index ==> blocks[j].id != block.id
    {
      if blocks[index].id == block.id {
        PutBlockAt(blocks, block, index);
        return blocks[index := block];
      }
    }
    PutBlockAt(blocks, block, |blocks|);
    r := blocks + [block];
  }
}
