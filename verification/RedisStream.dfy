/**
 The Redis stream store: every operation is one script over the keys, and every script does to the streams what
 `StreamSpec` says, except where the byte cap stops it.
 */
module RedisStream {
  import opened Outcomes
  import opened Utf8
  import opened Decimal
  import opened Texts
  import opened BlockIds
  import opened StreamSpec
  import opened RedisKeys

  class RedisChatStreamStore {
    const ttl: nat
    var tasks: TaskKeys
    var streams: StreamKeys
    ghost var contents: Streams

    ghost predicate Valid()
      reads this
    {
      ttl > 0 && Represents(tasks, streams, contents)
    }

    constructor (ttlSeconds: nat)
      requires 60 <= ttlSeconds <= 86400
      ensures Valid() && contents == map[] && ttl == ttlSeconds
    {
      ttl := ttlSeconds;
      tasks := map[];
      streams := map[];
      contents := map[];
    }

    /** What Redis does by itself: a key whose time is up is not there. */
    method Expire(now: nat)
      requires Valid()
      modifies this
      ensures Valid()
      ensures contents == Live(old(contents), now)
    {
      hide Represents;
      ExpiryIsLive(tasks, streams, contents, now);
      tasks := map k | k in tasks && tasks[k].expiresAt > now :: tasks[k];
      streams := map k | k in streams && streams[k].expiresAt > now :: streams[k];
      contents := Live(contents, now);
    }

    method Start(task: nat, subtask: nat, generation: string, now: nat) returns (reply: Reply)
      requires Valid()
      modifies this
      ensures Valid()
      ensures (contents, reply) == RedisStep(old(contents), now, ttl, Op.Start(task, subtask, generation))
    {
      hide Represents, IsBlank, StartCode, HoldsFields, GoodStream;
      Expire(now);
      if task == 0 || subtask == 0 || IsBlank(generation) {
        return Refused;
      }
      var k, h := Numeral(task), Numeral(subtask);
      StartCodeIs(tasks, streams, contents, task, subtask);
      if StartCode(tasks, streams, k, h) != Passed {
        return Refused;
      }
      FreshIsHeld(task, subtask, generation, now, ttl);
      ghost var x := NewStream(task, generation, now, ttl);
      StartIsRepresented(tasks, streams, contents, task, subtask, FreshFields(task, subtask, generation, now), x);
      tasks, streams := TasksBeforeStart(tasks, streams, k, h), StreamsBeforeStart(tasks, streams, k, h);
      tasks := tasks[k := TaskHash(Some(h), now + ttl)];
      streams := streams[h := StreamHash(FreshFields(task, subtask, generation, now), now + ttl)];
      contents := Started(contents, now, ttl, task, subtask, generation);
      reply := Done;
    }

    method GetActive(task: nat, now: nat) returns (reply: Reply)
      requires Valid()
      modifies this
      ensures Valid()
      ensures (contents, reply) == RedisStep(old(contents), now, ttl, Op.GetActive(task))
    {
      hide Represents, SnapshotCode, HoldsFields, GoodStream, DecodedSnapshot, Fits;
      Expire(now);
      if task == 0 {
        return Refused;
      }
      var k := Numeral(task);
      var code := SnapshotCode(tasks, streams, k);
      if s :| s in contents && contents[s].task == task {
        SnapshotCodeIs(tasks, streams, contents, s);
        KnownStream(tasks, streams, contents, s);
        StoredReadsBack(streams[Numeral(s)].fields, s, contents[s]);
        NumberOfNumeral(s);
        OnlyStreamOf(tasks, streams, contents, s);
        ActiveIs(contents, s);
      } else {
        NoSnapshot(tasks, streams, contents, task);
      }
      if code == NotActive {
        return Active(None);
      }
      if code != Passed {
        return Refused;
      }
      var h := tasks[k].subtaskId.value;
      var snapshot := DecodedSnapshot(streams[h].fields, task, Number(h));
      reply := if snapshot.None? then Refused else Active(snapshot);
    }

    method ValidateGeneration(task: nat, subtask: nat, generation: string, now: nat) returns (reply: Reply)
      requires Valid()
      modifies this
      ensures Valid()
      ensures (contents, reply) == RedisStep(old(contents), now, ttl, Op.Validate(task, subtask, generation))
    {
      hide Represents, IsBlank, PairCode;
      Expire(now);
      if task == 0 || subtask == 0 || IsBlank(generation) {
        return Refused;
      }
      PairCodeIs(tasks, streams, contents, task, subtask, generation, true);
      var code := PairCode(tasks, streams, Numeral(task), Numeral(subtask), generation, true);
      reply := if code == Passed then Done else Refused;
    }

    /** `HSET` on the stream and `EXPIRE` on both of its keys. */
    method Touch(subtask: nat, f: Fields, now: nat, ghost y: Stream)
      requires Valid() && subtask in contents
      requires Numeral(subtask) in streams && streams[Numeral(subtask)].StreamHash?
      requires y == contents[subtask].(text := y.text, blocks := y.blocks, status := y.status, cancelled := y.cancelled)
      requires HoldsFields(f, subtask, y) && GoodStream(y)
      modifies this
      ensures Valid()
      ensures contents == Touched(old(contents), subtask, y, now, ttl)
    {
      hide Represents, GoodStream, HoldsBlocks, Numeral;
      KnownStream(tasks, streams, contents, subtask);
      OnlyStreamOf(tasks, streams, contents, subtask);
      var h := Numeral(subtask);
      var k := f.taskId.value;
      ghost var x := y.(lastActivityAt := now, expiresAt := now + ttl);
      StaysGood(y, x);
      StoredIsRepresented(tasks, streams, contents, subtask, f.(lastActivityAt := Some(now)), x);
      streams := streams[h := StreamHash(f.(lastActivityAt := Some(now)), now + ttl)];
      if k in tasks && tasks[k].TaskHash? {
        tasks := tasks[k := tasks[k].(expiresAt := now + ttl)];
      }
      contents := contents[subtask := x];
    }

    method AppendText(subtask: nat, generation: string, blockId: string, offset: nat, content: string, now: nat)
      returns (reply: Reply)
      requires Valid()
      modifies this
      ensures Valid()
      ensures (contents, reply)
              == RedisStep(old(contents), now, ttl, Op.Append(subtask, generation, blockId, offset, content))
    {
      hide Represents, IsBlank, IsBlockId, AppendCode, HoldsBlocks, GoodStream, Utf16Length, Encode, Numeral;
      Expire(now);
      if subtask == 0 || IsBlank(generation) || !IsBlockId(blockId) {
        return Refused;
      }
      AppendCodeIs(tasks, streams, contents, subtask, generation, offset, content);
      KnownStream(tasks, streams, contents, subtask);
      var h := Numeral(subtask);
      if AppendCode(tasks, streams, h, generation, offset, content) != Passed {
        return Refused;
      }
      var f := streams[h].fields;
      ghost var x := contents[subtask];
      EncodeAdds(x.text, content);
      Utf16LengthAdds(x.text, content);
      StaysGood(x, x.(text := x.text + content));
      Touch(subtask,
            f.(cachedContent := Some(f.cachedContent.value + Encode(content)),
               offset := Some(Numeral(offset + Utf16Length(content)))),
            now, x.(text := x.text + content));
      reply := Offset(offset + Utf16Length(content));
    }

    method UpsertBlock(subtask: nat, generation: string, block: Block, now: nat) returns (reply: Reply)
      requires Valid()
      modifies this
      ensures Valid()
      ensures (contents, reply) == RedisStep(old(contents), now, ttl, Op.Upsert(subtask, generation, block))
    {
      hide Represents, IsBlank, IsBlockId, IsWithinCap, UpsertCode, GoodBlocks, HoldsBlocks, PutBlock, Encode, Numeral;
      Expire(now);
      if subtask == 0 || IsBlank(generation) || !IsBlockId(block.id) || !IsWithinCap(block.json) {
        return Refused;
      }
      UpsertCodeIs(tasks, streams, contents, subtask, generation);
      KnownStream(tasks, streams, contents, subtask);
      var h := Numeral(subtask);
      if UpsertCode(tasks, streams, h, generation) != Passed {
        return Refused;
      }
      var f := streams[h].fields;
      ghost var x := contents[subtask];
      PutBlockKeepsOrder(x.blocks, block);
      PutBlockIsHeld(f.blocks, x.blocks, block);
      PutBlockStaysGood(x.blocks, block);
      StaysGood(x, x.(blocks := PutBlock(x.blocks, block)));
      var order := f.blockOrder.value;
      if block.id !in order {
        order := order + [block.id];
      }
      Touch(subtask, f.(blockOrder := Some(order), blocks := f.blocks[block.id := block]), now,
            x.(blocks := PutBlock(x.blocks, block)));
      reply := Done;
    }

    method SetCancelled(subtask: nat, generation: string, now: nat) returns (reply: Reply)
      requires Valid()
      modifies this
      ensures Valid()
      ensures (contents, reply) == RedisStep(old(contents), now, ttl, Op.SetCancelled(subtask, generation))
    {
      hide Represents, IsBlank, MutateCode, GoodStream, HoldsBlocks, Encode, Numeral;
      Expire(now);
      if subtask == 0 || IsBlank(generation) {
        return Refused;
      }
      MutateCodeIs(tasks, streams, contents, subtask, generation);
      KnownStream(tasks, streams, contents, subtask);
      var h := Numeral(subtask);
      if MutateCode(tasks, streams, h, generation) != Passed {
        return Refused;
      }
      StaysGood(contents[subtask], contents[subtask].(cancelled := true));
      Touch(subtask, streams[h].fields.(cancelled := Some("1")), now, contents[subtask].(cancelled := true));
      reply := Done;
    }

    method IsCancelled(subtask: nat, generation: string, now: nat) returns (reply: Reply)
      requires Valid()
      modifies this
      ensures Valid()
      ensures (contents, reply) == RedisStep(old(contents), now, ttl, Op.IsCancelled(subtask, generation))
    {
      hide Represents, IsBlank, CancelledCode, GoodStream, HoldsBlocks;
      Expire(now);
      if subtask == 0 || IsBlank(generation) {
        return Refused;
      }
      CancelledCodeIs(tasks, streams, contents, subtask, generation);
      KnownStream(tasks, streams, contents, subtask);
      var h := Numeral(subtask);
      var code := CancelledCode(tasks, streams, h, generation);
      if code == NotActive {
        return Flag(false);
      }
      if code != Passed {
        return Refused;
      }
      reply := Flag(streams[h].fields.cancelled == Some("1"));
    }

    method SetStatusSnapshot(subtask: nat, generation: string, payload: string, now: nat) returns (reply: Reply)
      requires Valid()
      modifies this
      ensures Valid()
      ensures (contents, reply) == RedisStep(old(contents), now, ttl, Op.SetStatus(subtask, generation, payload))
    {
      hide Represents, IsBlank, IsWithinCap, MutateCode, GoodStream, HoldsBlocks, Encode, Numeral;
      Expire(now);
      if subtask == 0 || IsBlank(generation) || !IsWithinCap(payload) {
        return Refused;
      }
      MutateCodeIs(tasks, streams, contents, subtask, generation);
      KnownStream(tasks, streams, contents, subtask);
      var h := Numeral(subtask);
      if MutateCode(tasks, streams, h, generation) != Passed {
        return Refused;
      }
      StaysGood(contents[subtask], contents[subtask].(status := Some(payload)));
      Touch(subtask, streams[h].fields.(statusUpdated := Some(payload)), now,
            contents[subtask].(status := Some(payload)));
      reply := Done;
    }

    method Finalize(task: nat, subtask: nat, generation: string, now: nat) returns (reply: Reply)
      requires Valid()
      modifies this
      ensures Valid()
      ensures (contents, reply) == RedisStep(old(contents), now, ttl, Op.Finalize(task, subtask, generation))
    {
      hide Represents, IsBlank, PairCode;
      Expire(now);
      if task == 0 || subtask == 0 || IsBlank(generation) {
        return Refused;
      }
      PairCodeIs(tasks, streams, contents, task, subtask, generation, false);
      var code := PairCode(tasks, streams, Numeral(task), Numeral(subtask), generation, false);
      if code == Passed {
        RemovedIsRepresented(tasks, streams, contents, subtask);
        tasks, streams := tasks - {Numeral(task)}, streams - {Numeral(subtask)};
        contents := contents - {subtask};
      }
      reply := if code == Passed || code == Stale then Done else Refused;
    }
  }
}
