/**
 What the two stream stores have in common, over single operations and over whole runs on one clock, and the one
 place where they part: texts and block orders beyond the byte cap of the Redis scripts.
 */
module StreamTheorems {
  import opened Outcomes
  import opened Utf8
  import opened Texts
  import opened BlockIds
  import opened StreamSpec
  import opened RedisKeys

  /**
   Where the cap is felt: an append that names a live stream and its offset, and a long text or chunk; or a snapshot of
   a stream that is too long.
   */
  ghost predicate MeetsTheCap(live: Streams, op: Op) {
    && Accepts(op)
    && match op
       case Append(subtask, generation, _, offset, content) =>
         && Fenced(live, subtask, generation) && Utf16Length(live[subtask].text) == offset
         && (IsTooLong(live[subtask].text) || IsTooLong(content))
       case GetActive(task) => exists s :: s in live && live[s].task == task && !Fits(live[s])
       case _ => false
  }

  /** The two stores agree on an operation unless it meets the cap, and then even their replies differ. */
  lemma StoresAgreeExactlyBelowTheCap(m: Streams, now: nat, ttl: nat, op: Op)
    ensures !MeetsTheCap(Live(m, now), op) ==> RedisStep(m, now, ttl, op) == Step(m, now, ttl, op)
    ensures MeetsTheCap(Live(m, now), op) ==> RedisStep(m, now, ttl, op).1 != Step(m, now, ttl, op).1
  {
    hide IsTooLong, Fits, Utf16Length, IsBlank, IsBlockId, IsWithinCap;
  }

  // ----- Runs ----------------------------------------------------------------------------------------

  datatype Call = Call(now: nat, op: Op)

  ghost function MemoryRun(m: Streams, ttl: nat, calls: seq<Call>): (Streams, seq<Reply>)
    decreases |calls|
  {
    if calls == [] then (m, [])
    else
      var (n, reply) := Step(m, calls[0].now, ttl, calls[0].op);
      var (end, replies) := MemoryRun(n, ttl, calls[1..]);
      (end, [reply] + replies)
  }

  ghost function RedisRun(m: Streams, ttl: nat, calls: seq<Call>): (Streams, seq<Reply>)
    decreases |calls|
  {
    if calls == [] then (m, [])
    else
      var (n, reply) := RedisStep(m, calls[0].now, ttl, calls[0].op);
      var (end, replies) := RedisRun(n, ttl, calls[1..]);
      (end, [reply] + replies)
  }

  /** No operation of the run meets the cap, in the streams that the operations before it leave. */
  ghost predicate StaysBelowTheCap(m: Streams, ttl: nat, calls: seq<Call>)
    decreases |calls|
  {
    calls != [] ==>
      && !MeetsTheCap(Live(m, calls[0].now), calls[0].op)
      && StaysBelowTheCap(Step(m, calls[0].now, ttl, calls[0].op).0, ttl, calls[1..])
  }

  /**
   The stores give the same replies, snapshots included, and end with the same streams, exactly if no operation of the
   run meets the cap.
   */
  lemma {:induction false} StoresRunInLockstep(m: Streams, ttl: nat, calls: seq<Call>)
    ensures RedisRun(m, ttl, calls) == MemoryRun(m, ttl, calls) <==> StaysBelowTheCap(m, ttl, calls)
    decreases |calls|
  {
    hide MeetsTheCap, Step, RedisStep;
    if calls != [] {
      var (now, op) := (calls[0].now, calls[0].op);
      StoresAgreeExactlyBelowTheCap(m, now, ttl, op);
      StoresRunInLockstep(Step(m, now, ttl, op).0, ttl, calls[1..]);
      RunStarts(m, ttl, calls);
      var n := Step(m, now, ttl, op).0;
      assert MemoryRun(m, ttl, calls).1[1..] == MemoryRun(n, ttl, calls[1..]).1;
      assert RedisRun(m, ttl, calls).1[1..] == RedisRun(RedisStep(m, now, ttl, op).0, ttl, calls[1..]).1;
    }
  }

  lemma RunStarts(m: Streams, ttl: nat, calls: seq<Call>)
    requires calls != []
    ensures MemoryRun(m, ttl, calls).1 != [] && RedisRun(m, ttl, calls).1 != []
    ensures MemoryRun(m, ttl, calls).1[0] == Step(m, calls[0].now, ttl, calls[0].op).1
    ensures RedisRun(m, ttl, calls).1[0] == RedisStep(m, calls[0].now, ttl, calls[0].op).1
  {
    hide Step, RedisStep;
  }

  /** A store may forget what has expired at any moment: no later run can tell. */
  lemma SweepingIsNotSeen(m: Streams, now: nat, ttl: nat, calls: seq<Call>)
    requires calls != [] && now <= calls[0].now
    ensures MemoryRun(Live(m, now), ttl, calls) == MemoryRun(m, ttl, calls)
  {
    hide Step, Live;
    LiveAgain(m, now, calls[0].now);
    StepSeesOnlyLive(Live(m, now), m, calls[0].now, ttl, calls[0].op);
  }

  /** Every run keeps one stream per task, first-seen block order without repeats, and canonical fields. */
  lemma {:induction false} RunsKeepWellFormed(m: Streams, ttl: nat, calls: seq<Call>)
    requires WellFormed(m)
    ensures WellFormed(MemoryRun(m, ttl, calls).0)
    ensures WellFormed(RedisRun(m, ttl, calls).0)
    decreases |calls|
  {
    hide WellFormed, Overflows, Step;
    if calls != [] {
      var (now, op) := (calls[0].now, calls[0].op);
      StepKeepsWellFormed(m, now, ttl, op);
      LiveIsWellFormed(m, now);
      RunsKeepWellFormed(Step(m, now, ttl, op).0, ttl, calls[1..]);
      RunsKeepWellFormed(RedisStep(m, now, ttl, op).0, ttl, calls[1..]);
    }
  }

  predicate Leaves(op: Op, subtask: nat) {
    match op
    case Start(_, s, _) => s != subtask
    case Finalize(_, s, _) => s != subtask
    case _ => true
  }

  /** What is streamed of one subtask by the calls of a run, in order. */
  ghost function Accepted(subtask: nat, m: Streams, ttl: nat, calls: seq<Call>): string
    decreases |calls|
  {
    if calls == [] then ""
    else
      var (n, reply) := Step(m, calls[0].now, ttl, calls[0].op);
      (if calls[0].op.Append? && calls[0].op.subtask == subtask && reply.Offset? then calls[0].op.content else "")
      + Accepted(subtask, n, ttl, calls[1..])
  }

  /** Nothing is lost, doubled or reordered: a stream that outlives a run holds its text and what it accepted. */
  lemma {:induction false} TextIsWhatWasAccepted(m: Streams, ttl: nat, calls: seq<Call>, subtask: nat)
    requires subtask in m && forall i :: 0 <= i < |calls| ==> Leaves(calls[i].op, subtask)
    requires subtask in MemoryRun(m, ttl, calls).0
    ensures MemoryRun(m, ttl, calls).0[subtask].text == m[subtask].text + Accepted(subtask, m, ttl, calls)
    ensures MemoryRun(m, ttl, calls).0[subtask].generation == m[subtask].generation
    decreases |calls|
  {
    hide Step;
    if calls == [] {
      assert m[subtask].text + "" == m[subtask].text;
    } else {
      var (n, reply) := Step(m, calls[0].now, ttl, calls[0].op);
      if subtask !in n {
        GoneStaysGone(n, ttl, calls[1..], subtask);
      }
      OneStepOfText(m, calls[0].now, ttl, calls[0].op, subtask);
      TextIsWhatWasAccepted(n, ttl, calls[1..], subtask);
    }
  }

  lemma OneStepOfText(m: Streams, now: nat, ttl: nat, op: Op, subtask: nat)
    requires subtask in m && Leaves(op, subtask) && subtask in Step(m, now, ttl, op).0
    ensures Step(m, now, ttl, op).0[subtask].generation == m[subtask].generation
    ensures Step(m, now, ttl, op).0[subtask].text
            == m[subtask].text
               + if op.Append? && op.subtask == subtask && Step(m, now, ttl, op).1.Offset? then op.content else ""
  {
    assert m[subtask].text + "" == m[subtask].text;
  }

  lemma {:induction false} GoneStaysGone(m: Streams, ttl: nat, calls: seq<Call>, subtask: nat)
    requires subtask !in m && forall i :: 0 <= i < |calls| ==> Leaves(calls[i].op, subtask)
    ensures subtask !in MemoryRun(m, ttl, calls).0
    decreases |calls|
  {
    if calls != [] {
      var (n, reply) := Step(m, calls[0].now, ttl, calls[0].op);
      GoneStaysGone(n, ttl, calls[1..], subtask);
    }
  }

  // ----- Beyond the cap ------------------------------------------------------------------------------

  ghost predicate AppendsOnBoth(m: Streams, n: Streams, now: nat, ttl: nat, op: Op) {
    && Step(m, now, ttl, op) == RedisStep(m, now, ttl, op)
    && Step(m, now, ttl, op).0 == n && Step(m, now, ttl, op).1.Offset?
  }

  lemma AppendGrows(m: Streams, s: nat, now: nat, ttl: nat, blockId: string, content: string)
    requires WellFormed(m) && s in m && m[s].expiresAt > now && ttl > 0 && IsBlockId(blockId)
    requires !IsTooLong(m[s].text) && !IsTooLong(content)
    ensures var op := Op.Append(s, m[s].generation, blockId, Utf16Length(m[s].text), content);
            var n := Step(m, now, ttl, op).0;
            && AppendsOnBoth(m, n, now, ttl, op) && WellFormed(n) && s in n && n[s].expiresAt > now
            && n[s].text == m[s].text + content && n[s].generation == m[s].generation && n[s].task == m[s].task
  {
    hide IsBlockId, IsTooLong, IsBlank, GoodBlocks, IsWithinCap;
    StepKeepsWellFormed(m, now, ttl, Op.Append(s, m[s].generation, blockId, Utf16Length(m[s].text), content));
    assert s > 0 && GoodStream(m[s]);
  }

  lemma LongStreamsHaveNoSnapshot(m: Streams, s: nat, now: nat, ttl: nat)
    requires WellFormed(m) && s in m && m[s].expiresAt > now && IsTooLong(m[s].text)
    ensures RedisStep(m, now, ttl, Op.GetActive(m[s].task)).1 == Refused
    ensures Step(m, now, ttl, Op.GetActive(m[s].task)).1 == Active(Some(SnapshotOf(s, m[s])))
  {
    hide IsTooLong;
    assert GoodStream(m[s]);
    hide GoodStream;
    LiveIsWellFormed(m, now);
    ActiveIs(Live(m, now), s);
  }

  /** Two chunks that each fit, and together do not: both stores take them, but only one gives them back. */
  lemma SnapshotsPartBeyondTheCap(m: Streams, s: nat, now: nat, ttl: nat, blockId: string, content: string)
    requires WellFormed(m) && s in m && m[s].expiresAt > now && m[s].text == "" && ttl > 0 && IsBlockId(blockId)
    requires |Encode(content)| <= MAX_JSON_CANONICAL_BYTES < 2 * |Encode(content)|
    ensures exists one, two, first, second ::
              && AppendsOnBoth(m, one, now, ttl, first) && AppendsOnBoth(one, two, now, ttl, second)
              && RedisStep(two, now, ttl, Op.GetActive(m[s].task)).1 == Refused
              && Step(two, now, ttl, Op.GetActive(m[s].task)).1.Active?
              && Step(two, now, ttl, Op.GetActive(m[s].task)).1.snapshot.Some?
  {
    hide IsBlockId, WellFormed, Step, AppendsOnBoth, RedisStep, Utf16Length;
    var first := Op.Append(s, m[s].generation, blockId, Utf16Length(""), content);
    AppendGrows(m, s, now, ttl, blockId, content);
    var one := Step(m, now, ttl, first).0;
    assert one[s].text == "" + content == content;
    var second := Op.Append(s, one[s].generation, blockId, Utf16Length(content), content);
    AppendGrows(one, s, now, ttl, blockId, content);
    var two := Step(one, now, ttl, second).0;
    EncodeAdds(content, content);
    LongStreamsHaveNoSnapshot(two, s, now, ttl);
  }

  function Letters(n: nat): (text: string)
    ensures |text| == n
    ensures |Encode(text)| == n
  {
    if n == 0 then ""
    else
      var rest := Letters(n - 1);
      assert (['a'] + rest)[1..] == rest;
      ['a'] + rest
  }

  /** Such chunks exist, and a stream that was just started takes them. */
  lemma SuchChunksExist(size: nat, task: nat, subtask: nat, generation: string, now: nat, ttl: nat)
    requires size <= MAX_JSON_CANONICAL_BYTES < 2 * size
    requires Accepts(Op.Start(task, subtask, generation)) && ttl > 0
    ensures |Encode(Letters(size))| <= MAX_JSON_CANONICAL_BYTES < 2 * |Encode(Letters(size))|
    ensures var m := Step(map[], now, ttl, Op.Start(task, subtask, generation)).0;
            WellFormed(m) && subtask in m && m[subtask].expiresAt > now && m[subtask].text == ""
  {
    hide IsBlank, Encode;
    StepKeepsWellFormed(map[], now, ttl, Op.Start(task, subtask, generation));
  }
}
