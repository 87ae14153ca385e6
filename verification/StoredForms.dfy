/** The dictionaries that are stored for blocks, calls, messages and results, read key by key. */
module StoredForms {
  import opened Outcomes
  import opened Sequences
  import opened JsonSafety
  import opened CanonicalText
  import opened ChatBlocks
  import opened MessageChain
  import opened Reduction

  lemma KeyAt(keys: seq<string>, values: seq<Json>, i: nat)
    requires NoRepeats(keys) && |keys| == |values| && i < |keys|
    ensures LookupIn(keys, values, keys[i]) == Some(values[i])
  {
    LookupFinds(keys, values, keys[i]);
    assert keys[i] !in keys[..i];
  }

  /** The value under a key. */
  predicate Has(t: Json, key: string, value: Json) {
    t.Obj? && Lookup(t, key) == Some(value)
  }

  predicate Lacks(t: Json, key: string) {
    t.Obj? && Lookup(t, key) == None
  }

  lemma KeysHave(t: Json)
    requires t.Obj? && NoRepeats(t.keys) && |t.keys| == |t.values|
    ensures forall i :: 0 <= i < |t.keys| ==> Has(t, t.keys[i], t.values[i])
    ensures forall key :: key !in t.keys ==> Lacks(t, key)
  {
    forall i | 0 <= i < |t.keys|
      ensures Has(t, t.keys[i], t.values[i])
    {
      KeyAt(t.keys, t.values, i);
    }
    forall key | key !in t.keys
      ensures Lacks(t, key)
    {
      LookupFinds(t.keys, t.values, key);
    }
  }

  // ----- Blocks --------------------------------------------------------------------------------------

  /** A block as it is stored: type, id, status and time, and its text or its call with the output, if there is one. */
  predicate IsStoredBlock(t: Json, b: ChatBlock) {
    && Has(t, "id", Str(b.id)) && Has(t, "timestamp", Str(b.timestamp))
    && Has(t, "status", Str(match b.status
                            case Streaming => "streaming"
                            case GeneratingArguments => "generating_arguments"
                            case Pending => "pending"
                            case Done => "done"
                            case Error => "error"))
    && match b
       case TextBlock(_, content, _, _) =>
         Has(t, "type", Str("text")) && Has(t, "content", Str(content)) && |t.keys| == 5
       case ToolBlock(_, useId, name, input, output, _, _) =>
         && Has(t, "type", Str("tool")) && Has(t, "tool_use_id", Str(useId)) && Has(t, "tool_name", Str(name))
         && Has(t, "tool_input", input)
         && (if output.Some? then Has(t, "tool_output", output.value) && |t.keys| == 8
             else Lacks(t, "tool_output") && |t.keys| == 7)
  }

  lemma TextsAreStored(b: ChatBlock)
    requires b.TextBlock?
    ensures IsStoredBlock(BlockJson(b), b)
  {
    var t := BlockJson(b);
    assert NoRepeats(t.keys) && |t.keys| == |t.values|;
    KeysHave(t);
    hide Has, Lacks, NoRepeats;
    assert Has(t, t.keys[0], t.values[0]) && Has(t, t.keys[1], t.values[1]) && Has(t, t.keys[2], t.values[2]);
    assert Has(t, t.keys[3], t.values[3]) && Has(t, t.keys[4], t.values[4]);
  }

  lemma OpenCallsAreStored(b: ChatBlock)
    requires b.ToolBlock? && b.toolOutput.None?
    ensures IsStoredBlock(BlockJson(b), b)
  {
    var t := BlockJson(b);
    assert NoRepeats(t.keys) && |t.keys| == |t.values|;
    KeysHave(t);
    hide Has, Lacks, NoRepeats;
    assert Has(t, t.keys[0], t.values[0]) && Has(t, t.keys[1], t.values[1]) && Has(t, t.keys[2], t.values[2]);
    assert Has(t, t.keys[3], t.values[3]) && Has(t, t.keys[4], t.values[4]) && Has(t, t.keys[5], t.values[5]);
    assert Has(t, t.keys[6], t.values[6]);
  }

  lemma ClosedCallsAreStored(b: ChatBlock)
    requires b.ToolBlock? && b.toolOutput.Some?
    ensures IsStoredBlock(BlockJson(b), b)
  {
    var t := BlockJson(b);
    assert NoRepeats(t.keys) && |t.keys| == |t.values|;
    KeysHave(t);
    hide Has, Lacks, NoRepeats;
    assert Has(t, t.keys[0], t.values[0]) && Has(t, t.keys[1], t.values[1]) && Has(t, t.keys[2], t.values[2]);
    assert Has(t, t.keys[3], t.values[3]) && Has(t, t.keys[4], t.values[4]) && Has(t, t.keys[5], t.values[5]);
    assert Has(t, t.keys[6], t.values[6]) && Has(t, t.keys[7], t.values[7]);
  }

  lemma BlocksAreStored(b: ChatBlock)
    ensures IsStoredBlock(BlockJson(b), b)
  {
    hide BlockJson, IsStoredBlock;
    if b.TextBlock? {
      TextsAreStored(b);
    } else if b.toolOutput.None? {
      OpenCallsAreStored(b);
    } else {
      ClosedCallsAreStored(b);
    }
  }

  // ----- Messages ------------------------------------------------------------------------------------

  lemma {:induction false} LookupJoins(a: seq<string>, va: seq<Json>, b: seq<string>, vb: seq<Json>, key: string)
    requires |a| == |va|
    ensures LookupIn(a + b, va + vb, key) == if key in a then LookupIn(a, va, key) else LookupIn(b, vb, key)
  {
    if a == [] {
      assert a + b == b && va + vb == vb;
    } else {
      assert (a + b)[1..] == a[1..] + b && (va + vb)[1..] == va[1..] + vb;
      LookupJoins(a[1..], va[1..], b, vb, key);
    }
  }

  /** What is stored for a field: its value, a null where one is kept, and nothing where there is none. */
  function StoredField<T>(f: Field<T>, write: T -> Json): Option<Json> {
    match f
    case Given(value) => Some(write(value))
    case NullValue => Some(Null)
    case _ => None
  }

  /** A call: its id, the type `function`, and in it the name and the text of the arguments. */
  predicate IsStoredCall(t: Json, c: RawCall) {
    && Has(t, "id", Str(CallId(c))) && Has(t, "type", Str("function"))
    && t.Obj? && Lookup(t, "function").Some? && Lookup(t, "function").value.Obj?
    && var target := Lookup(t, "function").value;
       && Has(target, "name", Str(CallName(c)))
       && c.RawCall? && c.target.Given? && c.target.value.arguments.Given?
       && Has(target, "arguments", Str(match c.target.value.arguments.value
                                       case TextOf(tree) => Print(tree)
                                       case OtherText(text) => text))
  }

  lemma CallsAreStored(c: RawCall)
    requires IsGoodCall(c)
    ensures IsStoredCall(CallJson(c), c)
  {
    hide Print, Safe, IsShort;
    var t := CallJson(c);
    assert t.keys == ["function", "id", "type"] && |t.values| == 3;
    assert NoRepeats(t.keys);
    KeysHave(t);
    var target := t.values[0];
    assert target.keys == ["arguments", "name"] && |target.values| == 2;
    assert NoRepeats(target.keys);
    KeysHave(target);
    hide NoRepeats, Lookup, Has, IsGoodCall;
    assert Has(t, t.keys[0], t.values[0]) && Has(t, t.keys[1], t.values[1]) && Has(t, t.keys[2], t.values[2]);
    assert Has(target, target.keys[0], target.values[0]) && Has(target, target.keys[1], target.values[1]);
    HasIs(t, "function", target);
  }

  lemma HasIs(t: Json, key: string, value: Json)
    ensures Has(t, key, value) <==> t.Obj? && Lookup(t, key) == Some(value)
  {
  }

  lemma FieldLooks<T>(name: string, f: Field<T>, write: T -> Json, key: string)
    ensures var (names, values) := FieldJson(name, f, write);
            && |names| == |values| && (forall n :: n in names ==> n == name)
            && (name in names <==> StoredField(f, write).Some?)
            && LookupIn(names, values, key) == if key == name then StoredField(f, write) else None
  {
  }

  lemma OneLooks(name: string, value: Json, key: string)
    ensures LookupIn([name], [value], key) == if key == name then Some(value) else None
  {
    assert [name][1..] == [] && [value][1..] == [];
  }

  lemma FiveJoin(a: seq<string>, va: seq<Json>, b: seq<string>, vb: seq<Json>, c: seq<string>, vc: seq<Json>,
                 d: seq<string>, vd: seq<Json>, e: seq<string>, ve: seq<Json>, key: string)
    requires |a| == |va| && |b| == |vb| && |c| == |vc| && |d| == |vd|
    ensures LookupIn(a + b + c + d + e, va + vb + vc + vd + ve, key)
            == if key in a then LookupIn(a, va, key) else if key in b then LookupIn(b, vb, key)
               else if key in c then LookupIn(c, vc, key) else if key in d then LookupIn(d, vd, key)
               else LookupIn(e, ve, key)
  {
    hide LookupIn;
    LookupJoins(a, va, b, vb, key);
    LookupJoins(a + b, va + vb, c, vc, key);
    LookupJoins(a + b + c, va + vb + vc, d, vd, key);
    LookupJoins(a + b + c + d, va + vb + vc + vd, e, ve, key);
  }

  /** A stored tool message, key by key: nothing else is in it. */
  lemma AnswersAreStored(m: Message, key: string)
    requires m.Message? && m.role == ToolRole
    ensures Lookup(MessageJson(m), key)
            == if key == "role" then Some(Str("tool"))
               else if key == "content" then Some(m.content)
               else if key == "tool_call_id" then StoredField(m.toolCallId, (s: string) => Str(s))
               else if key == "name" then StoredField(m.name, (s: string) => Str(s))
               else if key == "is_error" then StoredField(m.isError, (b: bool) => Bool(b))
               else None
  {
    var (e, eV) := FieldJson("is_error", m.isError, b => Bool(b));
    var (n, nV) := FieldJson("name", m.name, s => Str(s));
    var (i, iV) := FieldJson("tool_call_id", m.toolCallId, s => Str(s));
    FieldLooks("is_error", m.isError, b => Bool(b), key);
    FieldLooks("name", m.name, s => Str(s), key);
    FieldLooks("tool_call_id", m.toolCallId, s => Str(s), key);
    OneLooks("content", m.content, key);
    OneLooks("role", Str("tool"), key);
    FiveJoin(["content"], [m.content], e, eV, n, nV, ["role"], [Str("tool")], i, iV, key);
    hide LookupIn, FieldJson;
  }

  /** A stored assistant message, key by key: nothing else is in it. */
  lemma AssistantsAreStored(m: Message, key: string)
    requires m.Message? && m.role != ToolRole
    ensures Lookup(MessageJson(m), key)
            == if key == "role" then Some(Str("assistant"))
               else if key == "content" then Some(m.content)
               else if key == "tool_calls" then StoredField(m.toolCalls, (calls: seq<RawCall>) => CallsJson(calls))
               else if key == "reasoning_content" then StoredField(m.reasoning, (s: string) => Str(s))
               else if key == "model_info" then StoredField(m.modelInfo, (info: ModelInfo) => ModelInfoJson(info))
               else if key == "compacted" then StoredField(m.compacted, (b: bool) => Bool(b))
               else if key == "summary_compacted" then StoredField(m.summaryCompacted, (b: bool) => Bool(b))
               else if key == "compaction_version" then StoredField(m.version, (k: int) => Int(k))
               else None
  {
    var (c, cV) := FieldJson("compacted", m.compacted, b => Bool(b));
    var (v, vV) := FieldJson("compaction_version", m.version, k => Int(k));
    var (o, oV) := FieldJson("model_info", m.modelInfo, x => ModelInfoJson(x));
    var (r, rV) := FieldJson("reasoning_content", m.reasoning, s => Str(s));
    var (s, sV) := FieldJson("summary_compacted", m.summaryCompacted, b => Bool(b));
    var (t, tV) := FieldJson("tool_calls", m.toolCalls, x => CallsJson(x));
    FieldLooks("compacted", m.compacted, b => Bool(b), key);
    FieldLooks("compaction_version", m.version, k => Int(k), key);
    FieldLooks("model_info", m.modelInfo, x => ModelInfoJson(x), key);
    FieldLooks("reasoning_content", m.reasoning, s => Str(s), key);
    FieldLooks("summary_compacted", m.summaryCompacted, b => Bool(b), key);
    FieldLooks("tool_calls", m.toolCalls, x => CallsJson(x), key);
    OneLooks("content", m.content, key);
    OneLooks("role", Str("assistant"), key);
    hide FieldJson, CallsJson, ModelInfoJson;
    FiveJoin(c, cV, v, vV, ["content"], [m.content], o, oV, r, rV, key);
    hide LookupIn;
    var (first, values) := (c + v + ["content"] + o + r, cV + vV + [m.content] + oV + rV);
    LookupJoins(first, values, ["role"], [Str("assistant")], key);
    LookupJoins(first + ["role"], values + [Str("assistant")], s, sV, key);
    LookupJoins(first + ["role"] + s, values + [Str("assistant")] + sV, t, tV, key);
  }

  /** Provider and model, with a null where there was none. */
  lemma ModelInfosAreStored(info: ModelInfo, key: string)
    ensures Lookup(ModelInfoJson(info), key)
            == if key == "provider" then StoredField(info.provider, (s: string) => Str(s))
               else if key == "model" then StoredField(info.model, (s: string) => Str(s))
               else None
  {
    var (n, v) := FieldJson("model", info.model, s => Str(s));
    var (n', v') := FieldJson("provider", info.provider, s => Str(s));
    FieldLooks("model", info.model, s => Str(s), key);
    FieldLooks("provider", info.provider, s => Str(s), key);
    LookupJoins(n, v, n', v', key);
    hide LookupIn, FieldJson;
  }

  // ----- Results -------------------------------------------------------------------------------------

  predicate IsStoredCompaction(t: Json, c: Compaction) {
    && Has(t, "message_index", Int(c.messageIndex)) && Has(t, "compacted", Bool(c.compacted))
    && Has(t, "summary_compacted", Bool(c.summaryCompacted))
    && Has(t, "version", if c.version.Some? then Int(c.version.value) else Null) && |t.keys| == 4
  }

  lemma CompactionsAreStored(c: Compaction)
    ensures IsStoredCompaction(CompactionJson(c), c)
  {
    var t := CompactionJson(c);
    assert NoRepeats(t.keys) && |t.keys| == |t.values|;
    KeysHave(t);
    hide Has, Lacks, NoRepeats;
    assert Has(t, t.keys[0], t.values[0]) && Has(t, t.keys[1], t.values[1]);
    assert Has(t, t.keys[2], t.values[2]) && Has(t, t.keys[3], t.values[3]);
  }

  /** The result of a run: its text, its blocks, compactions and sources in order, the reason, and the chain if any. */
  predicate IsStoredResult(t: Json, e: Envelope) {
    && Has(t, "value", Str(e.value)) && Has(t, "sources", Arr(e.sources))
    && Has(t, "termination_reason", if e.termination.Some? then Str(e.termination.value) else Null)
    && t.Obj? && Lookup(t, "blocks").Some? && Lookup(t, "context_compactions").Some?
    && var (blocks, compactions) := (Lookup(t, "blocks").value, Lookup(t, "context_compactions").value);
       && blocks.Arr? && |blocks.items| == |e.blocks|
       && (forall i :: 0 <= i < |e.blocks| ==> IsStoredBlock(blocks.items[i], e.blocks[i]))
       && compactions.Arr? && |compactions.items| == |e.compactions|
       && (forall i :: 0 <= i < |e.compactions| ==> IsStoredCompaction(compactions.items[i], e.compactions[i]))
       && (if e.chain.Some? then |t.keys| == 6 && Lookup(t, "messages_chain").Some?
           else |t.keys| == 5 && Lacks(t, "messages_chain"))
  }

  lemma ResultKeys(e: Envelope)
    requires e.chain.Some? ==> IsChain(e.chain.value)
    ensures var t := EnvelopeJson(e);
            && Has(t, "value", Str(e.value)) && Has(t, "sources", Arr(e.sources))
            && Has(t, "termination_reason", ReasonJson(e.termination)) && Has(t, "blocks", BlocksJson(e.blocks))
            && Has(t, "context_compactions", CompactionsJson(e.compactions)) && t.Obj?
            && if e.chain.Some? then Has(t, "messages_chain", ChainJson(e.chain.value)) && |t.keys| == 6
               else Lacks(t, "messages_chain") && |t.keys| == 5
  {
    hide BlocksJson, CompactionsJson, MessageJson, ReasonJson;
    var t := EnvelopeJson(e);
    assert NoRepeats(t.keys) && |t.keys| == |t.values|;
    KeysHave(t);
    hide NoRepeats, Has, Lacks;
    assert Has(t, t.keys[0], t.values[0]) && Has(t, t.keys[1], t.values[1]) && Has(t, t.keys[2], t.values[2]);
    assert Has(t, t.keys[3], t.values[3]) && Has(t, t.keys[4], t.values[4]);
    if e.chain.Some? {
      assert Has(t, t.keys[5], t.values[5]);
    }
  }

  /** The result of a run, with the chain message by message if it has one. */
  lemma ResultsAreStored(e: Envelope)
    requires e.chain.Some? ==> IsChain(e.chain.value)
    ensures IsStoredResult(EnvelopeJson(e), e)
    ensures e.chain.Some? ==> Has(EnvelopeJson(e), "messages_chain", ChainJson(e.chain.value))
  {
    ResultKeys(e);
    hide EnvelopeJson, IsStoredBlock, IsStoredCompaction, BlockJson, CompactionJson, MessageJson, LookupIn;
    forall i | 0 <= i < |e.blocks|
      ensures IsStoredBlock(BlockJson(e.blocks[i]), e.blocks[i])
    {
      BlocksAreStored(e.blocks[i]);
    }
    forall i | 0 <= i < |e.compactions|
      ensures IsStoredCompaction(CompactionJson(e.compactions[i]), e.compactions[i])
    {
      CompactionsAreStored(e.compactions[i]);
    }
  }
}
