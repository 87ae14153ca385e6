/** The persisted message chain: what writes it, and the validator that reads it back. */
module MessageChain {
  import opened Outcomes
  import opened Texts
  import opened Utf8
  import opened JsonSafety
  import opened CanonicalText
  import opened ChatBlocks

  const MAX_MESSAGES: nat := 256
  const MAX_TOOL_CALLS: nat := 128

  // ----- Raw messages --------------------------------------------------------------------------------

  /** One entry of a dictionary as `get` sees it, with a value of the wrong type told apart. */
  datatype Field<T> = Missing | NullValue | WrongType | Given(value: T)

  /** A JSON text: the canonical text of a tree, or any other string. */
  datatype ArgumentText = TextOf(tree: Json) | OtherText(text: string)

  datatype RawFunction = RawFunction(name: Field<string>, arguments: Field<ArgumentText>)

  datatype RawCall = NotACall | RawCall(id: Field<string>, isFunction: bool, target: Field<RawFunction>)

  datatype ModelInfo = ModelInfo(provider: Field<string>, model: Field<string>)

  datatype Role = AssistantRole | ToolRole | OtherRole

  /** A message as it was stored; `content` is `Null` where it is missing, and other keys are only named. */
  datatype Message =
    | NotADict
    | Message(role: Role, content: Json, toolCalls: Field<seq<RawCall>>, reasoning: Field<string>,
              modelInfo: Field<ModelInfo>, compacted: Field<bool>, summaryCompacted: Field<bool>, version: Field<int>,
              toolCallId: Field<string>, name: Field<string>, isError: Field<bool>, otherKeys: seq<string>)

  // ----- Normalizing one message ---------------------------------------------------------------------

  function Stringly(a: ArgumentText): string {
    match a
    case TextOf(tree) => Print(tree)
    case OtherText(s) => s
  }

  /** `_normalize_tool_call`, whose result is the call itself. */
  predicate IsGoodCall(c: RawCall) {
    && c.RawCall? && c.id.Given? && !IsBlank(c.id.value) && c.isFunction && c.target.Given?
    && c.target.value.name.Given? && !IsBlank(c.target.value.name.value)
    && c.target.value.arguments.Given?
    && var arguments := c.target.value.arguments.value;
       && IsShort(Stringly(arguments)) && |Encode(Stringly(arguments))| <= MAX_CANONICAL_BYTES
       && arguments.TextOf? && arguments.tree.Obj? && Safe(arguments.tree)
  }

  predicate AllGoodCalls(calls: seq<RawCall>) {
    forall i :: 0 <= i < |calls| ==> IsGoodCall(calls[i])
  }

  /** `_assistant_content_is_valid`. */
  predicate IsGoodContent(content: Json) {
    && (content.Null? || content.Str?
        || (content.Arr? && forall i :: 0 <= i < |content.items| ==> content.items[i].Obj?))
    && Safe(content)
  }

  predicate Fits<T>(f: Field<T>) {
    !f.WrongType?
  }

  /** What is left of a field when nulls are dropped. */
  function Kept<T>(f: Field<T>): Field<T> {
    if f.Given? then f else Missing
  }

  predicate IsGoodModelInfo(f: Field<ModelInfo>) {
    Fits(f) && (f.Given? ==> Fits(f.value.provider) && Fits(f.value.model))
  }

  /** Both keys are written, with nulls where there was no value. */
  function KeptModelInfo(f: Field<ModelInfo>): Field<ModelInfo> {
    if f.Given? then Given(ModelInfo(KeptOrNull(f.value.provider), KeptOrNull(f.value.model))) else Missing
  }

  function KeptOrNull(f: Field<string>): Field<string> {
    if f.Given? then f else NullValue
  }

  function NormalizedAssistant(m: Message): Option<Message>
    requires m.Message?
  {
    if !IsGoodContent(m.content) then None
    else if !Fits(m.toolCalls) || (m.toolCalls.Given? && !AllGoodCalls(m.toolCalls.value)) then None
    else if !Fits(m.reasoning) || !IsGoodModelInfo(m.modelInfo) then None
    else if !Fits(m.compacted) || !Fits(m.summaryCompacted) then None
    else if !Fits(m.version) || (m.version.Given? && m.version.value < 1) then None
    else
      Some(Message(AssistantRole, m.content,
                   if m.toolCalls.Given? && m.toolCalls.value != [] then m.toolCalls else Missing,
                   Kept(m.reasoning), KeptModelInfo(m.modelInfo), Kept(m.compacted), Kept(m.summaryCompacted),
                   m.version, Missing, Missing, Missing, []))
  }

  function NormalizedTool(m: Message): Option<Message>
    requires m.Message?
  {
    if !m.toolCallId.Given? || IsBlank(m.toolCallId.value) then None
    else if !m.name.Given? || IsBlank(m.name.value) then None
    else if !m.content.Str? || !Fits(m.isError) then None
    else
      Some(Message(ToolRole, m.content, Missing, Missing, Missing, Missing, Missing, Missing,
                   m.toolCallId, m.name, Kept(m.isError), []))
  }

  function Normalized(m: Message): Option<Message> {
    if !m.Message? then None
    else
      match m.role
      case AssistantRole => NormalizedAssistant(m)
      case ToolRole => NormalizedTool(m)
      case OtherRole => None
  }

  lemma NormalizingTwice(m: Message)
    requires Normalized(m).Some?
    ensures Normalized(Normalized(m).value) == Normalized(m)
  {
    hide IsGoodContent, AllGoodCalls, IsBlank;
  }

  // ----- The shape of a chain ------------------------------------------------------------------------

  /** The calls declared so far with their names, and those that have a result. */
  datatype Standing = Standing(declared: map<string, string>, resolved: set<string>) {
    function Unresolved(): set<string> {
      declared.Keys - resolved
    }
  }

  const NOTHING := Standing(map[], {})

  function CallId(c: RawCall): string {
    if c.RawCall? && c.id.Given? then c.id.value else ""
  }

  function CallName(c: RawCall): string {
    if c.RawCall? && c.target.Given? && c.target.value.name.Given? then c.target.value.name.value else ""
  }

  function Calls(m: Message): seq<RawCall> {
    if m.Message? && m.role == AssistantRole && m.toolCalls.Given? then m.toolCalls.value else []
  }

  /** Declaring calls one after another; declaring an id twice is an error. */
  function Declare(declared: map<string, string>, calls: seq<RawCall>): Option<map<string, string>> {
    if calls == [] then Some(declared)
    else
      var before :- Declare(declared, calls[..|calls| - 1]);
      var call := calls[|calls| - 1];
      if CallId(call) in before then None else Some(before[CallId(call) := CallName(call)])
  }

  function Extended(st: Standing, m: Message): Option<Standing> {
    if !m.Message? then None
    else
      match m.role
      case AssistantRole =>
        if st.Unresolved() != {} then None
        else
          var declared :- Declare(st.declared, Calls(m));
          Some(Standing(declared, st.resolved))
      case ToolRole =>
        if !m.toolCallId.Given? || !m.name.Given? then None
        else
          var id := m.toolCallId.value;
          if id !in st.declared || id in st.resolved || st.declared[id] != m.name.value then None
          else Some(st.(resolved := st.resolved + {id}))
      case OtherRole => None
  }

  /** Assistants wait for all results, every result answers a call of that name, and only once. */
  function Shape(messages: seq<Message>): Option<Standing> {
    if messages == [] then Some(NOTHING)
    else
      var before :- Shape(messages[..|messages| - 1]);
      Extended(before, messages[|messages| - 1])
  }

  // ----- The validator -------------------------------------------------------------------------------

  function AllNormalized(messages: seq<Message>): Option<seq<Message>> {
    if messages == [] then Some([])
    else
      var before :- AllNormalized(messages[..|messages| - 1]);
      var last :- Normalized(messages[|messages| - 1]);
      Some(before + [last])
  }

  /** The shape of a chain, as far as its messages are good and its calls not too many. */
  function Scanned(messages: seq<Message>): Option<Standing> {
    if messages == [] then Some(NOTHING)
    else
      var before :- Scanned(messages[..|messages| - 1]);
      var last :- Normalized(messages[|messages| - 1]);
      var st :- Extended(before, last);
      if |st.declared| > MAX_TOOL_CALLS then None else Some(st)
  }

  function FieldJson<T>(name: string, f: Field<T>, write: T -> Json): (seq<string>, seq<Json>) {
    match f
    case Given(value) => ([name], [write(value)])
    case NullValue => ([name], [Null])
    case _ => ([], [])
  }

  function CallJson(c: RawCall): Json {
    if !IsGoodCall(c) then Null
    else
      Obj(["function", "id", "type"],
          [Obj(["arguments", "name"], [Str(Stringly(c.target.value.arguments.value)), Str(CallName(c))]),
           Str(CallId(c)), Str("function")])
  }

  function CallsJson(calls: seq<RawCall>): Json {
    Arr(seq(|calls|, i requires 0 <= i < |calls| => CallJson(calls[i])))
  }

  function ModelInfoJson(info: ModelInfo): Json {
    var (names, values) := FieldJson("model", info.model, s => Str(s));
    var (names', values') := FieldJson("provider", info.provider, s => Str(s));
    Obj(names + names', values + values')
  }

  /** The dictionary that a normalized message is. */
  function MessageJson(m: Message): Json
    requires m.Message?
  {
    if m.role == ToolRole then
      var (e, eV) := FieldJson("is_error", m.isError, b => Bool(b));
      var (n, nV) := FieldJson("name", m.name, s => Str(s));
      var (i, iV) := FieldJson("tool_call_id", m.toolCallId, s => Str(s));
      Obj(["content"] + e + n + ["role"] + i, [m.content] + eV + nV + [Str("tool")] + iV)
    else
      var (c, cV) := FieldJson("compacted", m.compacted, b => Bool(b));
      var (v, vV) := FieldJson("compaction_version", m.version, k => Int(k));
      var (o, oV) := FieldJson("model_info", m.modelInfo, x => ModelInfoJson(x));
      var (r, rV) := FieldJson("reasoning_content", m.reasoning, s => Str(s));
      var (s, sV) := FieldJson("summary_compacted", m.summaryCompacted, b => Bool(b));
      var (t, tV) := FieldJson("tool_calls", m.toolCalls, x => CallsJson(x));
      Obj(c + v + ["content"] + o + r + ["role"] + s + t,
          cV + vV + [m.content] + oV + rV + [Str("assistant")] + sV + tV)
  }

  function ChainJson(messages: seq<Message>): Json
    requires forall i :: 0 <= i < |messages| ==> messages[i].Message?
  {
    Arr(seq(|messages|, i requires 0 <= i < |messages| => MessageJson(messages[i])))
  }

  lemma {:induction false} NormalizedShape(messages: seq<Message>)
    requires AllNormalized(messages).Some?
    ensures |AllNormalized(messages).value| == |messages|
    ensures forall i :: 0 <= i < |messages| ==> Normalized(messages[i]) == Some(AllNormalized(messages).value[i])
    ensures forall i :: 0 <= i < |messages| ==> AllNormalized(messages).value[i].Message?
  {
    hide Normalized;
    if messages != [] {
      NormalizedShape(messages[..|messages| - 1]);
      NormalizedIsMessage(messages[|messages| - 1]);
    }
  }

  lemma NormalizedIsMessage(m: Message)
    ensures Normalized(m).Some? ==> Normalized(m).value.Message?
  {
    hide IsGoodContent, AllGoodCalls, IsBlank;
  }

  /** `validate_messages_chain`. */
  function Validated(messages: seq<Message>): Option<seq<Message>> {
    if messages == [] || |messages| > MAX_MESSAGES then None
    else
      var st :- Scanned(messages);
      var chain :- AllNormalized(messages);
      NormalizedShape(messages);
      if st.Unresolved() != {} || !Safe(ChainJson(chain)) then None else Some(chain)
  }

  lemma {:induction false} PrefixScanned(messages: seq<Message>, n: nat)
    requires n <= |messages| && Scanned(messages).Some? && AllNormalized(messages).Some?
    ensures Scanned(messages[..n]).Some? && AllNormalized(messages[..n]).Some?
  {
    hide Normalized, Extended;
    if n < |messages| {
      var init := messages[..|messages| - 1];
      assert init[..n] == messages[..n];
      PrefixScanned(init, n);
    } else {
      assert messages[..n] == messages;
    }
  }

  lemma {:induction false} PrefixDeclared(declared: map<string, string>, calls: seq<RawCall>, n: nat)
    requires n <= |calls| && Declare(declared, calls).Some?
    ensures Declare(declared, calls[..n]).Some?
    ensures |declared| <= |Declare(declared, calls[..n]).value| <= |Declare(declared, calls).value|
  {
    if n < |calls| {
      var init := calls[..|calls| - 1];
      assert init[..n] == calls[..n];
      PrefixDeclared(declared, init, n);
    } else {
      assert calls[..n] == calls;
      if calls != [] {
        assert calls[..|calls| - 1][..|calls| - 1] == calls[..|calls| - 1];
        PrefixDeclared(declared, calls[..|calls| - 1], |calls| - 1);
      }
      if calls == [] {
        assert calls[..n] == [];
      }
    }
  }

  lemma DeclareNone(declared: map<string, string>)
    ensures Declare(declared, []) == Some(declared)
  {
  }

  lemma DeclareNext(declared: map<string, string>, calls: seq<RawCall>, i: nat, known: map<string, string>)
    requires i < |calls| && Declare(declared, calls[..i]) == Some(known) && declared.Keys <= known.Keys
    ensures Declare(declared, calls[..i + 1])
            == if CallId(calls[i]) in known then None else Some(known[CallId(calls[i]) := CallName(calls[i])])
    ensures CallId(calls[i]) in known ==> Declare(declared, calls).None?
    ensures CallId(calls[i]) !in known ==> |known[CallId(calls[i]) := CallName(calls[i])]| == |known| + 1
    ensures CallId(calls[i]) !in known && Declare(declared, calls).Some? ==>
              |Declare(declared, calls).value| > |known|
  {
    hide CallId, CallName;
    assert calls[..i + 1][..i] == calls[..i];
    if Declare(declared, calls).Some? {
      PrefixDeclared(declared, calls, i + 1);
    }
  }

  lemma ScanNone()
    ensures Scanned([]) == Some(NOTHING) && AllNormalized([]) == Some([])
  {
  }

  lemma ScanNext(messages: seq<Message>, i: nat, st: Standing, normalized: seq<Message>)
    requires i < |messages|
    requires Scanned(messages[..i]) == Some(st) && AllNormalized(messages[..i]) == Some(normalized)
    ensures var m := Normalized(messages[i]);
            var next := if m.None? then None else Extended(st, m.value);
            && (next.None? || |next.value.declared| > MAX_TOOL_CALLS ==> Validated(messages) == None)
            && (next.Some? && |next.value.declared| <= MAX_TOOL_CALLS ==>
                  && Scanned(messages[..i + 1]) == next
                  && AllNormalized(messages[..i + 1]) == Some(normalized + [m.value]))
  {
    hide Normalized, Extended, MessageJson, Safe;
    assert messages[..i + 1][..i] == messages[..i];
    if Scanned(messages).Some? && AllNormalized(messages).Some? {
      PrefixScanned(messages, i + 1);
    }
  }

  /** The inner loop of the validator: the calls of one normalized assistant message. */
  method DeclareCalls(declared: map<string, string>, unresolved: set<string>, calls: seq<RawCall>)
    returns (r: Option<map<string, string>>, unresolved': set<string>)
    requires unresolved == {} && |declared| <= MAX_TOOL_CALLS
    ensures r == if Declare(declared, calls).Some? && |Declare(declared, calls).value| > MAX_TOOL_CALLS then None
                 else Declare(declared, calls)
    ensures r.Some? ==> unresolved' == r.value.Keys - declared.Keys && declared.Keys <= r.value.Keys
  {
    hide Declare, CallId, CallName;
    DeclareNone(declared);
    assert calls[..0] == [];
    var known, count := declared, |declared|;
    unresolved' := unresolved;
    for i := 0 to |calls|
      invariant Declare(declared, calls[..i]) == Some(known)
      invariant count == |known| <= MAX_TOOL_CALLS
      invariant unresolved' == known.Keys - declared.Keys && declared.Keys <= known.Keys
    {
      DeclareNext(declared, calls, i, known);
      KeysGrow(declared, known, CallId(calls[i]), CallName(calls[i]));
      count := count + 1;
      if count > MAX_TOOL_CALLS {
        return None, unresolved';
      }
      var id := CallId(calls[i]);
      if id in known {
        return None, unresolved';
      }
      known := known[id := CallName(calls[i])];
      unresolved' := unresolved' + {id};
    }
    assert calls[..|calls|] == calls;
    r := Some(known);
  }

  lemma KeysGrow(declared: map<string, string>, known: map<string, string>, id: string, name: string)
    requires declared.Keys <= known.Keys
    ensures declared.Keys <= known[id := name].Keys
    ensures id !in known ==> known[id := name].Keys - declared.Keys == (known.Keys - declared.Keys) + {id}
  {
  }

  lemma ExtendedByAssistant(declared: map<string, string>, resolved: set<string>, m: Message)
    requires m.Message? && m.role == AssistantRole && resolved <= declared.Keys
    ensures Extended(Standing(declared, resolved), m)
            == if declared.Keys - resolved != {} || Declare(declared, Calls(m)).None? then None
               else Some(Standing(Declare(declared, Calls(m)).value, resolved))
    ensures declared.Keys - resolved == {} ==> resolved == declared.Keys
  {
    hide Declare, Calls;
    assert declared.Keys == resolved + (declared.Keys - resolved);
    assert declared.Keys - resolved == {} ==> resolved + (declared.Keys - resolved) == resolved;
  }

  lemma ExtendedByResult(declared: map<string, string>, resolved: set<string>, m: Message)
    requires m.Message? && m.role == ToolRole && m.toolCallId.Given? && m.name.Given?
    ensures var id := m.toolCallId.value;
            Extended(Standing(declared, resolved), m)
            == if id !in declared || id in resolved || declared[id] != m.name.value then None
               else Some(Standing(declared, resolved + {id}))
  {
  }

  lemma ValidatedIs(messages: seq<Message>)
    ensures messages == [] || |messages| > MAX_MESSAGES ==> Validated(messages) == None
    ensures Scanned(messages).Some? && AllNormalized(messages).Some? ==>
              && (forall i :: 0 <= i < |AllNormalized(messages).value| ==> AllNormalized(messages).value[i].Message?)
              && (messages != [] && |messages| <= MAX_MESSAGES ==>
                    Validated(messages)
                    == if Scanned(messages).value.Unresolved() != {} || !Safe(ChainJson(AllNormalized(messages).value))
                       then None else AllNormalized(messages))
  {
    hide Normalized, MessageJson, Safe, Scanned, AllNormalized;
    if AllNormalized(messages).Some? {
      NormalizedShape(messages);
    }
  }

  /** The validator's loop over the messages, with its three running collections. */
  method ValidateMessagesChain(messages: seq<Message>) returns (r: Option<seq<Message>>)
    ensures r == Validated(messages)
  {
    hide Normalized, MessageJson, Safe, Scanned, AllNormalized, Declare, Validated, Extended, Calls;
    ValidatedIs(messages);
    if messages == [] || |messages| > MAX_MESSAGES {
      return None;
    }
    ScanNone();
    assert messages[..0] == [];
    var normalized: seq<Message> := [];
    var declared: map<string, string> := map[];
    var unresolved: set<string> := {};
    var resolved: set<string> := {};
    for i := 0 to |messages|
      invariant AllNormalized(messages[..i]) == Some(normalized)
      invariant Scanned(messages[..i]) == Some(Standing(declared, resolved))
      invariant unresolved == declared.Keys - resolved && resolved <= declared.Keys
      invariant |declared| <= MAX_TOOL_CALLS
    {
      ScanNext(messages, i, Standing(declared, resolved), normalized);
      var message := Normalized(messages[i]);
      if message.None? {
        return None;
      }
      NormalizedIsMessage(messages[i]);
      NormalizedFields(messages[i]);
      var m := message.value;
      if m.role == AssistantRole {
        ExtendedByAssistant(declared, resolved, m);
        if unresolved != {} {
          return None;
        }
        var known;
        known, unresolved := DeclareCalls(declared, unresolved, Calls(m));
        if known.None? {
          return None;
        }
        declared := known.value;
      } else {
        ExtendedByResult(declared, resolved, m);
        var id := m.toolCallId.value;
        if id !in declared || id in resolved || declared[id] != m.name.value {
          return None;
        }
        resolved := resolved + {id};
        unresolved := unresolved - {id};
      }
      normalized := normalized + [m];
    }
    assert messages[..|messages|] == messages;
    if unresolved != {} || !Safe(ChainJson(normalized)) {
      return None;
    }
    r := Some(normalized);
  }

  lemma NormalizedFields(m: Message)
    requires Normalized(m).Some? && Normalized(m).value.Message?
    ensures Normalized(m).value.role == AssistantRole || Normalized(m).value.role == ToolRole
    ensures Normalized(m).value.role == ToolRole ==>
              Normalized(m).value.toolCallId.Given? && Normalized(m).value.name.Given?
  {
    hide IsGoodContent, AllGoodCalls, IsBlank;
  }

  // ----- Validating what was validated ---------------------------------------------------------------

  lemma {:induction false} ScannedTwice(messages: seq<Message>)
    requires AllNormalized(messages).Some? && Scanned(messages).Some?
    ensures AllNormalized(AllNormalized(messages).value) == AllNormalized(messages)
    ensures Scanned(AllNormalized(messages).value) == Scanned(messages)
  {
    hide Normalized, Extended;
    if messages != [] {
      var init, last := messages[..|messages| - 1], messages[|messages| - 1];
      ScannedTwice(init);
      NormalizingTwice(last);
      var chain := AllNormalized(messages).value;
      assert chain[..|chain| - 1] == AllNormalized(init).value;
      assert chain[|chain| - 1] == Normalized(last).value;
    }
  }

  /** A validated chain validates again, and comes back unchanged. */
  lemma ValidatingTwice(messages: seq<Message>)
    requires Validated(messages).Some?
    ensures Validated(Validated(messages).value) == Validated(messages)
  {
    hide Normalized, Extended, MessageJson, Safe;
    ScannedTwice(messages);
    NormalizedShape(messages);
    assert |AllNormalized(messages).value| == |messages|;
  }
}
