/** Counting one model input: the bytes of its JSON with images taken out, and a reserve per message, tool and image. */
module TokenCounter {
  import opened Outcomes
  import opened JsonSafety
  import opened CanonicalText

  const MESSAGE_FRAME_RESERVE: nat := 16
  const TOOL_SCHEMA_FRAME_RESERVE: nat := 32

  /** The octets of `{"messages":[],"tools":[]}`. */
  const EMPTY_INPUT: nat := 26

  datatype ToolDefinition = ToolDefinition(name: string, description: string, inputSchema: Json)

  predicate IsImageType(kind: Option<Json>) {
    kind == Some(Str("image_url")) || kind == Some(Str("input_image")) || kind == Some(Str("image"))
  }

  // ----- Images --------------------------------------------------------------------------------------

  /** The value with every image block replaced by a short stand-in. */
  function Normalized(t: Json): Json {
    match t
    case Obj(keys, values) =>
      var kind := LookupIn(keys, values, "type");
      if IsImageType(kind) then Obj(["image", "type"], [Str("<reserved>"), kind.value])
      else Obj(keys, NormalizedAll(values))
    case Arr(items) => Arr(NormalizedAll(items))
    case _ => t
  }

  function NormalizedAll(ts: seq<Json>): seq<Json> {
    if ts == [] then [] else [Normalized(ts[0])] + NormalizedAll(ts[1..])
  }

  /** How many image blocks that takes out. */
  function Images(t: Json): nat {
    match t
    case Obj(keys, values) => if IsImageType(LookupIn(keys, values, "type")) then 1 else ImagesOfAll(values)
    case Arr(items) => ImagesOfAll(items)
    case _ => 0
  }

  function ImagesOfAll(ts: seq<Json>): nat {
    if ts == [] then 0 else Images(ts[0]) + ImagesOfAll(ts[1..])
  }

  lemma {:induction false} NormalizedJoin(a: seq<Json>, b: seq<Json>)
    ensures NormalizedAll(a + b) == NormalizedAll(a) + NormalizedAll(b)
    ensures ImagesOfAll(a + b) == ImagesOfAll(a) + ImagesOfAll(b)
  {
    if a == [] {
      assert a + b == b;
    } else {
      assert (a + b)[1..] == a[1..] + b;
      NormalizedJoin(a[1..], b);
    }
  }

  /** Image blocks of all three kinds are counted, and no byte of theirs stays. */
  lemma ImagesAre(keys: seq<string>, values: seq<Json>, i: nat)
    requires i < |keys| == |values| && keys[i] == "type" && "type" !in keys[..i]
    ensures var isImage := || values[i] == Str("image_url") || values[i] == Str("input_image")
                           || values[i] == Str("image");
            && (isImage ==> Images(Obj(keys, values)) == 1
                            && Normalized(Obj(keys, values))
                               == Obj(["image", "type"], [Str("<reserved>"), values[i]]))
            && (!isImage ==> Images(Obj(keys, values)) == ImagesOfAll(values)
                             && Normalized(Obj(keys, values)) == Obj(keys, NormalizedAll(values)))
  {
    hide NormalizedAll, ImagesOfAll;
    LookupFinds(keys, values, "type");
  }

  lemma {:induction false} NormalizedAt(ts: seq<Json>)
    ensures |NormalizedAll(ts)| == |ts|
    ensures forall i :: 0 <= i < |ts| ==> NormalizedAll(ts)[i] == Normalized(ts[i])
    ensures ImagesOfAll(ts) == 0 <==> forall i :: 0 <= i < |ts| ==> Images(ts[i]) == 0
  {
    hide Normalized, Images;
    if ts != [] {
      NormalizedAt(ts[1..]);
      forall i | 0 < i < |ts|
        ensures NormalizedAll(ts)[i] == Normalized(ts[i]) && (ImagesOfAll(ts) == 0 ==> Images(ts[i]) == 0)
      {
        assert ts[1..][i - 1] == ts[i] && NormalizedAll(ts)[i] == NormalizedAll(ts[1..])[i - 1];
      }
      if forall i :: 0 <= i < |ts| ==> Images(ts[i]) == 0 {
        assert forall i :: 0 <= i < |ts| - 1 ==> ts[1..][i] == ts[i + 1];
      }
    }
  }

  lemma AllKept(ts: seq<Json>)
    requires ImagesOfAll(ts) == 0 && forall i :: 0 <= i < |ts| && Images(ts[i]) == 0 ==> Normalized(ts[i]) == ts[i]
    ensures NormalizedAll(ts) == ts
  {
    hide Normalized, Images;
    NormalizedAt(ts);
    hide NormalizedAll, ImagesOfAll;
  }

  /** What has no image block in it is counted as it is. */
  lemma {:induction false} OthersAreKept(t: Json)
    requires Images(t) == 0
    ensures Normalized(t) == t
    decreases t
  {
    match t
    case Arr(items) =>
      forall i | 0 <= i < |items| && Images(items[i]) == 0
        ensures Normalized(items[i]) == items[i]
      {
        OthersAreKept(items[i]);
      }
      AllKept(items);
    case Obj(keys, values) =>
      forall i | 0 <= i < |values| && Images(values[i]) == 0
        ensures Normalized(values[i]) == values[i]
      {
        OthersAreKept(values[i]);
      }
      AllKept(values);
    case _ =>
  }

  /** `_normalize_images`, which recurses and accumulates in loops. */
  method NormalizeImages(t: Json) returns (normalized: Json, count: nat)
    ensures normalized == Normalized(t) && count == Images(t)
    decreases t, 1
  {
    match t
    case Obj(keys, values) =>
      var kind := LookupIn(keys, values, "type");
      if IsImageType(kind) {
        return Obj(["image", "type"], [Str("<reserved>"), kind.value]), 1;
      }
      var items;
      items, count := NormalizeAllImages(t, values);
      normalized := Obj(keys, items);
    case Arr(values) =>
      var items;
      items, count := NormalizeAllImages(t, values);
      normalized := Arr(items);
    case _ =>
      normalized, count := t, 0;
  }

  method NormalizeAllImages(ghost parent: Json, ts: seq<Json>) returns (items: seq<Json>, count: nat)
    requires forall i :: 0 <= i < |ts| ==> ts[i] < parent
    ensures items == NormalizedAll(ts) && count == ImagesOfAll(ts)
    decreases parent, 0
  {
    items, count := [], 0;
    for i := 0 to |ts|
      invariant items == NormalizedAll(ts[..i]) && count == ImagesOfAll(ts[..i])
    {
      var item, nested := NormalizeImages(ts[i]);
      items, count := items + [item], count + nested;
      assert ts[..i + 1] == ts[..i] + [ts[i]];
      NormalizedJoin(ts[..i], [ts[i]]);
    }
    assert ts[..|ts|] == ts;
  }

  // ----- Counting ------------------------------------------------------------------------------------

  function ToolPayload(d: ToolDefinition): Json {
    Obj(["function", "type"],
        [Obj(["description", "name", "parameters"], [Str(d.description), Str(d.name), d.inputSchema]), Str("function")])
  }

  function ToolPayloads(tools: seq<ToolDefinition>): seq<Json> {
    seq(|tools|, i requires 0 <= i < |tools| => ToolPayload(tools[i]))
  }

  function InputJson(messages: seq<Json>, tools: seq<ToolDefinition>): Json {
    Obj(["messages", "tools"], [Arr(NormalizedAll(messages)), Arr(NormalizedAll(ToolPayloads(tools)))])
  }

  function ImageReserve(messages: seq<Json>, imageReserve: nat): nat {
    ImagesOfAll(messages) * imageReserve
  }

  /** `count_model_input`; schemas that contain image blocks are refused. */
  function CountModelInput(messages: seq<Json>, tools: seq<ToolDefinition>, imageReserve: nat): Option<nat> {
    if ImagesOfAll(ToolPayloads(tools)) > 0 then None
    else
      Some(Size(InputJson(messages, tools)) + |messages| * MESSAGE_FRAME_RESERVE
           + |tools| * TOOL_SCHEMA_FRAME_RESERVE + ImageReserve(messages, imageReserve))
  }

  /** The share of the messages in the count. */
  function Weight(messages: seq<Json>, imageReserve: nat): nat {
    SizeOfAll(NormalizedAll(messages)) + Commas(|messages|) + |messages| * MESSAGE_FRAME_RESERVE
    + ImageReserve(messages, imageReserve)
  }

  /** The share of the tools, braces and keys included. */
  function Frame(tools: seq<ToolDefinition>): nat {
    EmptyInput() + SizeOfAll(NormalizedAll(ToolPayloads(tools))) + Commas(|tools|) + |tools| * TOOL_SCHEMA_FRAME_RESERVE
  }

  /** `{"messages":[],"tools":[]}`. */
  function EmptyInput(): nat {
    2 + SizeOfKeys(["messages", "tools"]) + 1 + 4
  }

  lemma SizeOfTwo(a: Json, b: Json)
    ensures SizeOfAll([a, b]) == Size(a) + Size(b)
  {
    hide Size;
    var rest := [b];
    assert [a, b][1..] == rest && rest[1..] == [];
    assert SizeOfAll(rest) == Size(b) + SizeOfAll([]);
  }

  lemma CountIs(messages: seq<Json>, tools: seq<ToolDefinition>, imageReserve: nat)
    requires ImagesOfAll(ToolPayloads(tools)) == 0
    ensures CountModelInput(messages, tools, imageReserve)
            == Some(Frame(tools) + Weight(messages, imageReserve))
  {
    hide SizeOfKeys, NormalizedAll, SizeOfAll, ImagesOfAll;
    NormalizedAt(messages);
    NormalizedAt(ToolPayloads(tools));
    SizeOfTwo(Arr(NormalizedAll(messages)), Arr(NormalizedAll(ToolPayloads(tools))));
  }

  lemma WeightsAdd(a: seq<Json>, b: seq<Json>, imageReserve: nat)
    ensures Weight(a + b, imageReserve)
            == Weight(a, imageReserve) + Weight(b, imageReserve) + if a != [] && b != [] then 1 else 0
  {
    hide NormalizedAll, SizeOfAll, ImagesOfAll;
    NormalizedJoin(a, b);
    SizesAdd(NormalizedAll(a), NormalizedAll(b));
    NothingWeighs();
    assert (ImagesOfAll(a) + ImagesOfAll(b)) * imageReserve
        == ImagesOfAll(a) * imageReserve + ImagesOfAll(b) * imageReserve;
    if a == [] {
      assert a + b == b;
    }
    if b == [] {
      assert a + b == a;
    }
  }

  lemma NothingWeighs()
    ensures NormalizedAll([]) == [] && SizeOfAll([]) == 0 && ImagesOfAll([]) == 0
  {
  }

  /** More messages, wherever they are inserted, never count less. */
  lemma InsertedMessagesCount(front: seq<Json>, inserted: seq<Json>, back: seq<Json>, tools: seq<ToolDefinition>,
                              imageReserve: nat)
    requires ImagesOfAll(ToolPayloads(tools)) == 0
    ensures CountModelInput(front + back, tools, imageReserve).value
            <= CountModelInput(front + inserted + back, tools, imageReserve).value
  {
    hide Weight, Frame, CountModelInput;
    CountIs(front + back, tools, imageReserve);
    CountIs(front + inserted + back, tools, imageReserve);
    WeightsAdd(front, back, imageReserve);
    WeightsAdd(front, inserted, imageReserve);
    WeightsAdd(front + inserted, back, imageReserve);
    if inserted == [] {
      assert front + inserted == front;
    }
  }

  /** Counting two lists of messages apart counts the empty input once more, and a comma less. */
  lemma CountIsSubadditive(a: seq<Json>, b: seq<Json>, tools: seq<ToolDefinition>, imageReserve: nat)
    requires ImagesOfAll(ToolPayloads(tools)) == 0
    ensures CountModelInput(b, [], imageReserve).Some?
    ensures CountModelInput(a + b, tools, imageReserve).value
            == CountModelInput(a, tools, imageReserve).value + CountModelInput(b, [], imageReserve).value
               - EMPTY_INPUT + if a != [] && b != [] then 1 else 0
    ensures CountModelInput(a + b, tools, imageReserve).value
            <= CountModelInput(a, tools, imageReserve).value + CountModelInput(b, [], imageReserve).value
  {
    hide Weight, Frame, CountModelInput;
    NoTools();
    CountIs(a + b, tools, imageReserve);
    CountIs(a, tools, imageReserve);
    CountIs(b, [], imageReserve);
    WeightsAdd(a, b, imageReserve);
  }

  lemma NoTools()
    ensures ToolPayloads([]) == [] && ImagesOfAll(ToolPayloads([])) == 0
    ensures Frame([]) == EmptyInput() == EMPTY_INPUT
  {
    hide EscapedBytes;
    PlainBytes("messages");
    PlainBytes("tools");
    assert ["messages", "tools"][1..] == ["tools"];
    assert SizeOfKeys(["tools"]) == 8;
  }
}
