/** Persisted chat blocks: always canonical copies; where a copy cannot be made, the Python function raises. */
module ChatBlocks {
  import opened Outcomes
  import opened Texts
  import opened JsonSafety
  import opened BlockIds

  datatype ToolCall = ToolCall(id: string, name: string, arguments: Json)

  datatype ToolResult = ToolResult(callId: string, content: string, isError: bool, metadata: Json)

  datatype BlockStatus = Streaming | GeneratingArguments | Pending | Done | Error

  datatype ChatBlock =
    | TextBlock(id: string, content: string, status: BlockStatus, timestamp: string)
    | ToolBlock(id: string, toolUseId: string, toolName: string, toolInput: Json, toolOutput: Option<Json>,
                status: BlockStatus, timestamp: string)

  function StatusText(status: BlockStatus): string {
    match status
    case Streaming => "streaming"
    case GeneratingArguments => "generating_arguments"
    case Pending => "pending"
    case Done => "done"
    case Error => "error"
  }

  function BlockJson(b: ChatBlock): Json {
    match b
    case TextBlock(id, content, status, timestamp) =>
      Obj(["content", "id", "status", "timestamp", "type"],
          [Str(content), Str(id), Str(StatusText(status)), Str(timestamp), Str("text")])
    case ToolBlock(id, useId, name, input, None, status, timestamp) =>
      Obj(["id", "status", "timestamp", "tool_input", "tool_name", "tool_use_id", "type"],
          [Str(id), Str(StatusText(status)), Str(timestamp), input, Str(name), Str(useId), Str("tool")])
    case ToolBlock(id, useId, name, input, Some(output), status, timestamp) =>
      Obj(["id", "status", "timestamp", "tool_input", "tool_name", "tool_output", "tool_use_id", "type"],
          [Str(id), Str(StatusText(status)), Str(timestamp), input, Str(name), output, Str(useId), Str("tool")])
  }

  predicate IsTerminal(b: ChatBlock) {
    b.status == Done || (b.ToolBlock? && b.status == Error)
  }

  /** What `copy_chat_block` accepts: the copy is then the block itself. */
  predicate IsCanonical(b: ChatBlock) {
    && IsBlockId(b.id)
    && Safe(BlockJson(b))
    && match b
       case TextBlock(_, _, status, _) => status == Streaming || status == Done
       case ToolBlock(_, useId, name, input, output, status, _) =>
         && !IsBlank(useId) && !IsBlank(name) && input.Obj?
         && status != Streaming && (output.Some? <==> status == Done || status == Error)
  }

  function Copied(b: ChatBlock): Option<ChatBlock> {
    if IsCanonical(b) then Some(b) else None
  }

  function CreateTextBlock(id: string, timestamp: string): Option<ChatBlock> {
    Copied(TextBlock(id, "", Streaming, timestamp))
  }

  /** `append_text_block`; `status` is `None` when the status is to stay. */
  function AppendTextBlock(b: ChatBlock, content: string, status: Option<BlockStatus>): Option<ChatBlock> {
    if !b.TextBlock? || !IsCanonical(b) || b.status == Done then None
    else Copied(b.(content := b.content + content, status := if status.Some? then status.value else b.status))
  }

  function CreateToolBlock(call: ToolCall, id: string, timestamp: string): Option<ChatBlock> {
    Copied(ToolBlock(id, call.id, call.name, call.arguments, None, Pending, timestamp))
  }

  predicate MayFollow(before: BlockStatus, after: BlockStatus) {
    match before
    case GeneratingArguments => after == GeneratingArguments || after == Pending || after == Error
    case Pending => after == Pending || after == Done || after == Error
    case _ => false
  }

  /** `update_tool_block` with an output and a status. */
  function UpdateToolBlock(b: ChatBlock, output: Json, status: BlockStatus): Option<ChatBlock> {
    if !b.ToolBlock? || !IsCanonical(b) || !MayFollow(b.status, status) || !Safe(output) then None
    else Copied(b.(toolOutput := Some(output), status := status))
  }

  function ApplyToolResult(b: ChatBlock, r: ToolResult): Option<ChatBlock> {
    if !b.ToolBlock? || r.callId != b.toolUseId then None
    else UpdateToolBlock(b, Str(r.content), if r.isError then Error else Done)
  }

  /** `json.loads` of what `canonical_json` wrote for `{"code": "execution_interrupted"}`. */
  const INTERRUPTED := Obj(["code"], [Str("execution_interrupted")])

  /** One block of `_terminal_partial_blocks`. */
  function Closed(b: ChatBlock): Option<ChatBlock> {
    if b.TextBlock? && b.status != Done then AppendTextBlock(b, "", Some(Done))
    else if b.ToolBlock? && b.status != Done && b.status != Error then UpdateToolBlock(b, INTERRUPTED, Error)
    else Some(b)
  }

  function Finished(b: ChatBlock): ChatBlock
    requires b.TextBlock?
  {
    TextBlock(b.id, b.content, Done, b.timestamp)
  }

  /** Closing a text block only shortens its JSON, so it always succeeds. */
  lemma TextBlocksClose(b: ChatBlock)
    requires b.TextBlock? && IsCanonical(b)
    ensures Closed(b) == Some(Finished(b))
  {
    hide Safe, BlockJson;
    assert b.content + "" == b.content;
    if b.status == Streaming {
      FinishedIsSafe(b);
    }
  }

  lemma FinishedIsSafe(b: ChatBlock)
    requires b.TextBlock? && b.status == Streaming && Safe(BlockJson(b))
    ensures Safe(BlockJson(Finished(b)))
  {
    hide Safe, NoLarger, NoneLarger;
    var t := BlockJson(b);
    assert BlockJson(Finished(b)) == Obj(t.keys, t.values[2 := Str("done")]);
    DoneIsShorter();
    ReplaceOne(t.values, 2, Str("done"));
    ObjNoLarger(t.keys, t.values[2 := Str("done")], t.values);
    SafeIfNoLarger(BlockJson(Finished(b)), t);
  }

  lemma DoneIsShorter()
    ensures NoLarger(Str("done"), Str("streaming"))
  {
    hide EscapedBytes;
    PlainBytes("done");
    PlainBytes("streaming");
  }

  // ----- Room for more text --------------------------------------------------------------------------

  predicate HasRoomFor(b: ChatBlock, content: string)
    requires b.TextBlock?
  {
    IsShort(b.content + content) && Size(BlockJson(b)) + EscapedBytes(content) <= MAX_CANONICAL_BYTES
  }

  /** Appending to an open text block fails exactly where the text does not fit into the limits any more. */
  lemma AppendingNeedsRoom(b: ChatBlock, content: string)
    requires b.TextBlock? && IsCanonical(b) && b.status == Streaming
    ensures AppendTextBlock(b, content, None)
            == if HasRoomFor(b, content) then Some(b.(content := b.content + content)) else None
  {
    hide Safe, BlockJson, HasRoomFor;
    LongerIsSafe(b, content);
  }

  lemma LongerIsSafe(b: ChatBlock, content: string)
    requires b.TextBlock? && Safe(BlockJson(b))
    ensures Safe(BlockJson(b.(content := b.content + content))) <==> HasRoomFor(b, content)
  {
    hide Nodes, Height, LeavesAreFine, AllLeavesAreFine, SizeOfKeys, SizeOfAll, EscapedBytes, IsShort;
    var (t, longer) := (BlockJson(b), b.content + content);
    var u := BlockJson(b.(content := longer));
    assert u == Obj(t.keys, t.values[0 := Str(longer)]);
    OfObjects(t.keys, t.values);
    OfObjects(u.keys, u.values);
    MemberLeaves(t.values, 0);
    MemberLeaves(u.values, 0);
    EscapedBytesAdd(b.content, content);
    if IsShort(longer) {
      OtherString(t.keys, t.values, 0, longer);
    }
  }

  // ----- Room for the note ---------------------------------------------------------------------------

  /** What the note adds to the text of a block, less what the shorter status saves. */
  function NoteBytes(status: BlockStatus): nat {
    if status == GeneratingArguments then 32 else 45
  }

  /** One key and three values more, and the octets of both. */
  predicate HasRoomForNote(b: ChatBlock) {
    Nodes(BlockJson(b)) + 4 <= MAX_NODE_COUNT && Size(BlockJson(b)) + NoteBytes(b.status) <= MAX_CANONICAL_BYTES
  }

  predicate IsUnfinishedTool(b: ChatBlock) {
    b.ToolBlock? && !IsTerminal(b)
  }

  /** The block with the note that it was interrupted. */
  function Noted(b: ChatBlock): ChatBlock
    requires b.ToolBlock?
  {
    b.(toolOutput := Some(INTERRUPTED), status := Error)
  }

  lemma NoteIs()
    ensures Nodes(INTERRUPTED) == 3 && Size(INTERRUPTED) == 32 && Height(INTERRUPTED) == 1
    ensures LeavesAreFine(INTERRUPTED) && Safe(INTERRUPTED)
  {
    hide EscapedBytes, NodesOfAll, SizeOfAll, HeightOfAll, AllLeavesAreFine, SizeOfKeys;
    PlainBytes("code");
    PlainBytes("execution_interrupted");
    OneKey("code");
    OfOne(Str("execution_interrupted"));
    OfObjects(["code"], [Str("execution_interrupted")]);
  }

  lemma OneKey(key: string)
    ensures SizeOfKeys([key]) == StringBytes(key) + 1
  {
    hide StringBytes;
    assert [key][1..] == [];
  }

  lemma StatusBytes()
    ensures Size(Str("error")) == 7 && Size(Str("pending")) == 9 && Size(Str("generating_arguments")) == 22
    ensures Size(Str("tool")) == 6
  {
    hide EscapedBytes;
    PlainBytes("error");
    PlainBytes("pending");
    PlainBytes("generating_arguments");
    PlainBytes("tool");
  }

  /** What the note changes: the status by the way, and one member more. */
  lemma NotedCounts(b: ChatBlock)
    requires IsUnfinishedTool(b) && IsCanonical(b)
    ensures Nodes(BlockJson(Noted(b))) == Nodes(BlockJson(b)) + 4
    ensures Size(BlockJson(Noted(b))) == Size(BlockJson(b)) + NoteBytes(b.status)
    ensures Height(BlockJson(Noted(b))) == Height(BlockJson(b))
    ensures LeavesAreFine(BlockJson(Noted(b)))
  {
    hide IsBlank, IsBlockId, NodesOfAll, SizeOfAll, HeightOfAll, AllLeavesAreFine, SizeOfKeys, EscapedBytes;
    var t := BlockJson(b);
    assert Height(t.values[3]) >= 1;
    MemberHeight(t.values, 3);
    assert Height(t) >= 2 && LeavesAreFine(t);
    hide Safe, Nodes, Size, LeavesAreFine, Height, INTERRUPTED;
    StatusBytes();
    NoteIs();
    OtherString(t.keys, t.values, 1, "error");
    var values := t.values[1 := Str("error")];
    OneMoreMember(t.keys, values, 5, "tool_output", INTERRUPTED);
    NotedJson(b);
    PlainBytes("tool_output");
  }

  lemma NotedJson(b: ChatBlock)
    requires IsUnfinishedTool(b) && b.toolOutput.None?
    ensures var t := BlockJson(b);
            var values := t.values[1 := Str("error")];
            BlockJson(Noted(b)) == Obj(t.keys[..5] + ["tool_output"] + t.keys[5..],
                                       values[..5] + [INTERRUPTED] + values[5..])
  {
    hide INTERRUPTED;
  }

  lemma NotedIsSafe(b: ChatBlock)
    requires IsUnfinishedTool(b) && IsCanonical(b)
    ensures Safe(BlockJson(Noted(b))) <==> HasRoomForNote(b)
  {
    hide Nodes, Size, LeavesAreFine, Height, BlockJson, IsBlank, IsBlockId, INTERRUPTED, Noted;
    NotedCounts(b);
  }

  /** Closing an unfinished tool block fails exactly where the note does not fit into the limits any more. */
  lemma ClosingNeedsRoom(b: ChatBlock)
    requires IsUnfinishedTool(b) && IsCanonical(b)
    ensures Closed(b) == if HasRoomForNote(b) then Some(Noted(b)) else None
  {
    hide Safe, HasRoomForNote, BlockJson, IsBlank, IsBlockId, INTERRUPTED;
    NoteIs();
    NotedIsSafe(b);
  }
}
