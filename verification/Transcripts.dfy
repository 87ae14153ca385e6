/**
 What a provider finds in the rendered messages: reading them back gives the prompts, and of every turn its text, its
 contexts and the answers, in order. A context is read by the byte counts in its first line, so nothing in it can be
 taken for its end. Tools and rounds of calls are read key by key.
 */
module Transcripts {
  import opened Outcomes
  import opened Utf8
  import opened Decimal
  import opened JsonSafety
  import opened CanonicalText
  import opened JsonReader
  import opened ChatBlocks
  import opened TokenCounter
  import opened ContextSelection
  import opened ToolBudget

  // ----- Reading messages ----------------------------------------------------------------------------

  datatype Exchange = Exchange(question: Json, answers: seq<Json>)

  /** The contents of the system messages, and of each user message with the assistant messages after it. */
  datatype Transcript = Transcript(prompts: seq<Json>, exchanges: seq<Exchange>)

  /** One more message: prompts come before every question, and answers after one. */
  function Heard(t: Transcript, role: Option<Json>, content: Option<Json>): Option<Transcript> {
    var n := |t.exchanges|;
    match (role, content)
    case (Some(Str(name)), Some(c)) =>
      if name == "system" && n == 0 then Some(Transcript(t.prompts + [c], []))
      else if name == "user" then Some(Transcript(t.prompts, t.exchanges + [Exchange(c, [])]))
      else if name == "assistant" && n > 0 then
        var last := t.exchanges[n - 1];
        Some(Transcript(t.prompts, t.exchanges[n - 1 := Exchange(last.question, last.answers + [c])]))
      else None
    case _ => None
  }

  function ReadFrom(t: Transcript, messages: seq<Json>): Option<Transcript>
    decreases |messages|
  {
    if messages == [] then Some(t)
    else if !messages[0].Obj? then None
    else
      var next :- Heard(t, Lookup(messages[0], "role"), Lookup(messages[0], "content"));
      ReadFrom(next, messages[1..])
  }

  function ReadMessages(messages: seq<Json>): Option<Transcript> {
    ReadFrom(Transcript([], []), messages)
  }

  // ----- Reading a context ---------------------------------------------------------------------------

  function After(s: string, lead: string): Option<string> {
    if lead <= s then Some(s[|lead|..]) else None
  }

  /** A decimal number and what follows it. */
  function ReadCount(s: string): Option<(nat, string)> {
    var n := DigitPrefix(s);
    if n > 0 && IsNumeral(s[..n]) then Some((Number(s[..n]), s[n..])) else None
  }

  /** The characters that the next `n` octets encode, and what follows them. */
  function TakeOctets(s: string, n: nat): Option<(string, string)>
    decreases |s|
  {
    if n == 0 then Some(("", s))
    else if s == "" || |EncodeChar(s[0])| > n then None
    else
      var (taken, rest) :- TakeOctets(s[1..], n - |EncodeChar(s[0])|);
      Some(([s[0]] + taken, rest))
  }

  /** The first line of a context: the octets of the metadata, those of the content, and what follows. */
  function ReadHead(s: string): Option<(nat, nat, string)> {
    var counts :- After(s, "[UNTRUSTED_CONTEXT metadata_utf8_bytes=");
    var (metadataBytes, more) :- ReadCount(counts);
    var count :- After(more, " content_utf8_bytes=");
    var (contentBytes, head) :- ReadCount(count);
    var body :- After(head, "]\n");
    Some((metadataBytes, contentBytes, body))
  }

  function ReadBody(body: string, metadataBytes: nat, contentBytes: nat): Option<(string, string)> {
    var (metadata, tail) :- TakeOctets(body, metadataBytes);
    var rest :- After(tail, "\n");
    var (content, end) :- TakeOctets(rest, contentBytes);
    if end == "\n[END_UNTRUSTED_CONTEXT]" then Some((metadata, content)) else None
  }

  /** The metadata and the content of a context. */
  function ReadContext(s: string): Option<(Json, string)> {
    var (metadataBytes, contentBytes, body) :- ReadHead(s);
    var (metadata, content) :- ReadBody(body, metadataBytes, contentBytes);
    var values :- ReadText(metadata);
    Some((values, content))
  }

  lemma AfterLead(lead: string, rest: string)
    ensures After(lead + rest, lead) == Some(rest)
  {
  }

  lemma {:induction false} DigitsLead(numeral: string, rest: string)
    requires forall i :: 0 <= i < |numeral| ==> IsDigit(numeral[i])
    requires rest == "" || !IsDigit(rest[0])
    ensures DigitPrefix(numeral + rest) == |numeral|
  {
    if numeral == "" {
      assert numeral + rest == rest;
    } else {
      assert (numeral + rest)[1..] == numeral[1..] + rest;
      DigitsLead(numeral[1..], rest);
    }
  }

  lemma CountReadsBack(n: nat, rest: string)
    requires rest == "" || !IsDigit(rest[0])
    ensures ReadCount(Numeral(n) + rest) == Some((n, rest))
  {
    NumberOfNumeral(n);
    DigitsLead(Numeral(n), rest);
    hide DigitPrefix, Numeral, Number;
    var s := Numeral(n) + rest;
    assert s[..|Numeral(n)|] == Numeral(n) && s[|Numeral(n)|..] == rest;
  }

  lemma {:induction false} OctetsReadBack(text: string, rest: string)
    ensures TakeOctets(text + rest, |Encode(text)|) == Some((text, rest))
  {
    hide EncodeChar;
    if text == "" {
      assert text + rest == rest;
    } else {
      OctetsReadBack(text[1..], rest);
      assert (text + rest)[1..] == text[1..] + rest;
      assert text == [text[0]] + text[1..];
    }
  }

  /** Source and name, as the metadata line of a context says them. */
  function Metadata(source: string, name: string): Json {
    Obj(["name", "source"], [Str(name), Str(source)])
  }

  lemma MetadataReadsBack(source: string, name: string)
    ensures ReadText(Print(Metadata(source, name))) == Some(Metadata(source, name))
  {
    hide ReadText, Print;
    assert [Str(name), Str(source)][1..] == [Str(source)] && [Str(source)][1..] == [];
    assert AllLegible([]) && AllLegible([Str(source)]) && AllLegible([Str(name), Str(source)]);
    TextReadsBack(Metadata(source, name));
  }

  /** A context is read back whole, whatever its name and its content contain. */
  lemma ContextReadsBack(isAttachment: bool, name: string, text: string)
    ensures ReadContext(ContextText(isAttachment, name, text))
            == Some((Metadata(if isAttachment then "chat attachment" else "knowledge retrieval", name), text))
  {
    hide Print, ReadText, Encode, Numeral, ReadHead, ReadBody, Head, ContextText;
    var source := if isAttachment then "chat attachment" else "knowledge retrieval";
    var metadata := Print(Metadata(source, name));
    MetadataReadsBack(source, name);
    var body := metadata + ("\n" + (text + "\n[END_UNTRUSTED_CONTEXT]"));
    HeadReadsBack(|Encode(metadata)|, |Encode(text)|, body);
    BodyReadsBack(metadata, text);
    ContextIsHead(isAttachment, name, text);
  }

  lemma ContextIsHead(isAttachment: bool, name: string, text: string)
    ensures var metadata := Print(Metadata(if isAttachment then "chat attachment" else "knowledge retrieval", name));
            ContextText(isAttachment, name, text)
            == Head(|Encode(metadata)|, |Encode(text)|, metadata + ("\n" + (text + "\n[END_UNTRUSTED_CONTEXT]")))
  {
    hide Print, Encode, Numeral;
    var metadata := Print(Metadata(if isAttachment then "chat attachment" else "knowledge retrieval", name));
    NineParts("[UNTRUSTED_CONTEXT metadata_utf8_bytes=", Numeral(|Encode(metadata)|), " content_utf8_bytes=",
              Numeral(|Encode(text)|), "]\n", metadata, "\n", text, "\n[END_UNTRUSTED_CONTEXT]");
  }

  lemma NineParts(a: string, b: string, c: string, d: string, e: string, f: string, g: string, h: string, i: string)
    ensures a + b + c + d + e + f + g + h + i == a + (b + (c + (d + (e + (f + (g + (h + i)))))))
  {
    assert a + b + c + d + e + f + g + h + i == a + b + c + d + (e + (f + (g + (h + i))));
    assert a + b + c + d + (e + (f + (g + (h + i)))) == a + (b + (c + (d + (e + (f + (g + (h + i)))))));
  }

  function Head(metadataBytes: nat, contentBytes: nat, body: string): string {
    "[UNTRUSTED_CONTEXT metadata_utf8_bytes="
    + (Numeral(metadataBytes) + (" content_utf8_bytes=" + (Numeral(contentBytes) + ("]\n" + body))))
  }

  lemma HeadReadsBack(metadataBytes: nat, contentBytes: nat, body: string)
    ensures ReadHead(Head(metadataBytes, contentBytes, body)) == Some((metadataBytes, contentBytes, body))
  {
    hide Numeral, ReadCount, After;
    var head := "]\n" + body;
    var count := Numeral(contentBytes) + head;
    var more := " content_utf8_bytes=" + count;
    AfterLead("[UNTRUSTED_CONTEXT metadata_utf8_bytes=", Numeral(metadataBytes) + more);
    CountReadsBack(metadataBytes, more);
    AfterLead(" content_utf8_bytes=", count);
    CountReadsBack(contentBytes, head);
    AfterLead("]\n", body);
  }

  lemma BodyReadsBack(metadata: string, text: string)
    ensures ReadBody(metadata + ("\n" + (text + "\n[END_UNTRUSTED_CONTEXT]")), |Encode(metadata)|, |Encode(text)|)
            == Some((metadata, text))
  {
    hide Encode, TakeOctets, After;
    var end := "\n[END_UNTRUSTED_CONTEXT]";
    OctetsReadBack(metadata, "\n" + (text + end));
    AfterLead("\n", text + end);
    OctetsReadBack(text, end);
  }

  // ----- What a turn shows ---------------------------------------------------------------------------

  predicate IsText(part: Json, text: string) {
    part.Obj? && Lookup(part, "type") == Some(Str("text")) && Lookup(part, "text") == Some(Str(text))
  }

  /** A text context with its source, its name and its content, or an image as a data URL. */
  predicate Shows(part: Json, c: UserContext) {
    && part.Obj?
    && match c
       case TextContext(isAttachment, name, text) =>
         && Lookup(part, "type") == Some(Str("text"))
         && Lookup(part, "text").Some? && Lookup(part, "text").value.Str?
         && ReadContext(Lookup(part, "text").value.text)
            == Some((Metadata(if isAttachment then "chat attachment" else "knowledge retrieval", name), text))
       case ImageContext(mimeType, base64) =>
         && Lookup(part, "type") == Some(Str("image_url"))
         && Lookup(part, "image_url").Some? && Lookup(part, "image_url").value.Obj?
         && Lookup(Lookup(part, "image_url").value, "url") == Some(Str("data:" + mimeType + ";base64," + base64))
       case SelectedDocuments => false
  }

  /** The contexts that are shown: all but the selected documents, in order. */
  function Shown(contexts: seq<UserContext>): seq<UserContext> {
    if contexts == [] then []
    else (if contexts[0].SelectedDocuments? then [] else [contexts[0]]) + Shown(contexts[1..])
  }

  /** The bare text, or the text and then one part for each context that is shown. */
  predicate IsQuestion(content: Json, t: Turn) {
    var shown := Shown(t.contexts);
    if shown == [] then content == Str(t.text)
    else
      && content.Arr? && |content.items| == 1 + |shown| && IsText(content.items[0], t.text)
      && forall i :: 0 <= i < |shown| ==> Shows(content.items[i + 1], shown[i])
  }

  predicate IsExchange(e: Exchange, t: Turn) {
    && IsQuestion(e.question, t) && |e.answers| == |t.assistants|
    && forall i :: 0 <= i < |e.answers| ==> e.answers[i] == Str(t.assistants[i])
  }

  predicate AreExchanges(es: seq<Exchange>, turns: seq<Turn>) {
    |es| == |turns| && forall k :: 0 <= k < |es| ==> IsExchange(es[k], turns[k])
  }

  /** The platform's prompt, the Agent's where there is one, and `AGENTS.md` where there is one. */
  predicate ArePrompts(prompts: seq<Json>, s: Setup) {
    var hasAgent, hasFile := s.agentPrompt != "", s.agentsMd.Some? && s.agentsMd.value != "";
    && |prompts| == 1 + (if hasAgent then 1 else 0) + (if hasFile then 1 else 0)
    && prompts[0] == Str(s.platformPrompt)
    && (hasAgent ==> prompts[1] == Str(s.agentPrompt))
    && (hasFile ==> prompts[|prompts| - 1] == Str(s.agentsMd.value))
  }

  // ----- What is rendered is read back ---------------------------------------------------------------

  lemma ReadRole(t: Transcript, role: string, content: Json, rest: seq<Json>)
    ensures ReadFrom(t, [RoleMessage(role, content)] + rest)
            == match Heard(t, Some(Str(role)), Some(content))
               case None => None
               case Some(next) => ReadFrom(next, rest)
  {
    hide Heard;
    var messages := [RoleMessage(role, content)] + rest;
    assert messages[1..] == rest;
    assert Lookup(messages[0], "role") == Some(Str(role)) && Lookup(messages[0], "content") == Some(content) by {
      LookupFinds(["content", "role"], [content, Str(role)], "role");
      LookupFinds(["content", "role"], [content, Str(role)], "content");
    }
  }

  lemma TextPartShows(text: string)
    ensures IsText(TextPart(text), text)
  {
    LookupFinds(["text", "type"], [Str(text), Str("text")], "text");
    LookupFinds(["text", "type"], [Str(text), Str("text")], "type");
  }

  lemma ImagePartShows(mimeType: string, base64: string)
    ensures var url := "data:" + mimeType + ";base64," + base64;
            Shows(Obj(["image_url", "type"], [Obj(["url"], [Str(url)]), Str("image_url")]),
                  ImageContext(mimeType, base64))
  {
    var url := "data:" + mimeType + ";base64," + base64;
    LookupFinds(["url"], [Str(url)], "url");
    LookupFinds(["image_url", "type"], [Obj(["url"], [Str(url)]), Str("image_url")], "image_url");
    LookupFinds(["image_url", "type"], [Obj(["url"], [Str(url)]), Str("image_url")], "type");
  }

  lemma PartShows(c: UserContext, rest: seq<UserContext>)
    ensures ContextParts([c] + rest)
            == ContextParts([c])[..if c.SelectedDocuments? then 0 else 1] + ContextParts(rest)
    ensures c.SelectedDocuments? ==> ContextParts([c]) == []
    ensures !c.SelectedDocuments? ==> |ContextParts([c])| == 1 && Shows(ContextParts([c])[0], c)
  {
    hide ContextText, TextPart, Shows, ReadContext;
    assert ([c] + rest)[1..] == rest && [c][1..] == [];
    assert ContextParts([]) == [];
    match c
    case TextContext(isAttachment, name, text) =>
      ContextReadsBack(isAttachment, name, text);
      TextPartShows(ContextText(isAttachment, name, text));
      TextIsShown(TextPart(ContextText(isAttachment, name, text)), c);
    case ImageContext(mimeType, base64) => ImagePartShows(mimeType, base64);
    case SelectedDocuments =>
  }

  lemma TextIsShown(part: Json, c: UserContext)
    requires c.TextContext? && IsText(part, ContextText(c.isAttachment, c.name, c.text))
    ensures Shows(part, c)
  {
    hide ContextText, ReadContext, Lookup;
    ContextReadsBack(c.isAttachment, c.name, c.text);
  }

  lemma {:induction false} PartsShow(contexts: seq<UserContext>)
    ensures |ContextParts(contexts)| == |Shown(contexts)|
    ensures forall i :: 0 <= i < |Shown(contexts)| ==> Shows(ContextParts(contexts)[i], Shown(contexts)[i])
    ensures Shown(contexts) == [] <==> forall i :: 0 <= i < |contexts| ==> contexts[i].SelectedDocuments?
  {
    hide Shows;
    if contexts != [] {
      PartsShow(contexts[1..]);
      hide ContextParts;
      PartShows(contexts[0], contexts[1..]);
      assert contexts == [contexts[0]] + contexts[1..];
    }
  }

  lemma QuestionReadsBack(t: Turn)
    ensures IsQuestion(UserContent(t), t)
  {
    hide ContextParts, Shown, Shows, IsText, TextPart;
    PartsShow(t.contexts);
    TextPartShows(t.text);
  }

  function Strings(texts: seq<string>): seq<Json> {
    seq(|texts|, i requires 0 <= i < |texts| => Str(texts[i]))
  }

  /** With these answers added to the last question. */
  function Answered(t: Transcript, answers: seq<Json>): Transcript
    requires t.exchanges != []
  {
    var n := |t.exchanges| - 1;
    Transcript(t.prompts, t.exchanges[n := Exchange(t.exchanges[n].question, t.exchanges[n].answers + answers)])
  }

  lemma NothingAnswered(t: Transcript)
    requires t.exchanges != []
    ensures Answered(t, []) == t
  {
    var n := |t.exchanges| - 1;
    assert t.exchanges[n].answers + [] == t.exchanges[n].answers;
    assert t.exchanges[n := t.exchanges[n]] == t.exchanges;
  }

  lemma AnsweredTwice(t: Transcript, a: seq<Json>, b: seq<Json>)
    requires t.exchanges != []
    ensures Answered(Answered(t, a), b) == Answered(t, a + b)
  {
    var n := |t.exchanges| - 1;
    assert t.exchanges[n].answers + a + b == t.exchanges[n].answers + (a + b);
    assert Answered(Answered(t, a), b).exchanges == Answered(t, a + b).exchanges;
  }

  lemma {:induction false} AnswersAreRead(t: Transcript, texts: seq<string>, rest: seq<Json>)
    requires t.exchanges != []
    ensures ReadFrom(t, AssistantMessages(texts) + rest) == ReadFrom(Answered(t, Strings(texts)), rest)
    decreases |texts|
  {
    hide RoleMessage, ReadFrom;
    if texts == [] {
      assert AssistantMessages(texts) + rest == rest && Strings(texts) == [];
      NothingAnswered(t);
    } else {
      var tail := AssistantMessages(texts[1..]) + rest;
      assert AssistantMessages(texts) + rest == [RoleMessage("assistant", Str(texts[0]))] + tail;
      ReadRole(t, "assistant", Str(texts[0]), tail);
      AnswersAreRead(Answered(t, [Str(texts[0])]), texts[1..], rest);
      assert [Str(texts[0])] + Strings(texts[1..]) == Strings(texts);
      AnsweredTwice(t, [Str(texts[0])], Strings(texts[1..]));
    }
  }

  lemma TurnIsRead(t: Transcript, turn: Turn, rest: seq<Json>)
    ensures var e := Exchange(UserContent(turn), Strings(turn.assistants));
            ReadFrom(t, TurnMessages(turn) + rest) == ReadFrom(Transcript(t.prompts, t.exchanges + [e]), rest)
  {
    hide RoleMessage, ReadFrom, AssistantMessages, UserContent;
    var asked := Transcript(t.prompts, t.exchanges + [Exchange(UserContent(turn), [])]);
    assert TurnMessages(turn) + rest
        == [RoleMessage("user", UserContent(turn))] + (AssistantMessages(turn.assistants) + rest);
    ReadRole(t, "user", UserContent(turn), AssistantMessages(turn.assistants) + rest);
    AnswersAreRead(asked, turn.assistants, rest);
    assert [] + Strings(turn.assistants) == Strings(turn.assistants);
    assert Answered(asked, Strings(turn.assistants)).exchanges
        == t.exchanges + [Exchange(UserContent(turn), Strings(turn.assistants))];
  }

  lemma TurnIsExchange(turn: Turn)
    ensures IsExchange(Exchange(UserContent(turn), Strings(turn.assistants)), turn)
  {
    hide UserContent, IsQuestion;
    QuestionReadsBack(turn);
  }

  lemma {:induction false} TurnsAreRead(t: Transcript, turns: seq<Turn>)
    ensures var r := ReadFrom(t, AllTurnMessages(turns));
            && r.Some? && r.value.prompts == t.prompts && t.exchanges <= r.value.exchanges
            && AreExchanges(r.value.exchanges[|t.exchanges|..], turns)
    decreases |turns|
  {
    hide IsExchange, TurnMessages;
    if turns != [] {
      var turn := turns[0];
      var e := Exchange(UserContent(turn), Strings(turn.assistants));
      var next := Transcript(t.prompts, t.exchanges + [e]);
      TurnsAreRead(next, turns[1..]);
      TurnIsExchange(turn);
      TurnIsRead(t, turn, AllTurnMessages(turns[1..]));
      hide ReadFrom, UserContent;
      var es := ReadFrom(t, AllTurnMessages(turns)).value.exchanges;
      assert es[|t.exchanges|..][0] == e;
      assert es[|t.exchanges|..][1..] == es[|next.exchanges|..];
      forall k | 0 <= k < |turns|
        ensures IsExchange(es[|t.exchanges|..][k], turns[k])
      {
        if k > 0 {
          assert es[|t.exchanges|..][1..][k - 1] == es[|t.exchanges|..][k];
        }
      }
    }
  }

  /** The rendered messages read back as the prompts in their order and one exchange for every turn. */
  lemma MessagesReadBack(s: Setup, turns: seq<Turn>)
    ensures ReadMessages(Rendered(s, turns)).Some?
    ensures var t := ReadMessages(Rendered(s, turns)).value;
            ArePrompts(t.prompts, s) && AreExchanges(t.exchanges, turns)
  {
    hide RoleMessage, ReadFrom, AllTurnMessages, AreExchanges;
    var rest := AllTurnMessages(turns);
    var hasAgent, hasFile := s.agentPrompt != "", s.agentsMd.Some? && s.agentsMd.value != "";
    var agent := if hasAgent then [RoleMessage("system", Str(s.agentPrompt))] else [];
    var file := if hasFile then [RoleMessage("system", Str(s.agentsMd.value))] else [];
    assert Rendered(s, turns) == [RoleMessage("system", Str(s.platformPrompt))] + (agent + (file + rest));
    var t := Transcript([Str(s.platformPrompt)], []);
    assert [] + [Str(s.platformPrompt)] == [Str(s.platformPrompt)];
    ReadRole(Transcript([], []), "system", Str(s.platformPrompt), agent + (file + rest));
    assert ReadMessages(Rendered(s, turns)) == ReadFrom(t, agent + (file + rest));
    if hasAgent {
      ReadRole(t, "system", Str(s.agentPrompt), file + rest);
      t := Transcript(t.prompts + [Str(s.agentPrompt)], []);
    } else {
      assert agent + (file + rest) == file + rest;
    }
    if hasFile {
      ReadRole(t, "system", Str(s.agentsMd.value), rest);
      t := Transcript(t.prompts + [Str(s.agentsMd.value)], []);
    } else {
      assert file + rest == rest;
    }
    assert ReadMessages(Rendered(s, turns)) == ReadFrom(t, rest);
    TurnsAreRead(t, turns);
    var r := ReadFrom(t, rest).value;
    assert r.exchanges[0..] == r.exchanges;
  }

  // ----- Tools and their calls -----------------------------------------------------------------------

  /** A function with this name. */
  predicate IsFunction(t: Json, name: string) {
    && t.Obj? && Lookup(t, "type") == Some(Str("function"))
    && Lookup(t, "function").Some? && Lookup(t, "function").value.Obj?
    && Lookup(Lookup(t, "function").value, "name") == Some(Str(name))
  }

  lemma FunctionIs(outer: Json, inner: Json, name: string)
    requires inner.Obj? && LookupIn(inner.keys, inner.values, "name") == Some(Str(name))
    requires outer.Obj? && LookupIn(outer.keys, outer.values, "function") == Some(inner)
    requires LookupIn(outer.keys, outer.values, "type") == Some(Str("function"))
    ensures IsFunction(outer, name) && Lookup(outer, "function").value == inner
  {
  }

  /** A tool is offered with its name, its description and its schema. */
  lemma ToolsAreOffered(d: ToolDefinition)
    ensures IsFunction(ToolPayload(d), d.name)
    ensures var target := Lookup(ToolPayload(d), "function").value;
            && Lookup(target, "description") == Some(Str(d.description))
            && Lookup(target, "parameters") == Some(d.inputSchema)
  {
    var (outer, inner) := (ToolPayload(d), ToolPayload(d).values[0]);
    LookupFinds(outer.keys, outer.values, "function");
    LookupFinds(outer.keys, outer.values, "type");
    LookupFinds(inner.keys, inner.values, "name");
    LookupFinds(inner.keys, inner.values, "description");
    LookupFinds(inner.keys, inner.values, "parameters");
    assert outer.keys[0] == "function" && outer.keys[1] == "type";
    assert inner.keys[0] == "description" && inner.keys[1] == "name" && inner.keys[2] == "parameters";
    FunctionIs(outer, inner, d.name);
  }

  predicate HasArguments(t: Json, call: ToolCall) {
    && t.Obj? && Lookup(t, "function").Some? && Lookup(t, "function").value.Obj?
    && Lookup(Lookup(t, "function").value, "arguments") == Some(Str(Print(call.arguments)))
  }

  /** A call is rendered with its id, its name and the text of its arguments. */
  lemma CallIsRendered(call: ToolCall)
    ensures IsFunction(CallEntry(call), call.name) && Lookup(CallEntry(call), "id") == Some(Str(call.id))
    ensures HasArguments(CallEntry(call), call)
  {
    hide Print;
    var (outer, inner) := (CallEntry(call), CallEntry(call).values[0]);
    LookupFinds(outer.keys, outer.values, "function");
    LookupFinds(outer.keys, outer.values, "type");
    LookupFinds(outer.keys, outer.values, "id");
    LookupFinds(inner.keys, inner.values, "name");
    LookupFinds(inner.keys, inner.values, "arguments");
    assert outer.keys[0] == "function" && outer.keys[1] == "id" && outer.keys[2] == "type";
    assert inner.keys[0] == "arguments" && inner.keys[1] == "name";
    FunctionIs(outer, inner, call.name);
  }

  lemma {:induction false} EntriesAt(calls: seq<ToolCall>)
    ensures |CallEntries(calls)| == |calls|
    ensures forall i :: 0 <= i < |calls| ==> CallEntries(calls)[i] == CallEntry(calls[i])
  {
    hide CallEntry;
    if calls != [] {
      EntriesAt(calls[1..]);
    }
  }

  /** A round is one assistant message without text that makes the calls in order, and one tool message per result. */
  lemma RoundsAreRendered(calls: seq<ToolCall>, r: ToolResult)
    ensures var m := CallMessage(calls);
            && Lookup(m, "role") == Some(Str("assistant")) && Lookup(m, "content") == Some(Null)
            && Lookup(m, "tool_calls").Some? && Lookup(m, "tool_calls").value.Arr?
            && var entries := Lookup(m, "tool_calls").value.items;
               && |entries| == |calls|
               && forall i :: 0 <= i < |calls| ==>
                    && IsFunction(entries[i], calls[i].name) && Lookup(entries[i], "id") == Some(Str(calls[i].id))
                    && HasArguments(entries[i], calls[i])
    ensures var m := ResultMessage(r);
            && Lookup(m, "role") == Some(Str("tool")) && Lookup(m, "content") == Some(Str(r.content))
            && Lookup(m, "tool_call_id") == Some(Str(r.callId))
  {
    hide IsFunction, HasArguments, Print;
    var (m, n) := (CallMessage(calls), ResultMessage(r));
    EntriesAt(calls);
    hide CallEntries;
    LookupFinds(m.keys, m.values, "role");
    LookupFinds(m.keys, m.values, "content");
    LookupFinds(m.keys, m.values, "tool_calls");
    assert m.keys[0] == "content" && m.keys[1] == "role" && m.keys[2] == "tool_calls";
    LookupFinds(n.keys, n.values, "role");
    LookupFinds(n.keys, n.values, "content");
    LookupFinds(n.keys, n.values, "tool_call_id");
    assert n.keys[0] == "content" && n.keys[1] == "role" && n.keys[2] == "tool_call_id";
    forall i | 0 <= i < |calls|
      ensures IsFunction(CallEntry(calls[i]), calls[i].name)
              && Lookup(CallEntry(calls[i]), "id") == Some(Str(calls[i].id))
              && HasArguments(CallEntry(calls[i]), calls[i])
    {
      CallIsRendered(calls[i]);
    }
  }

  /** An error for this call, whose metadata gives the code and the tool. */
  predicate IsNote(r: ToolResult, call: ToolCall, code: string) {
    && r.callId == call.id && r.isError && r.metadata.Obj?
    && Lookup(r.metadata, "code") == Some(Str(code)) && Lookup(r.metadata, "tool") == Some(Str(call.name))
  }

  /** What takes the place of a result: too large, of an unknown tool, or at the end of the turn, marked as terminal. */
  lemma NotesAre(call: ToolCall)
    ensures IsNote(TooLargeResult(call), call, "context_too_large")
    ensures IsNote(NotFoundResult(call), call, "tool_not_found")
    ensures IsNote(TerminalAudit(call), call, "context_too_large")
    ensures Lookup(TerminalAudit(call).metadata, "terminal") == Some(Bool(true))
  {
    LookupFinds(["code", "tool"], [Str("context_too_large"), Str(call.name)], "code");
    LookupFinds(["code", "tool"], [Str("context_too_large"), Str(call.name)], "tool");
    LookupFinds(["code", "tool"], [Str("tool_not_found"), Str(call.name)], "code");
    LookupFinds(["code", "tool"], [Str("tool_not_found"), Str(call.name)], "tool");
    var m := TerminalAudit(call).metadata;
    LookupFinds(m.keys, m.values, "code");
    LookupFinds(m.keys, m.values, "tool");
    LookupFinds(m.keys, m.values, "terminal");
    assert m.keys[0] == "code" && m.keys[1] == "terminal" && m.keys[2] == "tool";
  }
}
