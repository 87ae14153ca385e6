/** The canonical text of a JSON tree, and the proof that `Size` is its length in octets. */
module CanonicalText {
  import opened Utf8
  import opened Decimal
  import opened JsonSafety

  const HEX := "0123456789abcdef"

  function Escaped(c: char): string {
    var v := c as int;
    if c == '"' || c == '\\' then ['\\', c]
    else if v == 8 then "\\b"
    else if v == 9 then "\\t"
    else if v == 10 then "\\n"
    else if v == 12 then "\\f"
    else if v == 13 then "\\r"
    else if v < 32 then "\\u00" + [HEX[v / 16], HEX[v % 16]]
    else [c]
  }

  function EscapedText(s: string): string {
    if s == "" then "" else Escaped(s[0]) + EscapedText(s[1..])
  }

  function Quoted(s: string): string {
    "\"" + EscapedText(s) + "\""
  }

  /** `json.dumps` with compact separators and no ASCII escapes, the keys in the order in which they stand. */
  function Print(t: Json): string {
    match t
    case Null => "null"
    case Bool(b) => if b then "true" else "false"
    case Int(i) => IntText(i)
    case Float(repr) => repr
    case Str(s) => Quoted(s)
    case Arr(items) => "[" + PrintAll(items) + "]"
    case Obj(keys, values) => "{" + (if |keys| == |values| then PrintMembers(keys, values) else "") + "}"
  }

  function PrintAll(ts: seq<Json>): string {
    if ts == [] then ""
    else if |ts| == 1 then Print(ts[0])
    else Print(ts[0]) + "," + PrintAll(ts[1..])
  }

  function PrintMembers(keys: seq<string>, values: seq<Json>): string
    requires |keys| == |values|
    decreases values
  {
    if values == [] then ""
    else
      var member := Quoted(keys[0]) + ":" + Print(values[0]);
      if |values| == 1 then member else member + "," + PrintMembers(keys[1..], values[1..])
  }

  predicate IsWellFormed(t: Json) {
    match t
    case Arr(items) => AllWellFormed(items)
    case Obj(keys, values) => |keys| == |values| && AllWellFormed(values)
    case _ => true
  }

  predicate AllWellFormed(ts: seq<Json>) {
    ts == [] || (IsWellFormed(ts[0]) && AllWellFormed(ts[1..]))
  }

  // ----- Lengths -------------------------------------------------------------------------------------

  predicate IsAscii(s: string) {
    forall i :: 0 <= i < |s| ==> s[i] as int < 0x80
  }

  lemma {:induction false} AsciiLength(s: string)
    requires IsAscii(s)
    ensures |Encode(s)| == |s|
  {
    if s != "" {
      AsciiLength(s[1..]);
    }
  }

  lemma EscapedLength(c: char)
    ensures |Encode(Escaped(c))| == CharBytes(c)
  {
    hide Encode, EncodeChar, Escaped, CharBytes;
    EscapedIs(c);
    if Escaped(c) == [c] {
      OneCharLength(c);
    } else {
      AsciiLength(Escaped(c));
    }
  }

  lemma EscapedIs(c: char)
    ensures if Escaped(c) == [c] then CharBytes(c) == |EncodeChar(c)|
            else IsAscii(Escaped(c)) && |Escaped(c)| == CharBytes(c)
  {
    hide EncodeChar;
  }

  lemma OneCharLength(c: char)
    ensures |Encode([c])| == |EncodeChar(c)|
  {
    hide EncodeChar;
    assert [c][1..] == "";
  }

  lemma {:induction false} EscapedTextLength(s: string)
    ensures |Encode(EscapedText(s))| == EscapedBytes(s)
  {
    if s != "" {
      EscapedLength(s[0]);
      EncodeAdds(Escaped(s[0]), EscapedText(s[1..]));
      EscapedTextLength(s[1..]);
    }
  }

  lemma Between(left: string, text: string, right: string)
    requires IsAscii(left) && IsAscii(right)
    ensures |Encode(left + text + right)| == |left| + |Encode(text)| + |right|
  {
    EncodeAdds(left + text, right);
    EncodeAdds(left, text);
    AsciiLength(left);
    AsciiLength(right);
  }

  lemma QuotedLength(s: string)
    ensures |Encode(Quoted(s))| == StringBytes(s)
  {
    EscapedTextLength(s);
    Between("\"", EscapedText(s), "\"");
  }

  lemma IntLength(i: int)
    ensures |Encode(IntText(i))| == |IntText(i)|
  {
    AsciiLength(IntText(i));
  }

  lemma Sum(a: string, b: string)
    ensures |Encode(a + b)| == |Encode(a)| + |Encode(b)|
  {
    EncodeAdds(a, b);
  }

  /** The size that the limits are checked against is the length of the text in octets. */
  lemma {:induction false} SizeIsTheLength(t: Json)
    ensures |Encode(Print(t))| <= Size(t)
    ensures IsWellFormed(t) ==> |Encode(Print(t))| == Size(t)
    decreases t
  {
    hide Encode, Quoted;
    match t
    case Null => AsciiLength("null");
    case Bool(b) => AsciiLength(if b then "true" else "false");
    case Int(i) => IntLength(i);
    case Float(_) =>
    case Str(s) => QuotedLength(s);
    case Arr(items) =>
      AllSizesAreLengths(items);
      Between("[", PrintAll(items), "]");
    case Obj(keys, values) =>
      if |keys| == |values| {
        MemberSizesAreLengths(keys, values);
        Between("{", PrintMembers(keys, values), "}");
      } else {
        assert "{" + "" + "}" == "{}";
        AsciiLength("{}");
      }
  }

  lemma {:induction false} AllSizesAreLengths(ts: seq<Json>)
    ensures |Encode(PrintAll(ts))| <= SizeOfAll(ts) + Commas(|ts|)
    ensures AllWellFormed(ts) ==> |Encode(PrintAll(ts))| == SizeOfAll(ts) + Commas(|ts|)
    decreases ts
  {
    if ts == [] {
    } else if |ts| == 1 {
      SizeIsTheLength(ts[0]);
    } else {
      SizeIsTheLength(ts[0]);
      AllSizesAreLengths(ts[1..]);
      Sum(Print(ts[0]) + ",", PrintAll(ts[1..]));
      Sum(Print(ts[0]), ",");
      AsciiLength(",");
    }
  }

  lemma MemberLength(key: string, value: Json)
    ensures |Encode(Quoted(key) + ":" + Print(value))| == StringBytes(key) + 1 + |Encode(Print(value))|
  {
    hide Encode, Quoted, Print;
    QuotedLength(key);
    Sum(Quoted(key) + ":", Print(value));
    Sum(Quoted(key), ":");
    AsciiLength(":");
  }

  lemma {:induction false} MemberSizesAreLengths(keys: seq<string>, values: seq<Json>)
    requires |keys| == |values|
    ensures |Encode(PrintMembers(keys, values))| <= SizeOfKeys(keys) + SizeOfAll(values) + Commas(|keys|)
    ensures AllWellFormed(values) ==>
              |Encode(PrintMembers(keys, values))| == SizeOfKeys(keys) + SizeOfAll(values) + Commas(|keys|)
    decreases values
  {
    hide Quoted;
    if values != [] {
      SizeIsTheLength(values[0]);
      MemberLength(keys[0], values[0]);
      if |values| > 1 {
        var member := Quoted(keys[0]) + ":" + Print(values[0]);
        MemberSizesAreLengths(keys[1..], values[1..]);
        Sum(member + ",", PrintMembers(keys[1..], values[1..]));
        Sum(member, ",");
        AsciiLength(",");
      }
    }
  }
}
