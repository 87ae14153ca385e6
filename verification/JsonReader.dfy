/**
 Reading JSON text as RFC 8259 defines it, and the proof that the canonical text of a tree reads back as that tree. The
 numeral of a float is kept as it stands.
 */
module JsonReader {
  import opened Outcomes
  import opened Decimal
  import opened JsonSafety
  import opened CanonicalText
  import opened CanonicalOrder
  import opened CanonicalData
  import opened Sequences

  // ----- Blanks and names (sections 2 and 3) ---------------------------------------------------------

  predicate IsBlankChar(c: char) {
    c as int in {0x20, 0x09, 0x0A, 0x0D}
  }

  function SkipBlanks(s: string): (rest: string)
    ensures |rest| <= |s|
  {
    if s != "" && IsBlankChar(s[0]) then SkipBlanks(s[1..]) else s
  }

  // ----- Numbers (section 6) -------------------------------------------------------------------------

  predicate IsNumberChar(c: char) {
    IsDigit(c) || c == '-' || c == '+' || c == '.' || c == 'e' || c == 'E'
  }

  /** The octets of the longest run of characters that numbers are made of. */
  function NumberPrefix(s: string): (n: nat)
    ensures n <= |s|
  {
    if s != "" && IsNumberChar(s[0]) then 1 + NumberPrefix(s[1..]) else 0
  }

  /** `int`: a zero, or digits that do not start with one. */
  predicate IsUnsigned(s: string) {
    IsNumeral(s) && (s[0] == '0' ==> |s| == 1)
  }

  function WithoutMinus(s: string): string {
    if s != "" && s[0] == '-' then s[1..] else s
  }

  /** How many digits `s` starts with. */
  function DigitPrefix(s: string): (n: nat)
    ensures n <= |s|
  {
    if s != "" && IsDigit(s[0]) then 1 + DigitPrefix(s[1..]) else 0
  }

  /** `frac` and `exp`, each of which may be missing. */
  predicate IsFractionAndExponent(s: string) {
    if s != "" && s[0] == '.' then
      var n := DigitPrefix(s[1..]);
      n > 0 && IsExponent(s[1 + n..])
    else IsExponent(s)
  }

  predicate IsExponent(s: string) {
    s == "" || (|s| > 1 && (s[0] == 'e' || s[0] == 'E')
                && IsNumeral(if |s| > 2 && (s[1] == '+' || s[1] == '-') then s[2..] else s[1..]))
  }

  /** A number with a fraction or an exponent, which Python reads as a float. */
  predicate IsFloatNumeral(s: string) {
    && (forall i :: 0 <= i < |s| ==> IsNumberChar(s[i]))
    && var u := WithoutMinus(s);
       var n := DigitPrefix(u);
       n < |u| && IsUnsigned(u[..n]) && IsFractionAndExponent(u[n..])
  }

  function ReadNumber(token: string): Option<Json> {
    var u := WithoutMinus(token);
    if IsUnsigned(u) then Some(Int((if u == token then 1 else -1) * Number(u)))
    else if IsFloatNumeral(token) then Some(Float(token))
    else None
  }

  // ----- Strings (section 7) -------------------------------------------------------------------------

  function HexDigit(c: char): Option<nat> {
    if IsDigit(c) then Some(c as int - '0' as int)
    else if 'a' <= c <= 'f' then Some(c as int - 'a' as int + 10)
    else if 'A' <= c <= 'F' then Some(c as int - 'A' as int + 10)
    else None
  }

  /** Four hexadecimal digits. */
  function ReadCode(s: string): Option<nat> {
    if |s| < 4 then None
    else
      var a :- HexDigit(s[0]);
      var b :- HexDigit(s[1]);
      var c :- HexDigit(s[2]);
      var d :- HexDigit(s[3]);
      Some(((a * 16 + b) * 16 + c) * 16 + d)
  }

  /** What follows a reverse solidus: one character, a code, or the two codes of a surrogate pair. */
  function ReadEscape(s: string): (r: Option<(char, string)>)
    ensures r.Some? ==> |r.value.1| < |s|
  {
    if s == "" then None
    else
      match s[0]
      case '"' => Some(('"', s[1..]))
      case '\\' => Some(('\\', s[1..]))
      case '/' => Some(('/', s[1..]))
      case 'b' => Some((8 as char, s[1..]))
      case 'f' => Some((12 as char, s[1..]))
      case 'n' => Some((10 as char, s[1..]))
      case 'r' => Some((13 as char, s[1..]))
      case 't' => Some((9 as char, s[1..]))
      case 'u' => ReadCodes(s[1..])
      case _ => None
  }

  function ReadCodes(s: string): (r: Option<(char, string)>)
    ensures r.Some? ==> |r.value.1| < |s|
  {
    var high :- ReadCode(s);
    if high < 0xD800 || 0xE000 <= high < 0x1_0000 then Some((high as char, s[4..]))
    else if |s| < 10 || s[4] != '\\' || s[5] != 'u' then None
    else
      var low :- ReadCode(s[6..]);
      if 0xD800 <= high < 0xDC00 && 0xDC00 <= low < 0xE000
      then Some(((0x1_0000 + (high - 0xD800) * 0x400 + (low - 0xDC00)) as char, s[10..]))
      else None
  }

  /** The characters of a string after its opening quotation mark, up to the closing one. */
  function ReadString(s: string): (r: Option<(string, string)>)
    ensures r.Some? ==> |r.value.1| < |s|
    decreases |s|
  {
    if s == "" then None
    else if s[0] == '"' then Some(("", s[1..]))
    else if s[0] == '\\' then
      var (c, after) :- ReadEscape(s[1..]);
      var (cs, rest) :- ReadString(after);
      Some(([c] + cs, rest))
    else if s[0] as int < 0x20 then None
    else
      var (cs, rest) :- ReadString(s[1..]);
      Some(([s[0]] + cs, rest))
  }

  // ----- Values (sections 3 to 5) --------------------------------------------------------------------

  predicate StartsWith(s: string, name: string) {
    name <= s
  }

  /** A value and what follows it. */
  function ReadValue(s: string): (r: Option<(Json, string)>)
    ensures r.Some? ==> |r.value.1| < |s|
    decreases |s|, 0
  {
    var b := SkipBlanks(s);
    if b == "" then None
    else if StartsWith(b, "null") then Some((Null, b[4..]))
    else if StartsWith(b, "true") then Some((Bool(true), b[4..]))
    else if StartsWith(b, "false") then Some((Bool(false), b[5..]))
    else if b[0] == '"' then
      var (text, rest) :- ReadString(b[1..]);
      Some((Str(text), rest))
    else if b[0] == '[' then ReadArray(b[1..])
    else if b[0] == '{' then ReadObject(b[1..])
    else
      var n := NumberPrefix(b);
      if n == 0 then None
      else
        var number :- ReadNumber(b[..n]);
        Some((number, b[n..]))
  }

  /** The inside of an array, and its closing bracket. */
  function ReadArray(s: string): (r: Option<(Json, string)>)
    ensures r.Some? ==> |r.value.1| < |s|
    decreases |s|, 2
  {
    var b := SkipBlanks(s);
    if b != "" && b[0] == ']' then Some((Arr([]), b[1..]))
    else
      var (items, rest) :- ReadItems(b);
      Some((Arr(items), rest))
  }

  /** The inside of an object, and its closing brace. */
  function ReadObject(s: string): (r: Option<(Json, string)>)
    ensures r.Some? ==> |r.value.1| < |s|
    decreases |s|, 2
  {
    var b := SkipBlanks(s);
    if b != "" && b[0] == '}' then Some((Obj([], []), b[1..]))
    else
      var (members, rest) :- ReadMembers(b);
      Some((Obj(KeysOf(members), ValuesOf(members)), rest))
  }

  /** One or more values with commas between them, and the closing bracket. */
  function ReadItems(s: string): (r: Option<(seq<Json>, string)>)
    ensures r.Some? ==> |r.value.1| < |s|
    decreases |s|, 1
  {
    var (item, after) :- ReadValue(s);
    var b := SkipBlanks(after);
    if b == "" then None
    else if b[0] == ']' then Some(([item], b[1..]))
    else if b[0] != ',' then None
    else
      var (items, rest) :- ReadItems(b[1..]);
      Some(([item] + items, rest))
  }

  /** One or more members with commas between them, and the closing brace. */
  function ReadMembers(s: string): (r: Option<(seq<Member>, string)>)
    ensures r.Some? ==> |r.value.1| < |s|
    decreases |s|, 1
  {
    var q := SkipBlanks(s);
    if q == "" || q[0] != '"' then None
    else
      var (key, named) :- ReadString(q[1..]);
      var c := SkipBlanks(named);
      if c == "" || c[0] != ':' then None
      else
        var (value, after) :- ReadValue(c[1..]);
        var b := SkipBlanks(after);
        if b == "" then None
        else if b[0] == '}' then Some(([Member(key, value)], b[1..]))
        else if b[0] != ',' then None
        else
          var (members, rest) :- ReadMembers(b[1..]);
          Some(([Member(key, value)] + members, rest))
  }

  /** `JSON-text`: one value, with nothing but blanks around it. */
  function ReadText(s: string): Option<Json> {
    var (value, rest) :- ReadValue(s);
    if SkipBlanks(rest) == "" then Some(value) else None
  }

  // ----- Strings read back ---------------------------------------------------------------------------

  function Prepended(c: char, r: Option<(string, string)>): Option<(string, string)> {
    match r
    case None => None
    case Some((cs, rest)) => Some(([c] + cs, rest))
  }

  lemma EscapeIsRead(s: string, c: char, rest: string)
    requires ReadEscape(s) == Some((c, rest))
    ensures ReadString("\\" + s) == Prepended(c, ReadString(rest))
  {
    hide ReadEscape;
    assert ("\\" + s)[1..] == s;
  }

  lemma PlainIsRead(c: char, rest: string)
    requires c != '"' && c != '\\' && c as int >= 0x20
    ensures ReadString([c] + rest) == Prepended(c, ReadString(rest))
  {
    hide ReadEscape;
    assert ([c] + rest)[1..] == rest;
  }

  lemma ShortEscape(c: char, rest: string)
    requires c == '"' || c == '\\' || c as int in {8, 9, 10, 12, 13}
    ensures |Escaped(c)| == 2 && Escaped(c)[0] == '\\'
    ensures ReadEscape(Escaped(c)[1..] + rest) == Some((c, rest))
  {
    hide ReadCodes;
    assert (Escaped(c)[1..] + rest)[1..] == rest;
  }

  lemma LongEscape(c: char, rest: string)
    requires c as int < 32 && c as int !in {8, 9, 10, 12, 13}
    ensures Escaped(c) == "\\" + ("u00" + [HEX[c as int / 16], HEX[c as int % 16]])
    ensures ReadEscape("u00" + [HEX[c as int / 16], HEX[c as int % 16]] + rest) == Some((c, rest))
  {
    hide ReadCodes, HexDigit;
    var v := c as int;
    CodeReadsBack(v, rest);
    assert ("u00" + [HEX[v / 16], HEX[v % 16]] + rest)[1..] == "00" + [HEX[v / 16], HEX[v % 16]] + rest;
  }

  /** What is written for a character reads back as that character. */
  lemma EscapedReadsBack(c: char, rest: string)
    ensures ReadString(Escaped(c) + rest) == Prepended(c, ReadString(rest))
  {
    hide ReadString, ReadEscape, Prepended;
    if c == '"' || c == '\\' || c as int in {8, 9, 10, 12, 13} {
      ShortEscape(c, rest);
      hide Escaped;
      EscapeIsRead(Escaped(c)[1..] + rest, c, rest);
      assert Escaped(c) + rest == "\\" + (Escaped(c)[1..] + rest);
    } else if c as int < 32 {
      LongEscape(c, rest);
      hide Escaped;
      var tail := "u00" + [HEX[c as int / 16], HEX[c as int % 16]];
      EscapeIsRead(tail + rest, c, rest);
      assert Escaped(c) + rest == "\\" + (tail + rest);
    } else {
      PlainIsRead(c, rest);
    }
  }

  lemma CodeReadsBack(v: nat, rest: string)
    requires v < 32
    ensures ReadCodes("00" + [HEX[v / 16], HEX[v % 16]] + rest) == Some((v as char, rest))
  {
    var s := "00" + [HEX[v / 16], HEX[v % 16]] + rest;
    assert s[0] == '0' && s[1] == '0' && s[2] == HEX[v / 16] && s[3] == HEX[v % 16] && s[4..] == rest;
    HexReadsBack(v / 16);
    HexReadsBack(v % 16);
  }

  lemma HexReadsBack(v: nat)
    requires v < 16
    ensures HexDigit(HEX[v]) == Some(v)
  {
  }

  lemma {:induction false} StringReadsBack(s: string, rest: string)
    ensures ReadString(EscapedText(s) + "\"" + rest) == Some((s, rest))
  {
    hide Escaped;
    if s == "" {
      assert EscapedText(s) + "\"" + rest == "\"" + rest;
    } else {
      var after := EscapedText(s[1..]) + "\"" + rest;
      StringReadsBack(s[1..], rest);
      hide ReadString;
      EscapedReadsBack(s[0], after);
      assert EscapedText(s) + "\"" + rest == Escaped(s[0]) + after;
      assert s == [s[0]] + s[1..];
    }
  }

  // ----- Numbers read back ---------------------------------------------------------------------------

  /** What may follow a value inside a text: nothing, or what closes or separates. */
  predicate Stops(rest: string) {
    rest == "" || rest[0] == ',' || rest[0] == ']' || rest[0] == '}'
  }

  lemma {:induction false} NumberEnds(token: string, rest: string)
    requires Stops(rest) && forall i :: 0 <= i < |token| ==> IsNumberChar(token[i])
    ensures NumberPrefix(token + rest) == |token|
  {
    if token == "" {
      assert token + rest == rest;
    } else {
      assert (token + rest)[1..] == token[1..] + rest;
      NumberEnds(token[1..], rest);
    }
  }

  lemma {:induction false} NumeralLeads(n: nat)
    ensures IsUnsigned(Numeral(n)) && (n > 0 ==> Numeral(n)[0] != '0')
  {
    if n >= 10 {
      NumeralLeads(n / 10);
    }
  }

  lemma IntReadsBack(i: int)
    ensures ReadNumber(IntText(i)) == Some(Int(i))
    ensures forall k :: 0 <= k < |IntText(i)| ==> IsNumberChar(IntText(i)[k])
    ensures IntText(i) != "" && (IsDigit(IntText(i)[0]) || IntText(i)[0] == '-')
  {
    hide Numeral, Number;
    NumeralLeads(Absolute(i));
    NumberOfNumeral(Absolute(i));
    var t := Numeral(Absolute(i));
    if i < 0 {
      assert IntText(i) == "-" + t && ("-" + t)[1..] == t;
    } else {
      assert IntText(i) == "" + t == t;
    }
  }

  lemma {:induction false} DigitsEnd(s: string)
    ensures forall i :: 0 <= i < DigitPrefix(s) ==> IsDigit(s[i])
    ensures DigitPrefix(s) < |s| ==> !IsDigit(s[DigitPrefix(s)])
  {
    if s != "" && IsDigit(s[0]) {
      DigitsEnd(s[1..]);
    }
  }

  lemma FloatReadsBack(token: string)
    requires IsFloatNumeral(token)
    ensures ReadNumber(token) == Some(Float(token))
    ensures token != "" && (IsDigit(token[0]) || token[0] == '-')
  {
    hide IsFractionAndExponent, DigitPrefix;
    DigitsEnd(WithoutMinus(token));
  }

  // ----- Trees read back -----------------------------------------------------------------------------

  /** A tree as `json.dumps` meets it: every key has its value, and floats are written as numerals. */
  predicate IsLegible(t: Json) {
    match t
    case Float(repr) => IsFloatNumeral(repr)
    case Arr(items) => AllLegible(items)
    case Obj(keys, values) => |keys| == |values| && AllLegible(values)
    case _ => true
  }

  predicate AllLegible(ts: seq<Json>) {
    ts == [] || (IsLegible(ts[0]) && AllLegible(ts[1..]))
  }

  lemma NothingToSkip(s: string)
    requires s == "" || !IsBlankChar(s[0])
    ensures SkipBlanks(s) == s
  {
  }

  lemma NamesRead(rest: string)
    ensures ReadValue("null" + rest) == Some((Null, rest))
    ensures ReadValue("true" + rest) == Some((Bool(true), rest))
    ensures ReadValue("false" + rest) == Some((Bool(false), rest))
  {
    NothingToSkip("null" + rest);
    NothingToSkip("true" + rest);
    NothingToSkip("false" + rest);
    hide SkipBlanks, ReadArray, ReadObject, ReadString, ReadNumber, NumberPrefix;
    assert ("null" + rest)[4..] == rest && ("true" + rest)[4..] == rest && ("false" + rest)[5..] == rest;
    assert ("null" + rest)[0] == 'n' && ("true" + rest)[0] == 't' && ("false" + rest)[0] == 'f';
  }

  lemma NumberReads(token: string, rest: string)
    requires token != "" && (IsDigit(token[0]) || token[0] == '-') && ReadNumber(token).Some? && Stops(rest)
    requires forall i :: 0 <= i < |token| ==> IsNumberChar(token[i])
    ensures ReadValue(token + rest) == Some((ReadNumber(token).value, rest))
  {
    NumberEnds(token, rest);
    NothingToSkip(token + rest);
    hide SkipBlanks, ReadArray, ReadObject, ReadString, ReadNumber, NumberPrefix;
    var s := token + rest;
    assert s[0] == token[0] && s[..|token|] == token && s[|token|..] == rest;
    assert !StartsWith(s, "null") && !StartsWith(s, "true") && !StartsWith(s, "false");
  }

  lemma StringReads(text: string, rest: string)
    ensures ReadValue(Quoted(text) + rest) == Some((Str(text), rest))
  {
    hide EscapedText;
    StringReadsBack(text, rest);
    hide ReadString, ReadArray, ReadObject, ReadNumber, NumberPrefix;
    var s := Quoted(text) + rest;
    NothingToSkip(s);
    hide SkipBlanks;
    assert s[0] == '"' && s[1..] == EscapedText(text) + "\"" + rest;
    assert !StartsWith(s, "null") && !StartsWith(s, "true") && !StartsWith(s, "false");
  }

  lemma ContainerReads(inside: string)
    ensures ReadValue("[" + inside) == ReadArray(inside) && ReadValue("{" + inside) == ReadObject(inside)
  {
    NothingToSkip("[" + inside);
    NothingToSkip("{" + inside);
    hide SkipBlanks, ReadArray, ReadObject, ReadString, ReadNumber, NumberPrefix;
    assert ("[" + inside)[1..] == inside && ("{" + inside)[1..] == inside;
    assert ("[" + inside)[0] == '[' && ("{" + inside)[0] == '{';
  }

  lemma InsideReads(inside: string)
    requires inside != "" && !IsBlankChar(inside[0])
    ensures ReadArray(inside)
            == (if inside[0] == ']' then Some((Arr([]), inside[1..]))
                else match ReadItems(inside) case None => None case Some((items, rest)) => Some((Arr(items), rest)))
    ensures ReadObject(inside)
            == (if inside[0] == '}' then Some((Obj([], []), inside[1..]))
                else
                  match ReadMembers(inside)
                  case None => None
                  case Some((members, rest)) => Some((Obj(KeysOf(members), ValuesOf(members)), rest)))
  {
    NothingToSkip(inside);
    hide SkipBlanks, ReadItems, ReadMembers, KeysOf, ValuesOf;
  }

  /** A printed value starts with none of the characters that separate or close. */
  lemma PrintStarts(t: Json)
    requires IsLegible(t)
    ensures Print(t) != "" && !IsBlankChar(Print(t)[0]) && Print(t)[0] != ']' && Print(t)[0] != '}'
  {
    hide PrintAll, PrintMembers, EscapedText, Numeral, IsFloatNumeral;
    match t
    case Int(i) => IntReadsBack(i);
    case Float(repr) => FloatReadsBack(repr);
    case _ =>
  }

  lemma {:induction false} ReadsBack(t: Json, rest: string)
    requires IsLegible(t) && Stops(rest)
    ensures ReadValue(Print(t) + rest) == Some((t, rest))
    decreases t
  {
    hide ReadValue, ReadItems, ReadMembers, Quoted, IntText, IsFloatNumeral, ReadNumber;
    match t
    case Null => NamesRead(rest);
    case Bool(b) => NamesRead(rest);
    case Int(i) =>
      IntReadsBack(i);
      NumberReads(IntText(i), rest);
    case Float(repr) =>
      FloatReadsBack(repr);
      FloatChars(repr);
      NumberReads(repr, rest);
    case Str(text) => StringReads(text, rest);
    case Arr(items) => ArrayReadsBack(items, rest);
    case Obj(keys, values) => ObjectReadsBack(keys, values, rest);
  }

  lemma FloatChars(token: string)
    requires IsFloatNumeral(token)
    ensures forall i :: 0 <= i < |token| ==> IsNumberChar(token[i])
  {
  }

  lemma {:induction false} ArrayReadsBack(items: seq<Json>, rest: string)
    requires AllLegible(items) && Stops(rest)
    ensures ReadValue(Print(Arr(items)) + rest) == Some((Arr(items), rest))
    decreases items, 1
  {
    hide ReadValue, ReadArray, ReadObject, ReadItems, ReadMembers;
    var inside := PrintAll(items) + "]" + rest;
    assert Print(Arr(items)) + rest == "[" + inside;
    if items == [] {
      assert inside == "]" + rest && inside[1..] == rest;
    } else {
      PrintStarts(items[0]);
      hide Print;
      assert inside[0] == Print(items[0])[0];
      ItemsReadBack(items, rest);
    }
    ContainerReads(inside);
    InsideReads(inside);
  }

  lemma {:induction false} ObjectReadsBack(keys: seq<string>, values: seq<Json>, rest: string)
    requires |keys| == |values| && AllLegible(values) && Stops(rest)
    ensures ReadValue(Print(Obj(keys, values)) + rest) == Some((Obj(keys, values), rest))
    decreases values, 1
  {
    hide ReadValue, ReadArray, ReadObject, ReadItems, ReadMembers, Members, KeysOf, ValuesOf;
    var inside := PrintMembers(keys, values) + "}" + rest;
    assert Print(Obj(keys, values)) + rest == "{" + inside;
    if keys == [] {
      assert inside == "}" + rest && inside[1..] == rest;
    } else {
      MembersStart(keys, values);
      assert inside[0] == '"';
      MembersReadBack(keys, values, rest);
      BothAreMembers(keys, values);
    }
    ContainerReads(inside);
    InsideReads(inside);
  }

  lemma MembersStart(keys: seq<string>, values: seq<Json>)
    requires |keys| == |values| > 0
    ensures PrintMembers(keys, values) != "" && PrintMembers(keys, values)[0] == '"'
  {
    hide Print, EscapedText;
    assert Quoted(keys[0])[0] == '"';
  }

  lemma {:induction false} ItemsReadBack(ts: seq<Json>, rest: string)
    requires ts != [] && AllLegible(ts)
    ensures ReadItems(PrintAll(ts) + "]" + rest) == Some((ts, rest))
    decreases ts, 0
  {
    hide ReadValue, ReadItems, Print, IsLegible;
    var last := |ts| == 1;
    var more := if last then "]" + rest else "," + (PrintAll(ts[1..]) + "]" + rest);
    assert PrintAll(ts) + "]" + rest == Print(ts[0]) + more;
    ReadsBack(ts[0], more);
    ItemsNext(Print(ts[0]) + more, ts[0], more);
    assert ts == [ts[0]] + ts[1..];
    if last {
      assert ts == [ts[0]] && more[1..] == rest && more[0] == ']';
    } else {
      assert more[1..] == PrintAll(ts[1..]) + "]" + rest;
      ItemsReadBack(ts[1..], rest);
    }
  }

  lemma ItemsNext(s: string, t: Json, more: string)
    requires ReadValue(s) == Some((t, more)) && more != "" && (more[0] == ']' || more[0] == ',')
    ensures ReadItems(s)
            == (if more[0] == ']' then Some(([t], more[1..]))
                else match ReadItems(more[1..]) case None => None case Some((ts, rest)) => Some(([t] + ts, rest)))
  {
    NothingToSkip(more);
    hide ReadValue, SkipBlanks;
  }

  lemma {:induction false} MembersReadBack(keys: seq<string>, values: seq<Json>, rest: string)
    requires |keys| == |values| > 0 && AllLegible(values)
    ensures ReadMembers(PrintMembers(keys, values) + "}" + rest) == Some((Members(keys, values), rest))
    decreases values, 0
  {
    hide ReadValue, ReadMembers, Print, IsLegible, Quoted;
    var last := |values| == 1;
    var more := if last then "}" + rest else "," + (PrintMembers(keys[1..], values[1..]) + "}" + rest);
    assert PrintMembers(keys, values) + "}" + rest == Quoted(keys[0]) + (":" + (Print(values[0]) + more));
    ReadsBack(values[0], more);
    MembersNext(keys[0], values[0], more);
    assert Members(keys, values) == [Member(keys[0], values[0])] + Members(keys[1..], values[1..]);
    if last {
      assert Members(keys, values) == [Member(keys[0], values[0])] && more[1..] == rest && more[0] == '}';
    } else {
      assert more[1..] == PrintMembers(keys[1..], values[1..]) + "}" + rest;
      MembersReadBack(keys[1..], values[1..], rest);
    }
  }

  lemma MembersNext(key: string, value: Json, more: string)
    requires ReadValue(Print(value) + more) == Some((value, more))
    requires more != "" && (more[0] == '}' || more[0] == ',')
    ensures ReadMembers(Quoted(key) + (":" + (Print(value) + more)))
            == (if more[0] == '}' then Some(([Member(key, value)], more[1..]))
                else
                  match ReadMembers(more[1..])
                  case None => None
                  case Some((ms, rest)) => Some(([Member(key, value)] + ms, rest)))
  {
    hide ReadValue, Print, EscapedText, ReadString;
    var after := ":" + (Print(value) + more);
    var s := Quoted(key) + after;
    StringReadsBack(key, after);
    NothingToSkip(s);
    NothingToSkip(after);
    NothingToSkip(more);
    hide SkipBlanks;
    assert s[0] == '"' && s[1..] == EscapedText(key) + "\"" + after;
    assert after[0] == ':' && after[1..] == Print(value) + more;
  }

  /** The text of a tree reads back as that tree. */
  lemma TextReadsBack(t: Json)
    requires IsLegible(t)
    ensures ReadText(Print(t)) == Some(t)
  {
    hide ReadValue, Print, IsLegible;
    ReadsBack(t, "");
    assert Print(t) + "" == Print(t);
  }

  // ----- Canonical texts -----------------------------------------------------------------------------

  lemma {:induction false} AllLegibleIs(ts: seq<Json>)
    ensures AllLegible(ts) <==> forall i :: 0 <= i < |ts| ==> IsLegible(ts[i])
  {
    hide IsLegible;
    if ts != [] {
      AllLegibleIs(ts[1..]);
      assert forall i :: 0 < i < |ts| ==> ts[i] == ts[1..][i - 1];
      assert forall i :: 0 <= i < |ts| - 1 ==> ts[1..][i] == ts[i + 1];
    }
  }

  lemma {:induction false} SortedIsLegible(t: Json)
    requires IsLegible(t)
    ensures IsLegible(Sorted(t))
    decreases t
  {
    match t
    case Arr(items) =>
      SortedArr(items);
      SortedAllAt(items);
      AllLegibleIs(items);
      AllLegibleIs(SortedAll(items));
      hide Sorted, SortedAll, AllLegible;
      forall i | 0 <= i < |items|
        ensures IsLegible(Sorted(items[i]))
      {
        SortedIsLegible(items[i]);
      }
    case Obj(keys, values) =>
      AllLegibleIs(values);
      forall i | 0 <= i < |values|
        ensures IsLegible(Sorted(values[i]))
      {
        SortedIsLegible(values[i]);
      }
      hide Sorted, IsLegible, AllLegible;
      SortedObjectIsLegible(keys, values);
    case _ =>
  }

  lemma SortedObjectIsLegible(keys: seq<string>, values: seq<Json>)
    requires |keys| == |values| && forall i :: 0 <= i < |values| ==> IsLegible(Sorted(values[i]))
    ensures IsLegible(Sorted(Obj(keys, values)))
  {
    hide Sorted, SortedOf, KeysOf, ValuesOf, Members, SortedAll, AllLegible;
    SortedObjectIs(keys, values);
    var (ms, bag) := (SortedOf(keys, values), Members(keys, SortedAll(values)));
    KeysAndValuesAt(ms);
    CanonicalMembersAt(keys, values);
    AllLegibleIs(ValuesOf(ms));
    forall i | 0 <= i < |ms|
      ensures IsLegible(ms[i].value)
    {
      assert ms[i] in multiset(bag);
      var j :| 0 <= j < |bag| && bag[j] == ms[i];
    }
  }

  /**
   The canonical text of a value, read as RFC 8259 says, is that value, with the keys of every object in order. So two
   values have the same canonical text if and only if they are equal.
   */
  lemma CanonicalTextsAreFaithful(t: Json, u: Json)
    requires IsLegible(t) && IsData(t) && IsLegible(u) && IsData(u)
    ensures ReadText(TextOf(t)).Some?
    ensures Agree(t, ReadText(TextOf(t)).value) && IsSorted(ReadText(TextOf(t)).value)
    ensures TextOf(t) == TextOf(u) <==> Agree(t, u)
  {
    hide ReadText, Print, Sorted, IsLegible, IsData, Agree, IsSorted;
    SortedIsLegible(t);
    SortedIsLegible(u);
    TextReadsBack(Sorted(t));
    TextReadsBack(Sorted(u));
    SortingAgrees(t);
    SortedIsSorted(t);
    SortedAlikeIfAgree(t, u);
  }
}
