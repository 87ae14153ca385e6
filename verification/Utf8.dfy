/**
 Text offsets. A Dafny `string` is a sequence of Unicode scalar values, so it is exactly the strict text
 that `utf16_code_units` accepts. Byte strings are what the Redis scripts see.
 */
module Utf8 {
  import opened Outcomes

  type Byte = b: int | 0 <= b < 0x100

  type Bytes = seq<Byte>

  // ----- UTF-16 length -------------------------------------------------------------------------------

  function CharUnits(c: char): nat {
    if c as int < 0x10000 then 1 else 2
  }

  /** The length of `text` in UTF-16 code units, which is JavaScript's `String.length`. */
  function Utf16Length(text: string): nat {
    if text == "" then 0 else CharUnits(text[0]) + Utf16Length(text[1..])
  }

  lemma {:induction false} Utf16LengthAdds(a: string, b: string)
    ensures Utf16Length(a + b) == Utf16Length(a) + Utf16Length(b)
  {
    if a == "" {
      assert a + b == b;
    } else {
      assert (a + b)[1..] == a[1..] + b;
      Utf16LengthAdds(a[1..], b);
    }
  }

  // ----- UTF-8, section 4 of RFC 3629 ----------------------------------------------------------------

  predicate IsTail(b: Byte) {
    0x80 <= b <= 0xBF
  }

  /** UTF8-char of the ABNF: one octet sequence that encodes one scalar value. */
  predicate IsUtf8Char(b: Bytes) {
    match |b|
    case 1 => b[0] <= 0x7F
    case 2 => 0xC2 <= b[0] <= 0xDF && IsTail(b[1])
    case 3 =>
      && IsTail(b[2])
      && (
        || (b[0] == 0xE0 && 0xA0 <= b[1] <= 0xBF)
        || (0xE1 <= b[0] <= 0xEC && IsTail(b[1]))
        || (b[0] == 0xED && 0x80 <= b[1] <= 0x9F)
        || (0xEE <= b[0] <= 0xEF && IsTail(b[1])))
    case 4 =>
      && IsTail(b[2])
      && IsTail(b[3])
      && (
        || (b[0] == 0xF0 && 0x90 <= b[1] <= 0xBF)
        || (0xF1 <= b[0] <= 0xF3 && IsTail(b[1]))
        || (b[0] == 0xF4 && 0x80 <= b[1] <= 0x8F))
    case _ => false
  }

  /** UTF8-octets of the ABNF: any number of UTF8-char, one after another. */
  ghost predicate IsUtf8Octets(b: Bytes)
    decreases |b|
  {
    b == [] || exists n :: 1 <= n <= |b| && IsUtf8Char(b[..n]) && IsUtf8Octets(b[n..])
  }

  function EncodeChar(c: char): (b: Bytes)
    ensures IsUtf8Char(b)
  {
    var v := c as int;
    var (v1, v2, v3) := (v / 64, v / 64 / 64, v / 64 / 64 / 64);
    if v < 0x80 then [v]
    else if v < 0x800 then [0xC0 + v1, 0x80 + v % 64]
    else if v < 0x10000 then [0xE0 + v2, 0x80 + v1 % 64, 0x80 + v % 64]
    else [0xF0 + v3, 0x80 + v2 % 64, 0x80 + v1 % 64, 0x80 + v % 64]
  }

  /** The six low bits that a tail octet carries. */
  function Low(b: Byte): int {
    b - 0x80
  }

  function DecodeChar(b: Bytes): char
    requires IsUtf8Char(b)
  {
    var first: int := b[0];
    match |b|
    case 1 => first as char
    case 2 => ((first - 0xC0) * 64 + Low(b[1])) as char
    case 3 => (((first - 0xE0) * 64 + Low(b[1])) * 64 + Low(b[2])) as char
    case 4 => ((((first - 0xF0) * 64 + Low(b[1])) * 64 + Low(b[2])) * 64 + Low(b[3])) as char
  }

  lemma EncodeThreeInverts(b: Bytes)
    requires |b| == 3 && IsUtf8Char(b)
    ensures EncodeChar(DecodeChar(b)) == b
  {
    var v1 := (b[0] - 0xE0) * 64 + Low(b[1]);
    assert (v1 * 64 + Low(b[2])) / 64 == v1 && v1 / 64 == b[0] - 0xE0;
  }

  lemma EncodeFourInverts(b: Bytes)
    requires |b| == 4 && IsUtf8Char(b)
    ensures EncodeChar(DecodeChar(b)) == b
  {
    var v2: int := (b[0] - 0xF0) * 64 + Low(b[1]);
    var v1 := v2 * 64 + Low(b[2]);
    assert (v1 * 64 + Low(b[3])) / 64 == v1 && v1 / 64 == v2 && v2 / 64 == b[0] - 0xF0;
  }

  lemma EncodeCharInverts(b: Bytes)
    requires IsUtf8Char(b)
    ensures EncodeChar(DecodeChar(b)) == b
  {
    if |b| == 3 {
      EncodeThreeInverts(b);
    } else if |b| == 4 {
      EncodeFourInverts(b);
    }
  }

  lemma DecodeCharInverts(c: char)
    ensures DecodeChar(EncodeChar(c)) == c
  {
  }

  function Encode(text: string): Bytes {
    if text == "" then [] else EncodeChar(text[0]) + Encode(text[1..])
  }

  /** How many octets a UTF8-char that starts with `first` has; zero when no UTF8-char starts so. */
  function Width(first: Byte): nat {
    if first <= 0x7F then 1
    else if 0xC2 <= first <= 0xDF then 2
    else if 0xE0 <= first <= 0xEF then 3
    else if 0xF0 <= first <= 0xF4 then 4
    else 0
  }

  /** The number of octets of the UTF8-char that `b` starts with, or zero. */
  function HeadWidth(b: Bytes): (n: nat)
    requires b != []
    ensures n <= |b|
    ensures n > 0 ==> IsUtf8Char(b[..n])
    ensures n == 0 ==> forall k :: 1 <= k <= |b| ==> !IsUtf8Char(b[..k])
    ensures forall k :: 1 <= k <= |b| && IsUtf8Char(b[..k]) ==> k == n
  {
    var n := Width(b[0]);
    assert forall k :: 1 <= k <= |b| && IsUtf8Char(b[..k]) ==> k == Width(b[..k][0]);
    if 0 < n <= |b| && IsUtf8Char(b[..n]) then n else 0
  }

  function Decode(b: Bytes): Option<string>
    decreases |b|
  {
    if b == [] then Some("")
    else
      var n := HeadWidth(b);
      if n == 0 then None
      else
        var rest :- Decode(b[n..]);
        Some([DecodeChar(b[..n])] + rest)
  }

  /** `Decode` accepts exactly the octet strings of the RFC's grammar. */
  lemma {:induction false} DecodeIsTheGrammar(b: Bytes)
    ensures Decode(b).Some? <==> IsUtf8Octets(b)
    decreases |b|
  {
    if b != [] {
      var n := HeadWidth(b);
      if n > 0 {
        DecodeIsTheGrammar(b[n..]);
      }
    }
  }

  lemma {:induction false} DecodeThenEncode(b: Bytes)
    requires Decode(b).Some?
    ensures Encode(Decode(b).value) == b
    decreases |b|
  {
    hide EncodeChar, DecodeChar, IsUtf8Char;
    if b != [] {
      var n := HeadWidth(b);
      DecodeThenEncode(b[n..]);
      EncodeCharInverts(b[..n]);
      assert Decode(b).value[1..] == Decode(b[n..]).value;
      assert b == b[..n] + b[n..];
    }
  }

  lemma {:induction false} EncodeThenDecode(text: string)
    ensures Decode(Encode(text)) == Some(text)
  {
    hide EncodeChar, DecodeChar, IsUtf8Char, Decode;
    DecodeNone();
    if text != "" {
      EncodeThenDecode(text[1..]);
      DecodeCharInverts(text[0]);
      DecodeNext(EncodeChar(text[0]), Encode(text[1..]));
      assert text == [text[0]] + text[1..];
    }
  }

  lemma DecodeNone()
    ensures Decode([]) == Some("")
  {
  }

  lemma DecodeNext(head: Bytes, rest: Bytes)
    requires IsUtf8Char(head) && Decode(rest).Some?
    ensures Decode(head + rest) == Some([DecodeChar(head)] + Decode(rest).value)
  {
    hide DecodeChar, EncodeChar;
    var b := head + rest;
    assert b[..|head|] == head && b[|head|..] == rest;
    assert |head| > 0;
    hide IsUtf8Char;
    assert HeadWidth(b) == |head|;
  }

  lemma {:induction false} EncodeAdds(a: string, b: string)
    ensures Encode(a + b) == Encode(a) + Encode(b)
  {
    if a == "" {
      assert a + b == b;
    } else {
      assert (a + b)[1..] == a[1..] + b;
      EncodeAdds(a[1..], b);
    }
  }

  lemma EncodeInjective(a: string, b: string)
    requires Encode(a) == Encode(b)
    ensures a == b
  {
    EncodeThenDecode(a);
    EncodeThenDecode(b);
  }

  /** Concatenating two well-formed octet strings concatenates their texts and adds their lengths. */
  lemma DecodeAdds(a: Bytes, b: Bytes)
    requires Decode(a).Some? && Decode(b).Some?
    ensures Decode(a + b) == Some(Decode(a).value + Decode(b).value)
    ensures Utf16Length(Decode(a + b).value) == Utf16Length(Decode(a).value) + Utf16Length(Decode(b).value)
  {
    var s, t := Decode(a).value, Decode(b).value;
    DecodeThenEncode(a);
    DecodeThenEncode(b);
    EncodeAdds(s, t);
    EncodeThenDecode(s + t);
    Utf16LengthAdds(s, t);
  }

  // ----- The scanner of the Redis scripts ------------------------------------------------------------

  /** What the scanner is for: the UTF-16 length of the text, when there is a text and it is not too long. */
  function MeasuredUnits(value: Bytes, maxBytes: nat): Option<nat> {
    if |value| > maxBytes then None
    else
      var text :- Decode(value);
      Some(Utf16Length(text))
  }

  /** `string.byte(value, index)`: nil past the end. */
  function ByteAt(value: Bytes, index: nat): Option<Byte> {
    if index < |value| then Some(value[index]) else None
  }

  predicate Within(b: Option<Byte>, low: int, high: int) {
    b.Some? && low <= b.value <= high
  }

  lemma WidthIsUnits(b: Bytes)
    requires IsUtf8Char(b)
    ensures CharUnits(DecodeChar(b)) == if |b| == 4 then 2 else 1
  {
  }

  lemma SkipOne(value: Bytes, index: nat, n: nat)
    requires index + n <= |value| && n > 0
    requires IsUtf8Char(value[index..index + n])
    ensures Decode(value[index..]).Some? <==> Decode(value[index + n..]).Some?
    ensures Decode(value[index..]).Some? ==>
              Utf16Length(Decode(value[index..]).value)
              == (if n == 4 then 2 else 1) + Utf16Length(Decode(value[index + n..]).value)
  {
    WidthIsUnits(value[index..index + n]);
    hide EncodeChar, DecodeChar, IsUtf8Char, Width;
    var b := value[index..];
    assert b[..n] == value[index..index + n];
    assert b[n..] == value[index + n..];
    assert HeadWidth(b) == n;
  }

  lemma HeadIsTheWidth(value: Bytes, index: nat)
    requires index < |value|
    ensures var n := Width(value[index]);
            HeadWidth(value[index..]) ==
            if 0 < n && index + n <= |value| && IsUtf8Char(value[index..index + n]) then n else 0
  {
    var n := Width(value[index]);
    if 0 < n && index + n <= |value| {
      assert value[index..][..n] == value[index..index + n];
    }
  }

  /** One turn of the scanner's loop, branch for branch: how far it advances, or zero where it answers nil. */
  method ScanChar(value: Bytes, index: nat) returns (n: nat)
    requires index < |value|
    ensures n == HeadWidth(value[index..])
  {
    HeadIsTheWidth(value, index);
    var first := value[index];
    var second, third, fourth := ByteAt(value, index + 1), ByteAt(value, index + 2), ByteAt(value, index + 3);
    if first <= 0x7F {
      return 1;
    } else if 0xC2 <= first <= 0xDF {
      if !Within(second, 0x80, 0xBF) {
        return 0;
      }
      return 2;
    } else if 0xE0 <= first <= 0xEF {
      if second.None? || !Within(third, 0x80, 0xBF) {
        return 0;
      }
      if (first == 0xE0 && !Within(second, 0xA0, 0xBF))
         || (first == 0xED && !Within(second, 0x80, 0x9F))
         || (first != 0xE0 && first != 0xED && !Within(second, 0x80, 0xBF)) {
        return 0;
      }
      return 3;
    } else if 0xF0 <= first <= 0xF4 {
      if second.None? || !Within(third, 0x80, 0xBF) || !Within(fourth, 0x80, 0xBF) {
        return 0;
      }
      if (first == 0xF0 && !Within(second, 0x90, 0xBF))
         || (first == 0xF4 && !Within(second, 0x80, 0x8F))
         || (first != 0xF0 && first != 0xF4 && !Within(second, 0x80, 0xBF)) {
        return 0;
      }
      return 4;
    }
    return 0;
  }

  /** The `utf16_units` scanner: it answers a number exactly on well-formed text within the cap. */
  method ScanUtf16Units(value: Bytes, maxBytes: nat) returns (r: Option<nat>)
    ensures r == MeasuredUnits(value, maxBytes)
  {
    hide EncodeChar, DecodeChar, IsUtf8Char, Width;
    if |value| > maxBytes {
      return None;
    }
    var index, units := 0, 0;
    assert value[0..] == value;
    while index < |value|
      invariant 0 <= index <= |value|
      invariant Decode(value).Some? <==> Decode(value[index..]).Some?
      invariant Decode(value).Some? ==>
                  Utf16Length(Decode(value).value) == units + Utf16Length(Decode(value[index..]).value)
    {
      var n := ScanChar(value, index);
      if n == 0 {
        return None;
      }
      assert value[index..][..n] == value[index..index + n];
      SkipOne(value, index, n);
      index, units := index + n, units + if n == 4 then 2 else 1;
    }
    assert value[index..] == [];
    r := Some(units);
  }
}
