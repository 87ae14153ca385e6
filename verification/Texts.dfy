/** Whitespace as Python sees it, and joining of strings. */
module Texts {

  /** The characters that Python's `str.strip` removes. */
  predicate IsSpace(c: char) {
    var v := c as int;
    || 0x09 <= v <= 0x0D || 0x1C <= v <= 0x20 || v == 0x85 || v == 0xA0 || v == 0x1680
    || 0x2000 <= v <= 0x200A || v == 0x2028 || v == 0x2029 || v == 0x202F || v == 0x205F || v == 0x3000
  }

  /** `not text.strip()`. */
  predicate IsBlank(text: string) {
    forall i :: 0 <= i < |text| ==> IsSpace(text[i])
  }

  function LeftStripped(text: string): string {
    if text != "" && IsSpace(text[0]) then LeftStripped(text[1..]) else text
  }

  function RightStripped(text: string): string {
    if text != "" && IsSpace(text[|text| - 1]) then RightStripped(text[..|text| - 1]) else text
  }

  /** `text.strip()`. */
  function Stripped(text: string): string {
    RightStripped(LeftStripped(text))
  }

  /** `"".join(parts)`. */
  function Joined(parts: seq<string>): string {
    if parts == [] then "" else Joined(parts[..|parts| - 1]) + parts[|parts| - 1]
  }
}
