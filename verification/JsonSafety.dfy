/** JSON values as trees, the limits of `canonical_json`, and the exact size of the canonical text. */
module JsonSafety {
  import opened Outcomes
  import opened Utf8
  import opened Decimal

  /** Objects list their keys in some order; `CanonicalOrder` sorts them. Persisted values stand for sorted trees. */
  datatype Json =
    | Null
    | Bool(value: bool)
    | Int(number: int)
    | Float(repr: string)
    | Str(text: string)
    | Arr(items: seq<Json>)
    | Obj(keys: seq<string>, values: seq<Json>)

  const MAX_NESTING_DEPTH: nat := 64
  const MAX_NODE_COUNT: nat := 50000
  const MAX_STRING_CHARS: nat := 1000000
  const MAX_CANONICAL_BYTES: nat := 4 * 1024 * 1024

  /** CPython refuses to print integers with more digits than this. */
  const MAX_INT_DIGITS: nat := 4300

  function Absolute(i: int): nat {
    if i < 0 then -i else i
  }

  /** `str(i)`. */
  function IntText(i: int): string {
    (if i < 0 then "-" else "") + Numeral(Absolute(i))
  }

  predicate IsPrintable(i: int) {
    |Numeral(Absolute(i))| <= MAX_INT_DIGITS
  }

  predicate IsShort(s: string) {
    |s| <= MAX_STRING_CHARS
  }

  predicate AllShort(strings: seq<string>) {
    forall i :: 0 <= i < |strings| ==> IsShort(strings[i])
  }

  // ----- One value of a dictionary -------------------------------------------------------------------

  /** `dict.get`; the last of equal keys would win, and there are none. */
  function Lookup(t: Json, key: string): Option<Json>
    requires t.Obj?
  {
    LookupIn(t.keys, t.values, key)
  }

  function LookupIn(keys: seq<string>, values: seq<Json>, key: string): Option<Json> {
    if keys == [] || values == [] then None
    else if keys[0] == key then Some(values[0])
    else LookupIn(keys[1..], values[1..], key)
  }

  /** The value that stands at the place of the key, and nothing where the key is missing. */
  lemma {:induction false} LookupFinds(keys: seq<string>, values: seq<Json>, key: string)
    requires |keys| == |values|
    ensures key !in keys ==> LookupIn(keys, values, key) == None
    ensures forall i :: 0 <= i < |keys| && keys[i] == key && key !in keys[..i] ==>
                          LookupIn(keys, values, key) == Some(values[i])
  {
    if keys != [] {
      LookupFinds(keys[1..], values[1..], key);
      forall i | 0 < i < |keys| && keys[i] == key && key !in keys[..i]
        ensures LookupIn(keys, values, key) == Some(values[i])
      {
        assert keys[0] == keys[..i][0];
        assert keys[1..][i - 1] == key && values[1..][i - 1] == values[i];
        assert keys[1..][..i - 1] == keys[..i][1..];
      }
    }
  }

  // ----- What the limits count -----------------------------------------------------------------------

  /** Values, and each key of an object once more. */
  function Nodes(t: Json): nat {
    match t
    case Arr(items) => 1 + NodesOfAll(items)
    case Obj(keys, values) => 1 + |keys| + NodesOfAll(values)
    case _ => 1
  }

  function NodesOfAll(ts: seq<Json>): nat {
    if ts == [] then 0 else Nodes(ts[0]) + NodesOfAll(ts[1..])
  }

  /** How many containers are nested in each other. */
  function Height(t: Json): nat {
    match t
    case Arr(items) => 1 + HeightOfAll(items)
    case Obj(_, values) => 1 + HeightOfAll(values)
    case _ => 0
  }

  function HeightOfAll(ts: seq<Json>): nat {
    if ts == [] then 0
    else
      var first, rest := Height(ts[0]), HeightOfAll(ts[1..]);
      if first > rest then first else rest
  }

  predicate LeavesAreFine(t: Json) {
    match t
    case Int(i) => IsPrintable(i)
    case Str(s) => IsShort(s)
    case Arr(items) => AllLeavesAreFine(items)
    case Obj(keys, values) => AllShort(keys) && AllLeavesAreFine(values)
    case _ => true
  }

  predicate AllLeavesAreFine(ts: seq<Json>) {
    ts == [] || (LeavesAreFine(ts[0]) && AllLeavesAreFine(ts[1..]))
  }

  // ----- The size of the canonical text --------------------------------------------------------------

  /** The octets of one character inside a JSON string, without `ensure_ascii`. */
  function CharBytes(c: char): nat {
    if c == '"' || c == '\\' then 2
    else if c as int in {8, 9, 10, 12, 13} then 2
    else if c as int < 32 then 6
    else |EncodeChar(c)|
  }

  function EscapedBytes(s: string): nat {
    if s == "" then 0 else CharBytes(s[0]) + EscapedBytes(s[1..])
  }

  function StringBytes(s: string): nat {
    2 + EscapedBytes(s)
  }

  /** The octets of the canonical text: no blanks, and a comma after every element but the last. */
  function Size(t: Json): nat {
    match t
    case Null => 4
    case Bool(b) => if b then 4 else 5
    case Int(i) => |IntText(i)|
    case Float(repr) => |Encode(repr)|
    case Str(s) => StringBytes(s)
    case Arr(items) => 2 + SizeOfAll(items) + Commas(|items|)
    case Obj(keys, values) => 2 + SizeOfKeys(keys) + SizeOfAll(values) + Commas(|keys|)
  }

  function Commas(n: nat): nat {
    if n == 0 then 0 else n - 1
  }

  function SizeOfAll(ts: seq<Json>): nat {
    if ts == [] then 0 else Size(ts[0]) + SizeOfAll(ts[1..])
  }

  function SizeOfKeys(keys: seq<string>): nat {
    if keys == [] then 0 else StringBytes(keys[0]) + 1 + SizeOfKeys(keys[1..])
  }

  /** Exactly the trees that `canonical_json` accepts. */
  predicate Safe(t: Json) {
    Height(t) <= MAX_NESTING_DEPTH && Nodes(t) <= MAX_NODE_COUNT && LeavesAreFine(t) && Size(t) <= MAX_CANONICAL_BYTES
  }

  // ----- The raw count of the walk -------------------------------------------------------------------

  /** The octets of strings, keys and integers before escaping: what the walk counts as it goes. */
  function RawBytes(t: Json): nat {
    match t
    case Int(i) => |IntText(i)|
    case Str(s) => |Encode(s)|
    case Arr(items) => RawBytesOfAll(items)
    case Obj(keys, values) => RawBytesOfKeys(keys) + RawBytesOfAll(values)
    case _ => 0
  }

  function RawBytesOfAll(ts: seq<Json>): nat {
    if ts == [] then 0 else RawBytes(ts[0]) + RawBytesOfAll(ts[1..])
  }

  function RawBytesOfKeys(keys: seq<string>): nat {
    if keys == [] then 0 else |Encode(keys[0])| + RawBytesOfKeys(keys[1..])
  }

  lemma {:induction false} EscapingNeverShortens(s: string)
    ensures |Encode(s)| <= EscapedBytes(s)
  {
    if s != "" {
      EscapingNeverShortens(s[1..]);
      CharsNeverShorten(s[0]);
    }
  }

  lemma CharsNeverShorten(c: char)
    ensures |EncodeChar(c)| <= CharBytes(c)
  {
  }

  lemma {:induction false} KeysNeverShorten(keys: seq<string>)
    ensures RawBytesOfKeys(keys) <= SizeOfKeys(keys)
  {
    if keys != [] {
      EscapingNeverShortens(keys[0]);
      KeysNeverShorten(keys[1..]);
    }
  }

  /** The raw count never exceeds the size, so stopping early on it never rejects what the size accepts. */
  lemma {:induction false} RawBytesWithinSize(t: Json)
    ensures RawBytes(t) <= Size(t)
    decreases t
  {
    match t
    case Str(s) => EscapingNeverShortens(s);
    case Arr(items) => AllRawBytesWithinSize(items);
    case Obj(keys, values) =>
      KeysNeverShorten(keys);
      AllRawBytesWithinSize(values);
    case _ =>
  }

  lemma {:induction false} AllRawBytesWithinSize(ts: seq<Json>)
    ensures RawBytesOfAll(ts) <= SizeOfAll(ts)
    decreases ts
  {
    if ts != [] {
      RawBytesWithinSize(ts[0]);
      AllRawBytesWithinSize(ts[1..]);
    }
  }

  // ----- Sums ----------------------------------------------------------------------------------------

  lemma {:induction false} EscapedBytesAdd(a: string, b: string)
    ensures EscapedBytes(a + b) == EscapedBytes(a) + EscapedBytes(b)
  {
    if a == "" {
      assert a + b == b;
    } else {
      assert (a + b)[1..] == a[1..] + b;
      EscapedBytesAdd(a[1..], b);
    }
  }

  lemma {:induction false} NodesAdd(a: seq<Json>, b: seq<Json>)
    ensures NodesOfAll(a + b) == NodesOfAll(a) + NodesOfAll(b)
  {
    if a == [] {
      assert a + b == b;
    } else {
      assert (a + b)[1..] == a[1..] + b;
      NodesAdd(a[1..], b);
    }
  }

  lemma {:induction false} SizesAdd(a: seq<Json>, b: seq<Json>)
    ensures SizeOfAll(a + b) == SizeOfAll(a) + SizeOfAll(b)
  {
    if a == [] {
      assert a + b == b;
    } else {
      assert (a + b)[1..] == a[1..] + b;
      SizesAdd(a[1..], b);
    }
  }

  lemma {:induction false} HeightsJoin(a: seq<Json>, b: seq<Json>)
    ensures HeightOfAll(a + b)
            == if HeightOfAll(a) > HeightOfAll(b) then HeightOfAll(a) else HeightOfAll(b)
  {
    if a == [] {
      assert a + b == b;
    } else {
      assert (a + b)[1..] == a[1..] + b;
      HeightsJoin(a[1..], b);
    }
  }

  lemma {:induction false} LeavesJoin(a: seq<Json>, b: seq<Json>)
    ensures AllLeavesAreFine(a + b) <==> AllLeavesAreFine(a) && AllLeavesAreFine(b)
  {
    if a == [] {
      assert a + b == b;
    } else {
      assert (a + b)[1..] == a[1..] + b;
      LeavesJoin(a[1..], b);
    }
  }

  lemma {:induction false} KeySizesAdd(a: seq<string>, b: seq<string>)
    ensures SizeOfKeys(a + b) == SizeOfKeys(a) + SizeOfKeys(b)
  {
    if a == [] {
      assert a + b == b;
    } else {
      assert (a + b)[1..] == a[1..] + b;
      KeySizesAdd(a[1..], b);
    }
  }

  // ----- One member more, or another -----------------------------------------------------------------

  lemma OfOne(value: Json)
    ensures NodesOfAll([value]) == Nodes(value) && SizeOfAll([value]) == Size(value)
    ensures HeightOfAll([value]) == Height(value) && (AllLeavesAreFine([value]) <==> LeavesAreFine(value))
  {
    hide Nodes, Size, LeavesAreFine, Height;
    assert [value][1..] == [];
  }

  lemma OfObjects(keys: seq<string>, values: seq<Json>)
    ensures var t := Obj(keys, values);
            && Nodes(t) == 1 + |keys| + NodesOfAll(values)
            && Size(t) == 2 + SizeOfKeys(keys) + SizeOfAll(values) + Commas(|keys|)
            && Height(t) == 1 + HeightOfAll(values)
            && (LeavesAreFine(t) <==> AllShort(keys) && AllLeavesAreFine(values))
  {
  }

  lemma InTheMiddle(front: seq<Json>, value: Json, back: seq<Json>)
    ensures NodesOfAll(front + [value] + back) == NodesOfAll(front) + Nodes(value) + NodesOfAll(back)
    ensures SizeOfAll(front + [value] + back) == SizeOfAll(front) + Size(value) + SizeOfAll(back)
    ensures HeightOfAll(front + [value] + back)
            == if Height(value) > HeightOfAll(front + back) then Height(value) else HeightOfAll(front + back)
    ensures AllLeavesAreFine(front + [value] + back) <==> AllLeavesAreFine(front + back) && LeavesAreFine(value)
  {
    hide Nodes, Size, LeavesAreFine, Height, NodesOfAll, SizeOfAll, HeightOfAll, AllLeavesAreFine;
    NodesAdd(front + [value], back);
    NodesAdd(front, [value]);
    SizesAdd(front + [value], back);
    SizesAdd(front, [value]);
    HeightsJoin(front, back);
    HeightsJoin(front + [value], back);
    HeightsJoin(front, [value]);
    LeavesJoin(front, back);
    LeavesJoin(front + [value], back);
    LeavesJoin(front, [value]);
    OfOne(value);
  }

  lemma MemberHeight(values: seq<Json>, k: nat)
    requires k < |values|
    ensures HeightOfAll(values) >= Height(values[k])
  {
    hide Height, HeightOfAll;
    assert values == values[..k] + [values[k]] + values[k + 1..];
    InTheMiddle(values[..k], values[k], values[k + 1..]);
  }

  lemma MemberLeaves(values: seq<Json>, k: nat)
    requires k < |values| && values[k].Str?
    ensures AllLeavesAreFine(values) ==> IsShort(values[k].text)
  {
    assert LeavesAreFine(values[k]) <==> IsShort(values[k].text);
    hide LeavesAreFine, AllLeavesAreFine, IsShort;
    assert values == values[..k] + [values[k]] + values[k + 1..];
    InTheMiddle(values[..k], values[k], values[k + 1..]);
  }

  lemma ShortKeys(keys: seq<string>, k: nat, key: string)
    requires k < |keys|
    ensures AllShort(keys[..k] + [key] + keys[k..]) <==> AllShort(keys) && IsShort(key)
  {
    hide IsShort;
    var more := keys[..k] + [key] + keys[k..];
    assert more[k] == key;
    assert forall i :: 0 <= i < k ==> more[i] == keys[i];
    assert forall i :: k <= i < |keys| ==> more[i + 1] == keys[i];
  }

  /** What one more member in the middle adds to an object. */
  lemma OneMoreMember(keys: seq<string>, values: seq<Json>, k: nat, key: string, value: Json)
    requires 0 < k < |keys| == |values|
    ensures var (more, less) := (Obj(keys[..k] + [key] + keys[k..], values[..k] + [value] + values[k..]),
                                 Obj(keys, values));
            && Nodes(more) == Nodes(less) + 1 + Nodes(value)
            && Size(more) == Size(less) + StringBytes(key) + 2 + Size(value)
            && (LeavesAreFine(more) <==> LeavesAreFine(less) && IsShort(key) && LeavesAreFine(value))
            && Height(more) == if Height(less) > 1 + Height(value) then Height(less) else 1 + Height(value)
  {
    hide Nodes, Size, LeavesAreFine, Height, StringBytes, IsShort;
    var (front, back) := (values[..k], values[k..]);
    assert values == front + back && keys == keys[..k] + keys[k..];
    KeySizesAdd(keys[..k], keys[k..]);
    KeySizesAdd(keys[..k] + [key], keys[k..]);
    KeySizesAdd(keys[..k], [key]);
    NodesAdd(front, back);
    SizesAdd(front, back);
    InTheMiddle(front, value, back);
    OfObjects(keys, values);
    OfObjects(keys[..k] + [key] + keys[k..], front + [value] + back);
    assert AllShort(keys[..k] + [key] + keys[k..]) <==> AllShort(keys) && IsShort(key) by {
      ShortKeys(keys, k, key);
    }
    assert SizeOfKeys([key]) == StringBytes(key) + 1;
  }

  /** One string of an object is exchanged for another. */
  lemma OtherString(keys: seq<string>, values: seq<Json>, k: nat, text: string)
    requires k < |keys| == |values| && values[k].Str? && IsShort(values[k].text) && IsShort(text)
    ensures var (other, t) := (Obj(keys, values[k := Str(text)]), Obj(keys, values));
            && Nodes(other) == Nodes(t) && Height(other) == Height(t)
            && Size(other) + Size(values[k]) == Size(t) + Size(Str(text))
            && (LeavesAreFine(other) <==> LeavesAreFine(t))
  {
    assert Nodes(Str(text)) == Nodes(values[k]) == 1 && Height(Str(text)) == Height(values[k]) == 0;
    assert LeavesAreFine(Str(text)) && LeavesAreFine(values[k]);
    hide Nodes, Size, LeavesAreFine, Height, IsShort;
    var (front, back) := (values[..k], values[k + 1..]);
    assert values == front + [values[k]] + back && values[k := Str(text)] == front + [Str(text)] + back;
    InTheMiddle(front, values[k], back);
    InTheMiddle(front, Str(text), back);
    OfObjects(keys, values);
    OfObjects(keys, values[k := Str(text)]);
  }

  // ----- Comparing trees -----------------------------------------------------------------------------

  /** `a` counts no more than `b` under any of the limits. */
  predicate NoLarger(a: Json, b: Json) {
    Nodes(a) <= Nodes(b) && Size(a) <= Size(b) && Height(a) <= Height(b) && (LeavesAreFine(b) ==> LeavesAreFine(a))
  }

  predicate NoneLarger(a: seq<Json>, b: seq<Json>) {
    && NodesOfAll(a) <= NodesOfAll(b) && SizeOfAll(a) <= SizeOfAll(b) && HeightOfAll(a) <= HeightOfAll(b)
    && (AllLeavesAreFine(b) ==> AllLeavesAreFine(a))
  }

  lemma SafeIfNoLarger(a: Json, b: Json)
    requires Safe(b) && NoLarger(a, b)
    ensures Safe(a)
  {
    hide Size, Nodes, LeavesAreFine, Height;
  }

  lemma JoinNoneLarger(a: seq<Json>, b: seq<Json>, c: seq<Json>, d: seq<Json>)
    requires NoneLarger(a, b) && NoneLarger(c, d)
    ensures NoneLarger(a + c, b + d)
  {
    hide SizeOfAll, NodesOfAll, AllLeavesAreFine, HeightOfAll;
    NodesAdd(a, c);
    NodesAdd(b, d);
    SizesAdd(a, c);
    SizesAdd(b, d);
    HeightsJoin(a, c);
    HeightsJoin(b, d);
    LeavesJoin(a, c);
    LeavesJoin(b, d);
  }

  lemma OneNoneLarger(a: Json, b: Json)
    requires NoLarger(a, b)
    ensures NoneLarger([a], [b])
  {
    assert [a][1..] == [] && [b][1..] == [];
    hide Size, Nodes, LeavesAreFine, Height;
  }

  /** One value of a list is exchanged for one that counts no more. */
  lemma ReplaceOne(values: seq<Json>, k: nat, v: Json)
    requires k < |values| && NoLarger(v, values[k])
    ensures NoneLarger(values[k := v], values)
  {
    hide NoneLarger, NoLarger;
    var (front, back) := (values[..k], values[k + 1..]);
    assert values == front + [values[k]] + back && values[k := v] == front + [v] + back;
    OneNoneLarger(v, values[k]);
    SameNoneLarger(front);
    SameNoneLarger(back);
    JoinNoneLarger(front, front, [v], [values[k]]);
    JoinNoneLarger(front + [v], front + [values[k]], back, back);
  }

  lemma SameNoneLarger(a: seq<Json>)
    ensures NoneLarger(a, a)
  {
  }

  lemma ObjNoLarger(keys: seq<string>, a: seq<Json>, b: seq<Json>)
    requires NoneLarger(a, b)
    ensures NoLarger(Obj(keys, a), Obj(keys, b))
  {
    hide SizeOfAll, NodesOfAll, AllLeavesAreFine, HeightOfAll;
  }

  lemma ArrNoLarger(a: seq<Json>, b: seq<Json>)
    requires NoneLarger(a, b) && |a| <= |b|
    ensures NoLarger(Arr(a), Arr(b))
  {
    hide SizeOfAll, NodesOfAll, AllLeavesAreFine, HeightOfAll;
  }

  lemma PrefixNoneLarger(a: seq<Json>, n: nat)
    requires n <= |a|
    ensures NoneLarger(a[..n], a)
  {
    hide SizeOfAll, NodesOfAll, AllLeavesAreFine, HeightOfAll;
    assert a == a[..n] + a[n..];
    NodesAdd(a[..n], a[n..]);
    SizesAdd(a[..n], a[n..]);
    HeightsJoin(a[..n], a[n..]);
    LeavesJoin(a[..n], a[n..]);
  }

  /** Characters that JSON leaves alone and that take one octet. */
  predicate IsPlain(c: char) {
    32 <= c as int < 127 && c != '"' && c != '\\'
  }

  lemma {:induction false} PlainBytes(s: string)
    requires forall i :: 0 <= i < |s| ==> IsPlain(s[i])
    ensures EscapedBytes(s) == |s|
  {
    if s != "" {
      PlainBytes(s[1..]);
    }
  }
}
