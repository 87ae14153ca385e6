/**
 Sorting the keys of every object, as `json.dumps` does with `sort_keys`: the order in which a dictionary was filled
 leaves no trace in the canonical text, and nothing else is lost.
 */
module CanonicalOrder {
  import opened Utf8
  import opened JsonSafety
  import opened CanonicalText
  import opened Sequences

  datatype Member = Member(key: string, value: Json)

  function Members(keys: seq<string>, values: seq<Json>): (ms: seq<Member>)
    requires |keys| == |values|
    ensures |ms| == |keys|
  {
    if keys == [] then [] else [Member(keys[0], values[0])] + Members(keys[1..], values[1..])
  }

  function KeysOf(ms: seq<Member>): (keys: seq<string>)
    ensures |keys| == |ms|
  {
    if ms == [] then [] else [ms[0].key] + KeysOf(ms[1..])
  }

  function ValuesOf(ms: seq<Member>): (values: seq<Json>)
    ensures |values| == |ms|
  {
    if ms == [] then [] else [ms[0].value] + ValuesOf(ms[1..])
  }

  // ----- The order of keys ---------------------------------------------------------------------------

  /** Python's `<` on strings: by code points. */
  predicate IsBefore(a: string, b: string) {
    if a == "" then b != ""
    else b != "" && (a[0] < b[0] || (a[0] == b[0] && IsBefore(a[1..], b[1..])))
  }

  lemma {:induction false} OneIsBefore(a: string, b: string)
    ensures a == b || IsBefore(a, b) || IsBefore(b, a)
    ensures !(IsBefore(a, b) && IsBefore(b, a)) && !IsBefore(a, a)
  {
    if a != "" && b != "" {
      OneIsBefore(a[1..], b[1..]);
      assert a == [a[0]] + a[1..] && b == [b[0]] + b[1..];
    }
    if a != "" {
      OneIsBefore(a[1..], a[1..]);
    }
  }

  lemma {:induction false} BeforeIsTransitive(a: string, b: string, c: string)
    requires IsBefore(a, b) && IsBefore(b, c)
    ensures IsBefore(a, c)
  {
    if a != "" && b != "" && c != "" && a[0] == b[0] == c[0] {
      BeforeIsTransitive(a[1..], b[1..], c[1..]);
    }
  }

  // ----- Sorting -------------------------------------------------------------------------------------

  function Insert(m: Member, ms: seq<Member>): (longer: seq<Member>)
    ensures |longer| == |ms| + 1
  {
    if ms == [] then [m]
    else if IsBefore(ms[0].key, m.key) then [ms[0]] + Insert(m, ms[1..])
    else [m] + ms
  }

  function SortedMembers(ms: seq<Member>): (sorted: seq<Member>)
    ensures |sorted| == |ms|
  {
    if ms == [] then [] else Insert(ms[0], SortedMembers(ms[1..]))
  }

  /** The tree with the keys of every object sorted. */
  function Sorted(t: Json): Json {
    match t
    case Arr(items) => Arr(SortedAll(items))
    case Obj(keys, values) =>
      var sorted := SortedAll(values);
      if |keys| != |sorted| then t
      else
        var ms := SortedMembers(Members(keys, sorted));
        Obj(KeysOf(ms), ValuesOf(ms))
    case _ => t
  }

  function SortedAll(ts: seq<Json>): (sorted: seq<Json>)
    ensures |sorted| == |ts|
  {
    if ts == [] then [] else [Sorted(ts[0])] + SortedAll(ts[1..])
  }

  // ----- Nothing is lost -----------------------------------------------------------------------------

  lemma {:induction false} InsertedIsThere(m: Member, ms: seq<Member>)
    ensures multiset(Insert(m, ms)) == multiset{m} + multiset(ms)
  {
    if ms != [] {
      assert ms == [ms[0]] + ms[1..];
      if IsBefore(ms[0].key, m.key) {
        InsertedIsThere(m, ms[1..]);
      }
    }
  }

  /** Sorting is a permutation of the members. */
  lemma {:induction false} SortedIsPermutation(ms: seq<Member>)
    ensures multiset(SortedMembers(ms)) == multiset(ms)
  {
    hide Insert;
    if ms != [] {
      SortedIsPermutation(ms[1..]);
      InsertedIsThere(ms[0], SortedMembers(ms[1..]));
      assert ms == [ms[0]] + ms[1..];
    }
  }

  /** Nothing but the new member and the old ones. */
  lemma InsertedFrom(m: Member, ms: seq<Member>, i: nat)
    requires i <= |ms|
    ensures Insert(m, ms)[i] == m || Insert(m, ms)[i] in ms
  {
    hide Insert;
    InsertedIsThere(m, ms);
    assert Insert(m, ms)[i] in multiset(Insert(m, ms));
  }

  lemma InsertNext(m: Member, first: Member, rest: seq<Member>)
    requires IsBefore(first.key, m.key)
    ensures Insert(m, [first] + rest) == [first] + Insert(m, rest)
  {
    assert ([first] + rest)[1..] == rest;
  }

  predicate IsOrdered(ms: seq<Member>) {
    forall i, j :: 0 <= i < j < |ms| ==> !IsBefore(ms[j].key, ms[i].key)
  }

  lemma {:induction false} InsertKeepsOrder(m: Member, ms: seq<Member>)
    requires IsOrdered(ms)
    ensures IsOrdered(Insert(m, ms))
  {
    if ms != [] {
      var rest := ms[1..];
      var after := Insert(m, ms);
      if IsBefore(ms[0].key, m.key) {
        InsertKeepsOrder(m, rest);
        hide Insert, IsBefore;
        assert ms == [ms[0]] + rest;
        InsertNext(m, ms[0], rest);
        OneIsBefore(ms[0].key, m.key);
        forall j | 0 <= j < |Insert(m, rest)|
          ensures !IsBefore(Insert(m, rest)[j].key, ms[0].key)
        {
          InsertedFrom(m, rest, j);
        }
      } else {
        hide IsBefore;
        forall j | 0 < j < |after|
          ensures !IsBefore(after[j].key, m.key)
        {
          NotBeforeIsTransitive(m.key, ms[0].key, ms[j - 1].key);
        }
      }
    }
  }

  lemma NotBeforeIsTransitive(a: string, b: string, c: string)
    requires !IsBefore(b, a) && (b == c || !IsBefore(c, b))
    ensures !IsBefore(c, a)
  {
    if IsBefore(c, a) && b != c {
      OneIsBefore(b, c);
      BeforeIsTransitive(b, c, a);
    }
  }

  lemma {:induction false} SortedIsOrdered(ms: seq<Member>)
    ensures IsOrdered(SortedMembers(ms))
  {
    if ms != [] {
      SortedIsOrdered(ms[1..]);
      InsertKeepsOrder(ms[0], SortedMembers(ms[1..]));
    }
  }

  // ----- One order only ------------------------------------------------------------------------------

  predicate HasDistinctKeys(ms: seq<Member>) {
    forall i, j :: 0 <= i < j < |ms| ==> ms[i].key != ms[j].key
  }

  lemma {:induction false} InsertKeepsDistinct(m: Member, ms: seq<Member>)
    requires HasDistinctKeys(ms) && forall i :: 0 <= i < |ms| ==> ms[i].key != m.key
    ensures HasDistinctKeys(Insert(m, ms))
  {
    if ms != [] && IsBefore(ms[0].key, m.key) {
      var first, rest := ms[0], ms[1..];
      InsertKeepsDistinct(m, rest);
      hide Insert;
      assert ms == [first] + rest;
      InsertNext(m, first, rest);
      forall j | 0 <= j < |Insert(m, rest)|
        ensures Insert(m, rest)[j].key != first.key
      {
        InsertedFrom(m, rest, j);
      }
    }
  }

  lemma {:induction false} SortedHasDistinctKeys(ms: seq<Member>)
    requires HasDistinctKeys(ms)
    ensures HasDistinctKeys(SortedMembers(ms))
  {
    if ms != [] {
      var rest := ms[1..];
      SortedHasDistinctKeys(rest);
      SortedIsPermutation(rest);
      forall i | 0 <= i < |SortedMembers(rest)|
        ensures SortedMembers(rest)[i].key != ms[0].key
      {
        assert SortedMembers(rest)[i] in multiset(rest);
      }
      InsertKeepsDistinct(ms[0], SortedMembers(rest));
    }
  }

  /** The first of the one list is the first of the other. */
  lemma FirstsAreTheSame(a: seq<Member>, b: seq<Member>)
    requires IsOrdered(a) && IsOrdered(b) && HasDistinctKeys(a) && multiset(a) == multiset(b) && a != []
    ensures b != [] && a[0] == b[0]
  {
    assert a[0] in multiset(b);
    assert b[0] in multiset(a);
    OneIsBefore(a[0].key, b[0].key);
  }

  lemma RestOf(ms: seq<Member>)
    requires ms != []
    ensures multiset(ms[1..]) == multiset(ms) - multiset{ms[0]}
  {
    assert ms == [ms[0]] + ms[1..];
  }

  lemma {:induction false} OrderedIsUnique(a: seq<Member>, b: seq<Member>)
    requires IsOrdered(a) && IsOrdered(b) && HasDistinctKeys(a) && multiset(a) == multiset(b)
    ensures a == b
  {
    if a == [] {
      assert |multiset(b)| == |b|;
    } else {
      FirstsAreTheSame(a, b);
      RestOf(a);
      RestOf(b);
      OrderedIsUnique(a[1..], b[1..]);
      assert a == [a[0]] + a[1..] && b == [b[0]] + b[1..];
    }
  }

  lemma {:induction false} MembersAreBoth(ms: seq<Member>)
    ensures Members(KeysOf(ms), ValuesOf(ms)) == ms
  {
    if ms != [] {
      MembersAreBoth(ms[1..]);
    }
  }

  lemma {:induction false} BothAreMembers(keys: seq<string>, values: seq<Json>)
    requires |keys| == |values|
    ensures KeysOf(Members(keys, values)) == keys && ValuesOf(Members(keys, values)) == values
  {
    if keys != [] {
      BothAreMembers(keys[1..], values[1..]);
      assert Members(keys, values)[1..] == Members(keys[1..], values[1..]);
      assert keys == [keys[0]] + keys[1..] && values == [values[0]] + values[1..];
    }
  }

  lemma {:induction false} MemberKeys(keys: seq<string>, values: seq<Json>)
    requires |keys| == |values|
    ensures forall i :: 0 <= i < |keys| ==> Members(keys, values)[i].key == keys[i]
  {
    if keys != [] {
      MemberKeys(keys[1..], values[1..]);
      forall i | 0 < i < |keys|
        ensures Members(keys, values)[i].key == keys[i]
      {
        assert Members(keys, values)[i] == Members(keys[1..], values[1..])[i - 1];
      }
    }
  }

  function SortedOf(keys: seq<string>, values: seq<Json>): seq<Member>
    requires |keys| == |values|
  {
    SortedMembers(Members(keys, SortedAll(values)))
  }

  lemma SortedObjectIs(keys: seq<string>, values: seq<Json>)
    requires |keys| == |values|
    ensures Sorted(Obj(keys, values)) == Obj(KeysOf(SortedOf(keys, values)), ValuesOf(SortedOf(keys, values)))
    ensures NoRepeats(keys) ==> HasDistinctKeys(SortedOf(keys, values))
    ensures IsOrdered(SortedOf(keys, values))
    ensures multiset(SortedOf(keys, values)) == multiset(Members(keys, SortedAll(values)))
    ensures Members(KeysOf(SortedOf(keys, values)), ValuesOf(SortedOf(keys, values))) == SortedOf(keys, values)
  {
    hide KeysOf, ValuesOf, Members, SortedMembers, SortedAll, IsOrdered;
    var ms := Members(keys, SortedAll(values));
    BothAreMembers(keys, SortedAll(values));
    if NoRepeats(keys) {
      MemberKeys(keys, SortedAll(values));
      SortedHasDistinctKeys(ms);
    }
    SortedIsOrdered(ms);
    SortedIsPermutation(ms);
    MembersAreBoth(SortedMembers(ms));
  }

  /** Two dictionaries have the same canonical tree exactly if they have the same members, in whatever order. */
  lemma OrderLeavesNoTrace(keys: seq<string>, values: seq<Json>, keys': seq<string>, values': seq<Json>)
    requires |keys| == |values| && |keys'| == |values'| && NoRepeats(keys)
    ensures Sorted(Obj(keys, values)) == Sorted(Obj(keys', values'))
            <==> multiset(Members(keys, SortedAll(values))) == multiset(Members(keys', SortedAll(values')))
  {
    hide Sorted, SortedOf, KeysOf, ValuesOf, Members, SortedAll, IsOrdered, HasDistinctKeys;
    SortedObjectIs(keys, values);
    SortedObjectIs(keys', values');
    var (a, b) := (SortedOf(keys, values), SortedOf(keys', values'));
    if multiset(a) == multiset(b) {
      OrderedIsUnique(a, b);
    }
  }

  // ----- The limits do not see the order -------------------------------------------------------------

  lemma {:induction false} InsertCounts(m: Member, ms: seq<Member>)
    ensures var (v, w) := (ValuesOf(Insert(m, ms)), ValuesOf(ms));
            && NodesOfAll(v) == Nodes(m.value) + NodesOfAll(w) && SizeOfAll(v) == Size(m.value) + SizeOfAll(w)
            && HeightOfAll(v) == (if Height(m.value) > HeightOfAll(w) then Height(m.value) else HeightOfAll(w))
            && (AllLeavesAreFine(v) <==> LeavesAreFine(m.value) && AllLeavesAreFine(w))
            && (AllWellFormed(v) <==> IsWellFormed(m.value) && AllWellFormed(w))
    ensures SizeOfKeys(KeysOf(Insert(m, ms))) == StringBytes(m.key) + 1 + SizeOfKeys(KeysOf(ms))
    ensures AllShort(KeysOf(Insert(m, ms))) <==> IsShort(m.key) && AllShort(KeysOf(ms))
  {
    hide Nodes, Size, Height, LeavesAreFine, IsWellFormed, IsShort, StringBytes;
    if ms != [] && IsBefore(ms[0].key, m.key) {
      InsertCounts(m, ms[1..]);
      assert Insert(m, ms)[1..] == Insert(m, ms[1..]);
      ShortHead(Insert(m, ms));
      ShortHead(ms);
    } else {
      assert Insert(m, ms)[1..] == ms;
      ShortHead(Insert(m, ms));
    }
  }

  lemma ShortHead(ms: seq<Member>)
    ensures ms == [] ==> AllShort(KeysOf(ms))
    ensures ms != [] ==> (AllShort(KeysOf(ms)) <==> IsShort(ms[0].key) && AllShort(KeysOf(ms[1..])))
  {
    hide AllShort;
    ShortFirst("", []);
    if ms != [] {
      ShortFirst(ms[0].key, KeysOf(ms[1..]));
    }
  }

  lemma ShortFirst(key: string, keys: seq<string>)
    ensures AllShort([])
    ensures AllShort([key] + keys) <==> IsShort(key) && AllShort(keys)
  {
    hide IsShort;
    var all := [key] + keys;
    assert all[0] == key;
    assert forall i :: 0 <= i < |keys| ==> keys[i] == all[i + 1];
  }

  lemma {:induction false} SortedMembersCount(ms: seq<Member>)
    ensures var (v, w) := (ValuesOf(SortedMembers(ms)), ValuesOf(ms));
            && NodesOfAll(v) == NodesOfAll(w) && SizeOfAll(v) == SizeOfAll(w) && HeightOfAll(v) == HeightOfAll(w)
            && (AllLeavesAreFine(v) <==> AllLeavesAreFine(w)) && (AllWellFormed(v) <==> AllWellFormed(w))
    ensures SizeOfKeys(KeysOf(SortedMembers(ms))) == SizeOfKeys(KeysOf(ms))
    ensures AllShort(KeysOf(SortedMembers(ms))) <==> AllShort(KeysOf(ms))
  {
    hide Nodes, Size, Height, LeavesAreFine, IsWellFormed, IsShort, StringBytes, Insert;
    if ms != [] {
      SortedMembersCount(ms[1..]);
      InsertCounts(ms[0], SortedMembers(ms[1..]));
      ShortHead(ms);
    }
  }

  predicate CountsAlike(a: Json, b: Json) {
    && Nodes(a) == Nodes(b) && Size(a) == Size(b) && Height(a) == Height(b)
    && (LeavesAreFine(a) <==> LeavesAreFine(b)) && (IsWellFormed(a) <==> IsWellFormed(b))
  }

  predicate AllCountAlike(a: seq<Json>, b: seq<Json>) {
    && |a| == |b|
    && NodesOfAll(a) == NodesOfAll(b) && SizeOfAll(a) == SizeOfAll(b) && HeightOfAll(a) == HeightOfAll(b)
    && (AllLeavesAreFine(a) <==> AllLeavesAreFine(b)) && (AllWellFormed(a) <==> AllWellFormed(b))
  }

  lemma {:induction false} SortedCountsAlike(t: Json)
    ensures CountsAlike(Sorted(t), t)
    decreases t
  {
    match t
    case Arr(items) => AllSortedCountAlike(items);
    case Obj(keys, values) =>
      AllSortedCountAlike(values);
      if |keys| == |values| {
        var ms := Members(keys, SortedAll(values));
        BothAreMembers(keys, SortedAll(values));
        SortedMembersCount(ms);
        SortedIsPermutation(ms);
        ObjectsCountAlike(keys, values, KeysOf(SortedMembers(ms)), ValuesOf(SortedMembers(ms)));
      }
    case _ =>
  }

  lemma ObjectsCountAlike(keys: seq<string>, values: seq<Json>, keys': seq<string>, values': seq<Json>)
    requires |keys| == |values| == |keys'| && AllCountAlike(values', values)
    requires SizeOfKeys(keys') == SizeOfKeys(keys) && (AllShort(keys') <==> AllShort(keys))
    ensures CountsAlike(Obj(keys', values'), Obj(keys, values))
  {
    hide NodesOfAll, SizeOfAll, HeightOfAll, AllLeavesAreFine, AllWellFormed, SizeOfKeys, AllShort;
  }

  lemma {:induction false} AllSortedCountAlike(ts: seq<Json>)
    ensures AllCountAlike(SortedAll(ts), ts)
    decreases ts
  {
    hide Sorted, Nodes, Size, Height, LeavesAreFine, IsWellFormed;
    if ts != [] {
      SortedCountsAlike(ts[0]);
      AllSortedCountAlike(ts[1..]);
    }
  }

  /** The canonical text, whose length in octets is the size of the tree that the limits are checked against. */
  function TextOf(t: Json): string {
    Print(Sorted(t))
  }

  lemma TextHasTheSize(t: Json)
    requires IsWellFormed(t)
    ensures |Encode(TextOf(t))| == Size(t)
  {
    hide Print, Size, Sorted, IsWellFormed, Encode, Nodes, Height, LeavesAreFine;
    SortedCountsAlike(t);
    SizeIsTheLength(Sorted(t));
  }
}
