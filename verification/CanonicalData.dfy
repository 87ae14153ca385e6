/** Which values have the same canonical tree: exactly those that Python takes to be equal lists and dictionaries. */
module CanonicalData {
  import opened JsonSafety
  import opened CanonicalOrder
  import opened Sequences

  /** As Python builds dictionaries: every key has its value, and no key comes twice, at any depth. */
  predicate IsData(t: Json) {
    match t
    case Arr(items) => forall i :: 0 <= i < |items| ==> IsData(items[i])
    case Obj(keys, values) =>
      |keys| == |values| && NoRepeats(keys) && forall i :: 0 <= i < |values| ==> IsData(values[i])
    case _ => true
  }

  predicate SameKeys(ks: seq<string>, ls: seq<string>) {
    (forall k :: k in ks ==> k in ls) && (forall l :: l in ls ==> l in ks)
  }

  /** Equal lists, and dictionaries that have equal values under the same keys, in whatever order. */
  predicate Agree(t: Json, u: Json) {
    match (t, u)
    case (Arr(a), Arr(b)) => |a| == |b| && forall i :: 0 <= i < |a| ==> Agree(a[i], b[i])
    case (Obj(ks, vs), Obj(ls, ws)) =>
      && |ks| == |vs| && |ls| == |ws| && SameKeys(ks, ls)
      && forall i, j :: 0 <= i < |vs| && 0 <= j < |ws| && ks[i] == ls[j] ==> Agree(vs[i], ws[j])
    case _ => t == u
  }

  // ----- The members of a dictionary, one by one -----------------------------------------------------

  lemma {:induction false} SortedAllAt(ts: seq<Json>)
    ensures forall i :: 0 <= i < |ts| ==> SortedAll(ts)[i] == Sorted(ts[i])
  {
    hide Sorted;
    if ts != [] {
      SortedAllAt(ts[1..]);
      forall i | 0 < i < |ts|
        ensures SortedAll(ts)[i] == Sorted(ts[i])
      {
        assert SortedAll(ts)[i] == SortedAll(ts[1..])[i - 1];
      }
    }
  }

  lemma {:induction false} MembersAt(keys: seq<string>, values: seq<Json>)
    requires |keys| == |values|
    ensures forall i :: 0 <= i < |keys| ==> Members(keys, values)[i] == Member(keys[i], values[i])
  {
    if keys != [] {
      MembersAt(keys[1..], values[1..]);
      forall i | 0 < i < |keys|
        ensures Members(keys, values)[i] == Member(keys[i], values[i])
      {
        assert Members(keys, values)[i] == Members(keys[1..], values[1..])[i - 1];
      }
    }
  }

  lemma CanonicalMembersAt(keys: seq<string>, values: seq<Json>)
    requires |keys| == |values|
    ensures forall i :: 0 <= i < |keys| ==> Members(keys, SortedAll(values))[i] == Member(keys[i], Sorted(values[i]))
  {
    hide Sorted, SortedAll, Members;
    SortedAllAt(values);
    MembersAt(keys, SortedAll(values));
  }

  lemma {:induction false} OnceOrNever(ms: seq<Member>, m: Member)
    requires HasDistinctKeys(ms)
    ensures multiset(ms)[m] == if m in ms then 1 else 0
  {
    if ms != [] {
      OnceOrNever(ms[1..], m);
      assert ms == [ms[0]] + ms[1..];
    }
  }

  /** Members without repeats are the same bag exactly if they are the same set. */
  lemma SameMembers(a: seq<Member>, b: seq<Member>)
    requires HasDistinctKeys(a) && HasDistinctKeys(b)
    ensures multiset(a) == multiset(b) <==> (forall m :: m in a ==> m in b) && (forall m :: m in b ==> m in a)
  {
    hide HasDistinctKeys;
    forall m | true
      ensures multiset(a)[m] == if m in a then 1 else 0
      ensures multiset(b)[m] == if m in b then 1 else 0
    {
      OnceOrNever(a, m);
      OnceOrNever(b, m);
    }
    if multiset(a) == multiset(b) {
      forall m | m in a
        ensures m in b
      {
        assert m in multiset(b);
      }
      forall m | m in b
        ensures m in a
      {
        assert m in multiset(a);
      }
    }
  }

  // ----- Sorted alike --------------------------------------------------------------------------------

  lemma ArraysAlike(a: seq<Json>, b: seq<Json>)
    requires forall i :: 0 <= i < |a| && i < |b| ==> (Sorted(a[i]) == Sorted(b[i]) <==> Agree(a[i], b[i]))
    ensures Sorted(Arr(a)) == Sorted(Arr(b)) <==> Agree(Arr(a), Arr(b))
  {
    SortedArr(a);
    SortedArr(b);
    SortedAllAt(a);
    SortedAllAt(b);
    AgreeArr(a, b);
    hide Sorted, SortedAll, Agree;
    if SortedAll(a) == SortedAll(b) {
      assert forall i :: 0 <= i < |a| ==> SortedAll(a)[i] == SortedAll(b)[i];
    } else if |a| == |b| {
      var i :| 0 <= i < |a| && SortedAll(a)[i] != SortedAll(b)[i];
    }
  }

  lemma SortedArr(a: seq<Json>)
    ensures Sorted(Arr(a)) == Arr(SortedAll(a))
  {
  }

  lemma AgreeArr(a: seq<Json>, b: seq<Json>)
    ensures Agree(Arr(a), Arr(b)) <==> |a| == |b| && forall i :: 0 <= i < |a| ==> Agree(a[i], b[i])
  {
  }

  lemma AgreeObj(ks: seq<string>, vs: seq<Json>, ls: seq<string>, ws: seq<Json>)
    requires |ks| == |vs| && |ls| == |ws|
    ensures Agree(Obj(ks, vs), Obj(ls, ws))
            <==> SameKeys(ks, ls)
                 && forall i, j :: 0 <= i < |vs| && 0 <= j < |ws| && ks[i] == ls[j] ==> Agree(vs[i], ws[j])
  {
    hide SameKeys;
  }

  lemma DistinctMembers(keys: seq<string>, values: seq<Json>)
    requires |keys| == |values| && NoRepeats(keys)
    ensures HasDistinctKeys(Members(keys, SortedAll(values)))
  {
    hide Sorted, SortedAll, Members;
    MembersAt(keys, SortedAll(values));
  }

  lemma ObjectsAlike(ks: seq<string>, vs: seq<Json>, ls: seq<string>, ws: seq<Json>)
    requires |ks| == |vs| && |ls| == |ws| && NoRepeats(ks) && NoRepeats(ls)
    requires forall i, j :: 0 <= i < |vs| && 0 <= j < |ws| ==> (Sorted(vs[i]) == Sorted(ws[j]) <==> Agree(vs[i], ws[j]))
    ensures Sorted(Obj(ks, vs)) == Sorted(Obj(ls, ws)) <==> Agree(Obj(ks, vs), Obj(ls, ws))
  {
    hide Sorted, Agree, SortedAll, Members, HasDistinctKeys;
    OrderLeavesNoTrace(ks, vs, ls, ws);
    AgreeObj(ks, vs, ls, ws);
    DistinctMembers(ks, vs);
    DistinctMembers(ls, ws);
    var (a, b) := (Members(ks, SortedAll(vs)), Members(ls, SortedAll(ws)));
    SameMembers(a, b);
    CanonicalMembersAt(ks, vs);
    CanonicalMembersAt(ls, ws);
    if multiset(a) == multiset(b) {
      SameBagsAgree(ks, vs, ls, ws);
    } else if Agree(Obj(ks, vs), Obj(ls, ws)) {
      AgreeingHaveSameBags(ks, vs, ls, ws);
    }
  }

  lemma SameBagsAgree(ks: seq<string>, vs: seq<Json>, ls: seq<string>, ws: seq<Json>)
    requires |ks| == |vs| && |ls| == |ws| && NoRepeats(ks) && NoRepeats(ls)
    requires forall i, j :: 0 <= i < |vs| && 0 <= j < |ws| ==> (Sorted(vs[i]) == Sorted(ws[j]) <==> Agree(vs[i], ws[j]))
    requires forall m :: m in Members(ks, SortedAll(vs)) <==> m in Members(ls, SortedAll(ws))
    ensures SameKeys(ks, ls)
    ensures forall i, j :: 0 <= i < |vs| && 0 <= j < |ws| && ks[i] == ls[j] ==> Agree(vs[i], ws[j])
  {
    hide Sorted, Agree, SortedAll, Members;
    var (a, b) := (Members(ks, SortedAll(vs)), Members(ls, SortedAll(ws)));
    CanonicalMembersAt(ks, vs);
    CanonicalMembersAt(ls, ws);
    forall i | 0 <= i < |ks|
      ensures ks[i] in ls
      ensures forall j :: 0 <= j < |ls| && ls[j] == ks[i] ==> Sorted(ws[j]) == Sorted(vs[i])
    {
      assert a[i] in b;
      var j :| 0 <= j < |b| && b[j] == a[i];
    }
    forall j | 0 <= j < |ls|
      ensures ls[j] in ks
    {
      assert b[j] in a;
      var i :| 0 <= i < |a| && a[i] == b[j];
    }
  }

  lemma AgreeingHaveSameBags(ks: seq<string>, vs: seq<Json>, ls: seq<string>, ws: seq<Json>)
    requires |ks| == |vs| && |ls| == |ws| && SameKeys(ks, ls)
    requires forall i, j :: 0 <= i < |vs| && 0 <= j < |ws| && ks[i] == ls[j] ==> Sorted(vs[i]) == Sorted(ws[j])
    ensures forall m :: m in Members(ks, SortedAll(vs)) <==> m in Members(ls, SortedAll(ws))
  {
    hide Sorted, SortedAll, Members;
    var (a, b) := (Members(ks, SortedAll(vs)), Members(ls, SortedAll(ws)));
    CanonicalMembersAt(ks, vs);
    CanonicalMembersAt(ls, ws);
    forall i | 0 <= i < |a|
      ensures a[i] in b
    {
      assert ks[i] in ls;
      var j :| 0 <= j < |ls| && ls[j] == ks[i];
      assert b[j] == a[i];
    }
    forall j | 0 <= j < |b|
      ensures b[j] in a
    {
      assert ls[j] in ks;
      var i :| 0 <= i < |ks| && ks[i] == ls[j];
      assert a[i] == b[j];
    }
  }

  lemma OthersAlike(t: Json, u: Json)
    requires !(t.Arr? && u.Arr?) && !(t.Obj? && u.Obj?)
    ensures Sorted(t) == Sorted(u) <==> Agree(t, u)
  {
    hide SortedAll, SortedMembers, Members, KeysOf, ValuesOf;
  }

  /** Two values have the same canonical tree if and only if they are equal, whatever order their keys came in. */
  lemma {:induction false} SortedAlikeIfAgree(t: Json, u: Json)
    requires IsData(t) && IsData(u)
    ensures Sorted(t) == Sorted(u) <==> Agree(t, u)
    decreases t
  {
    hide Sorted, Agree, NoRepeats;
    if t.Arr? && u.Arr? {
      forall i | 0 <= i < |t.items| && i < |u.items|
        ensures Sorted(t.items[i]) == Sorted(u.items[i]) <==> Agree(t.items[i], u.items[i])
      {
        SortedAlikeIfAgree(t.items[i], u.items[i]);
      }
      ArraysAlike(t.items, u.items);
    } else if t.Obj? && u.Obj? {
      forall i, j | 0 <= i < |t.values| && 0 <= j < |u.values|
        ensures Sorted(t.values[i]) == Sorted(u.values[j]) <==> Agree(t.values[i], u.values[j])
      {
        SortedAlikeIfAgree(t.values[i], u.values[j]);
      }
      ObjectsAlike(t.keys, t.values, u.keys, u.values);
    } else {
      OthersAlike(t, u);
    }
  }

  // ----- Sorted at every depth -----------------------------------------------------------------------

  /** No key stands before a smaller one, at any depth. */
  predicate IsSorted(t: Json) {
    match t
    case Arr(items) => forall i :: 0 <= i < |items| ==> IsSorted(items[i])
    case Obj(keys, values) =>
      && (forall i, j :: 0 <= i < j < |keys| ==> !IsBefore(keys[j], keys[i]))
      && forall i :: 0 <= i < |values| ==> IsSorted(values[i])
    case _ => true
  }

  lemma {:induction false} SortedIsSorted(t: Json)
    requires IsData(t)
    ensures IsSorted(Sorted(t))
    decreases t
  {
    hide NoRepeats;
    match t
    case Arr(items) =>
      SortedArr(items);
      SortedAllAt(items);
      hide Sorted, SortedAll;
      forall i | 0 <= i < |items|
        ensures IsSorted(Sorted(items[i]))
      {
        SortedIsSorted(items[i]);
      }
    case Obj(keys, values) =>
      forall i | 0 <= i < |values|
        ensures IsSorted(Sorted(values[i]))
      {
        SortedIsSorted(values[i]);
      }
      hide Sorted, IsSorted, IsData;
      SortedObjectIsSorted(keys, values);
    case _ =>
  }

  lemma KeysAndValuesAt(ms: seq<Member>)
    ensures forall i :: 0 <= i < |ms| ==> KeysOf(ms)[i] == ms[i].key && ValuesOf(ms)[i] == ms[i].value
  {
    hide KeysOf, ValuesOf, Members;
    MembersAreBoth(ms);
    MembersAt(KeysOf(ms), ValuesOf(ms));
  }

  lemma SortedObjectIsSorted(keys: seq<string>, values: seq<Json>)
    requires |keys| == |values| && forall i :: 0 <= i < |values| ==> IsSorted(Sorted(values[i]))
    ensures IsSorted(Sorted(Obj(keys, values)))
  {
    hide Sorted, SortedOf, KeysOf, ValuesOf, Members, SortedAll, IsBefore;
    SortedObjectIs(keys, values);
    var (ms, bag) := (SortedOf(keys, values), Members(keys, SortedAll(values)));
    KeysAndValuesAt(ms);
    CanonicalMembersAt(keys, values);
    forall i | 0 <= i < |ms|
      ensures IsSorted(ms[i].value)
    {
      assert ms[i] in multiset(bag);
      var j :| 0 <= j < |bag| && bag[j] == ms[i];
    }
  }

  /** Sorting changes nothing but the order of keys. */
  lemma {:induction false} SortingAgrees(t: Json)
    requires IsData(t)
    ensures Agree(t, Sorted(t))
    decreases t
  {
    hide NoRepeats;
    match t
    case Arr(items) =>
      SortedArr(items);
      SortedAllAt(items);
      AgreeArr(items, SortedAll(items));
      hide Sorted, SortedAll, Agree;
      forall i | 0 <= i < |items|
        ensures Agree(items[i], Sorted(items[i]))
      {
        SortingAgrees(items[i]);
      }
    case Obj(keys, values) =>
      forall i | 0 <= i < |values|
        ensures Agree(values[i], Sorted(values[i]))
      {
        SortingAgrees(values[i]);
      }
      hide Sorted, Agree;
      SortedObjectAgrees(keys, values);
    case _ => LeavesAgree(t);
  }

  lemma LeavesAgree(t: Json)
    requires !t.Arr? && !t.Obj?
    ensures Agree(t, Sorted(t))
  {
  }

  lemma SortedObjectAgrees(keys: seq<string>, values: seq<Json>)
    requires |keys| == |values| && NoRepeats(keys)
    requires forall i :: 0 <= i < |values| ==> Agree(values[i], Sorted(values[i]))
    ensures Agree(Obj(keys, values), Sorted(Obj(keys, values)))
  {
    hide Sorted, SortedOf, KeysOf, ValuesOf, Members, SortedAll, Agree, IsOrdered, HasDistinctKeys;
    SortedObjectIs(keys, values);
    var (ms, bag) := (SortedOf(keys, values), Members(keys, SortedAll(values)));
    KeysAndValuesAt(ms);
    CanonicalMembersAt(keys, values);
    AgreeObj(keys, values, KeysOf(ms), ValuesOf(ms));
    forall j | 0 <= j < |ms|
      ensures ms[j].key in keys
      ensures forall i :: 0 <= i < |keys| && keys[i] == ms[j].key ==> Agree(values[i], ms[j].value)
    {
      assert ms[j] in multiset(bag);
      var k :| 0 <= k < |bag| && bag[k] == ms[j];
    }
    forall i | 0 <= i < |keys|
      ensures keys[i] in KeysOf(ms)
    {
      assert bag[i] in multiset(ms);
      var j :| 0 <= j < |ms| && ms[j] == bag[i];
      assert KeysOf(ms)[j] == keys[i];
    }
  }
}
