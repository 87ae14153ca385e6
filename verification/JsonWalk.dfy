/**
 The explicit-stack walk of `canonical_json` over Python values, whose lists and dictionaries may be shared or may
 contain themselves. The walk is proved against the recursive unfolding of the value into a JSON tree.
 */
module JsonWalk {
  import opened Outcomes
  import opened Utf8
  import opened JsonSafety
  import opened CanonicalText
  import opened CanonicalOrder
  import opened CanonicalData
  import opened JsonReader
  import opened Sequences

  /** A Python value; lists and dictionaries are known by their identity. */
  datatype Value =
    | NoneValue
    | BoolValue(b: bool)
    | IntValue(i: int)
    | FloatValue(repr: string, finite: bool)
    | StrValue(s: string)
    | OtherValue
    | Ref(id: nat)

  /** A dictionary key; `None` stands for a key that is not a string. */
  type Key = Option<string>

  datatype Cell = ListCell(items: seq<Value>) | DictCell(keys: seq<Key>, values: seq<Value>)

  type Heap = map<nat, Cell>

  function ChildrenOf(cell: Cell): seq<Value> {
    match cell
    case ListCell(items) => items
    case DictCell(_, values) => values
  }

  /** The values that `v` directly contains; an identity that is no list and no dictionary contains nothing. */
  function Children(heap: Heap, v: Value): seq<Value> {
    if v.Ref? && v.id in heap then ChildrenOf(heap[v.id]) else []
  }

  // ----- The unfolding -------------------------------------------------------------------------------

  function KeyTexts(keys: seq<Key>): Option<seq<string>> {
    if keys == [] then Some([])
    else
      var first :- keys[0];
      var rest :- KeyTexts(keys[1..]);
      Some([first] + rest)
  }

  function Assemble(cell: Cell, children: seq<Json>): Option<Json> {
    match cell
    case ListCell(_) => Some(Arr(children))
    case DictCell(keys, _) =>
      var texts :- KeyTexts(keys);
      Some(Obj(texts, children))
  }

  /** The tree of a value, if it has one with at most `levels` containers nested in each other. */
  function Unfold(heap: Heap, v: Value, levels: nat): Option<Json>
    decreases levels, 0
  {
    match v
    case NoneValue => Some(Null)
    case BoolValue(b) => Some(Bool(b))
    case IntValue(i) => Some(Int(i))
    case FloatValue(repr, finite) => if finite then Some(Float(repr)) else None
    case StrValue(s) => Some(Str(s))
    case OtherValue => None
    case Ref(id) =>
      if id !in heap || levels == 0 then None
      else
        var children :- UnfoldAll(heap, ChildrenOf(heap[id]), levels - 1);
        Assemble(heap[id], children)
  }

  function UnfoldAll(heap: Heap, vs: seq<Value>, levels: nat): Option<seq<Json>>
    decreases levels, |vs|
  {
    if vs == [] then Some([])
    else
      var first :- Unfold(heap, vs[0], levels);
      var rest :- UnfoldAll(heap, vs[1..], levels);
      Some([first] + rest)
  }

  /** The tree whose text `canonical_json` gives: that of the value, if there is one and it is within the limits. */
  function Canonical(heap: Heap, v: Value): Option<Json> {
    var tree :- Unfold(heap, v, MAX_NESTING_DEPTH);
    if Safe(tree) then Some(tree) else None
  }

  /** What `canonical_json` gives: the text of that tree, its keys sorted. */
  function CanonicalString(heap: Heap, v: Value): Option<string> {
    var tree :- Canonical(heap, v);
    Some(TextOf(tree))
  }

  // ----- What the unfolding means --------------------------------------------------------------------

  /** This tree is what the value is: the same leaves, lists with the same items, dictionaries with the same entries. */
  predicate IsTreeOf(heap: Heap, v: Value, t: Json)
    decreases t
  {
    match t
    case Null => v == NoneValue
    case Bool(b) => v == BoolValue(b)
    case Int(i) => v == IntValue(i)
    case Float(repr) => v == FloatValue(repr, true)
    case Str(s) => v == StrValue(s)
    case Arr(items) => v.Ref? && v.id in heap && heap[v.id].ListCell? && AreTreesOf(heap, heap[v.id].items, items)
    case Obj(keys, values) =>
      && v.Ref? && v.id in heap && heap[v.id].DictCell? && AreKeys(heap[v.id].keys, keys)
      && AreTreesOf(heap, heap[v.id].values, values)
  }

  predicate AreTreesOf(heap: Heap, vs: seq<Value>, ts: seq<Json>)
    decreases ts
  {
    |vs| == |ts| && (ts == [] || (IsTreeOf(heap, vs[0], ts[0]) && AreTreesOf(heap, vs[1..], ts[1..])))
  }

  predicate AreKeys(keys: seq<Key>, texts: seq<string>) {
    |keys| == |texts| && forall i :: 0 <= i < |keys| ==> keys[i] == Some(texts[i])
  }

  lemma {:induction false} KeyTextsAre(keys: seq<Key>, texts: seq<string>)
    ensures KeyTexts(keys) == Some(texts) <==> AreKeys(keys, texts)
  {
    if keys != [] && texts != [] {
      KeyTextsAre(keys[1..], texts[1..]);
      assert AreKeys(keys, texts) <==> keys[0] == Some(texts[0]) && AreKeys(keys[1..], texts[1..]) by {
        KeysNext(keys, texts);
      }
      assert texts == [texts[0]] + texts[1..];
    }
  }

  lemma KeysNext(keys: seq<Key>, texts: seq<string>)
    requires keys != [] && texts != []
    ensures AreKeys(keys, texts) <==> keys[0] == Some(texts[0]) && AreKeys(keys[1..], texts[1..])
  {
    if keys[0] == Some(texts[0]) && AreKeys(keys[1..], texts[1..]) {
      forall i | 0 < i < |keys|
        ensures keys[i] == Some(texts[i])
      {
        assert keys[1..][i - 1] == Some(texts[1..][i - 1]);
      }
    }
  }

  lemma AssembledIs(heap: Heap, id: nat, children: seq<Json>, t: Json)
    requires id in heap && AreTreesOf(heap, ChildrenOf(heap[id]), children)
    ensures Assemble(heap[id], children) == Some(t) ==> IsTreeOf(heap, Ref(id), t)
  {
    hide KeyTexts, AreTreesOf, AreKeys;
    if Assemble(heap[id], children) == Some(t) && t.Obj? {
      KeyTextsAre(heap[id].keys, t.keys);
    }
  }

  /** The children of a tree, and what they are assembled to. */
  lemma TreeIsAssembled(heap: Heap, id: nat, t: Json)
    requires IsTreeOf(heap, Ref(id), t)
    ensures id in heap && (t.Arr? || t.Obj?)
    ensures var children := if t.Arr? then t.items else t.values;
            && AreTreesOf(heap, ChildrenOf(heap[id]), children) && Assemble(heap[id], children) == Some(t)
            && Height(t) == 1 + HeightOfAll(children)
  {
    hide KeyTexts, AreTreesOf, AreKeys, HeightOfAll;
    if t.Obj? {
      KeyTextsAre(heap[id].keys, t.keys);
    }
  }

  /** A value unfolds to a tree if and only if that is its tree and is not too high. */
  lemma {:induction false} UnfoldIsTheTree(heap: Heap, v: Value, levels: nat, t: Json)
    ensures Unfold(heap, v, levels) == Some(t) <==> IsTreeOf(heap, v, t) && Height(t) <= levels
    decreases levels, 1
  {
    hide UnfoldAll, AreTreesOf, Assemble, HeightOfAll, AreKeys;
    if v.Ref? {
      hide IsTreeOf, Height;
      UnfoldedContainer(heap, v.id, levels, t);
    }
  }

  lemma {:induction false} UnfoldedContainer(heap: Heap, id: nat, levels: nat, t: Json)
    ensures Unfold(heap, Ref(id), levels) == Some(t) <==> IsTreeOf(heap, Ref(id), t) && Height(t) <= levels
    decreases levels, 0
  {
    hide UnfoldAll, AreTreesOf, Assemble, HeightOfAll, IsTreeOf, Height, AreKeys;
    if IsTreeOf(heap, Ref(id), t) {
      TreeIsAssembled(heap, id, t);
      if levels > 0 {
        UnfoldAllAreTheTrees(heap, ChildrenOf(heap[id]), levels - 1, if t.Arr? then t.items else t.values);
      }
    }
    if Unfold(heap, Ref(id), levels) == Some(t) {
      var children := UnfoldAll(heap, ChildrenOf(heap[id]), levels - 1).value;
      UnfoldAllAreTheTrees(heap, ChildrenOf(heap[id]), levels - 1, children);
      AssembledIs(heap, id, children, t);
      AssembledHeight(heap[id], children);
    }
  }

  lemma {:induction false} UnfoldAllAreTheTrees(heap: Heap, vs: seq<Value>, levels: nat, ts: seq<Json>)
    ensures UnfoldAll(heap, vs, levels) == Some(ts) <==> AreTreesOf(heap, vs, ts) && HeightOfAll(ts) <= levels
    decreases levels, 2, |vs|
  {
    hide Unfold, IsTreeOf, Height;
    if vs != [] && ts != [] {
      UnfoldIsTheTree(heap, vs[0], levels, ts[0]);
      UnfoldAllAreTheTrees(heap, vs[1..], levels, ts[1..]);
      UnfoldNext(heap, vs, levels, ts);
    }
  }

  lemma UnfoldNext(heap: Heap, vs: seq<Value>, levels: nat, ts: seq<Json>)
    requires vs != [] && ts != []
    ensures UnfoldAll(heap, vs, levels) == Some(ts)
            <==> Unfold(heap, vs[0], levels) == Some(ts[0]) && UnfoldAll(heap, vs[1..], levels) == Some(ts[1..])
  {
    hide Unfold;
    assert ts == [ts[0]] + ts[1..];
  }

  /** The numeral of a finite float is one that reads as a float. */
  predicate HasNumeral(v: Value) {
    v.FloatValue? && v.finite ==> IsFloatNumeral(v.repr)
  }

  /** Every key of a dictionary has its value and comes once, and floats have their numerals. */
  predicate IsHeap(heap: Heap) {
    forall id :: id in heap ==>
      && (forall i :: 0 <= i < |ChildrenOf(heap[id])| ==> HasNumeral(ChildrenOf(heap[id])[i]))
      && (heap[id].DictCell? ==> |heap[id].keys| == |heap[id].values| && NoRepeats(heap[id].keys))
  }

  lemma {:induction false} TreesAreData(heap: Heap, v: Value, t: Json)
    requires IsHeap(heap) && HasNumeral(v) && IsTreeOf(heap, v, t)
    ensures IsLegible(t) && IsData(t)
    decreases t, 0
  {
    hide IsFloatNumeral, AreTreesOf, AllLegible, NoRepeats;
    if v.Ref? {
      HeapAt(heap, v.id);
      TreeIsAssembled(heap, v.id, t);
      hide IsHeap, Height, Assemble;
      AllTreesAreData(heap, ChildrenOf(heap[v.id]), if t.Arr? then t.items else t.values);
      if t.Obj? {
        KeysStayDistinct(heap[v.id].keys, t.keys);
      }
    }
  }

  lemma HeapAt(heap: Heap, id: nat)
    requires IsHeap(heap) && id in heap
    ensures forall i :: 0 <= i < |ChildrenOf(heap[id])| ==> HasNumeral(ChildrenOf(heap[id])[i])
    ensures heap[id].DictCell? ==> |heap[id].keys| == |heap[id].values| && NoRepeats(heap[id].keys)
  {
    hide NoRepeats, HasNumeral;
  }

  lemma KeysStayDistinct(keys: seq<Key>, texts: seq<string>)
    requires AreKeys(keys, texts) && NoRepeats(keys)
    ensures NoRepeats(texts)
  {
    forall i, j | 0 <= i < j < |texts|
      ensures texts[i] != texts[j]
    {
      assert keys[i] != keys[j];
    }
  }

  lemma {:induction false} AllTreesAreData(heap: Heap, vs: seq<Value>, ts: seq<Json>)
    requires IsHeap(heap) && (forall i :: 0 <= i < |vs| ==> HasNumeral(vs[i])) && AreTreesOf(heap, vs, ts)
    ensures |ts| == |vs| && AllLegible(ts) && forall i :: 0 <= i < |ts| ==> IsData(ts[i])
    decreases ts, 1
  {
    hide IsHeap, HasNumeral, IsTreeOf, IsLegible, IsData;
    if ts != [] {
      TreesAreData(heap, vs[0], ts[0]);
      assert forall i :: 0 <= i < |vs| - 1 ==> vs[1..][i] == vs[i + 1];
      AllTreesAreData(heap, vs[1..], ts[1..]);
      assert forall i :: 0 < i < |ts| ==> ts[i] == ts[1..][i - 1];
    }
  }

  lemma {:induction false} LegibleIsWellFormed(t: Json)
    requires IsLegible(t)
    ensures IsWellFormed(t)
    decreases t
  {
    hide IsFloatNumeral;
    match t
    case Arr(items) => AllLegibleAreWellFormed(items);
    case Obj(_, values) => AllLegibleAreWellFormed(values);
    case _ =>
  }

  lemma {:induction false} AllLegibleAreWellFormed(ts: seq<Json>)
    requires AllLegible(ts)
    ensures AllWellFormed(ts)
    decreases ts
  {
    hide IsLegible, IsWellFormed;
    if ts != [] {
      LegibleIsWellFormed(ts[0]);
      AllLegibleAreWellFormed(ts[1..]);
    }
  }

  // ----- Costs ---------------------------------------------------------------------------------------

  /** What the walk counts, and whether all it saw was allowed. */
  datatype Cost = Cost(nodes: nat, raw: nat, fine: bool)

  const FREE := Cost(0, 0, true)

  function Plus(a: Cost, b: Cost): Cost {
    Cost(a.nodes + b.nodes, a.raw + b.raw, a.fine && b.fine)
  }

  predicate Within(c: Cost) {
    c.fine && c.nodes <= MAX_NODE_COUNT && c.raw <= MAX_CANONICAL_BYTES
  }

  function TextCost(s: string): Cost {
    Cost(1, |Encode(s)|, IsShort(s))
  }

  function KeyCost(key: Key): Cost {
    match key
    case None => Cost(1, 0, false)
    case Some(s) => TextCost(s)
  }

  function KeysCost(keys: seq<Key>): Cost {
    if keys == [] then FREE else Plus(KeyCost(keys[0]), KeysCost(keys[1..]))
  }

  /** What a container costs by itself. */
  function OwnCost(cell: Cell): Cost {
    Plus(Cost(1, 0, true), if cell.DictCell? then KeysCost(cell.keys) else FREE)
  }

  function WalkCost(heap: Heap, v: Value, levels: nat): Cost
    decreases levels, 0
  {
    match v
    case NoneValue => Cost(1, 0, true)
    case BoolValue(_) => Cost(1, 0, true)
    case IntValue(i) => Cost(1, |IntText(i)|, IsPrintable(i))
    case FloatValue(_, finite) => Cost(1, 0, finite)
    case StrValue(s) => TextCost(s)
    case OtherValue => Cost(1, 0, false)
    case Ref(id) =>
      if id !in heap || levels == 0 then Cost(1, 0, false)
      else Plus(OwnCost(heap[id]), WalkCostOfAll(heap, ChildrenOf(heap[id]), levels - 1))
  }

  function WalkCostOfAll(heap: Heap, vs: seq<Value>, levels: nat): Cost
    decreases levels, |vs|
  {
    if vs == [] then FREE else Plus(WalkCost(heap, vs[0], levels), WalkCostOfAll(heap, vs[1..], levels))
  }

  // ----- Costs are those of the unfolding ------------------------------------------------------------

  lemma {:induction false} KeysCostIs(keys: seq<Key>)
    ensures KeysCost(keys).fine <==> KeyTexts(keys).Some? && AllShort(KeyTexts(keys).value)
    ensures KeyTexts(keys).Some? ==>
              && |KeyTexts(keys).value| == |keys| == KeysCost(keys).nodes
              && KeysCost(keys).raw == RawBytesOfKeys(KeyTexts(keys).value)
  {
    if keys != [] {
      KeysCostIs(keys[1..]);
      if keys[0].Some? && KeyTexts(keys[1..]).Some? {
        var texts, rest := KeyTexts(keys).value, KeyTexts(keys[1..]).value;
        assert texts[1..] == rest;
        assert forall i :: 0 <= i < |rest| ==> texts[i + 1] == rest[i];
      }
    }
  }

  predicate CostFits(c: Cost, t: Option<Json>) {
    && (c.fine <==> t.Some? && LeavesAreFine(t.value))
    && (t.Some? ==> c.nodes == Nodes(t.value) && c.raw == RawBytes(t.value))
  }

  predicate CostFitsAll(c: Cost, ts: Option<seq<Json>>) {
    && (c.fine <==> ts.Some? && AllLeavesAreFine(ts.value))
    && (ts.Some? ==> c.nodes == NodesOfAll(ts.value) && c.raw == RawBytesOfAll(ts.value))
  }

  lemma ArrayCost(cost: Cost, children: seq<Json>)
    requires CostFitsAll(cost, Some(children))
    ensures CostFits(Plus(Cost(1, 0, true), cost), Some(Arr(children)))
  {
    hide NodesOfAll, RawBytesOfAll, AllLeavesAreFine;
  }

  lemma ObjectCost(keys: seq<Key>, cost: Cost, children: seq<Json>)
    requires CostFitsAll(cost, Some(children))
    ensures KeyTexts(keys).None? ==> CostFits(Plus(Plus(Cost(1, 0, true), KeysCost(keys)), cost), None)
    ensures KeyTexts(keys).Some? ==>
              CostFits(Plus(Plus(Cost(1, 0, true), KeysCost(keys)), cost), Some(Obj(KeyTexts(keys).value, children)))
  {
    hide NodesOfAll, RawBytesOfAll, AllLeavesAreFine, KeysCost, KeyTexts, AllShort, RawBytesOfKeys;
    KeysCostIs(keys);
  }

  lemma AssembledCost(cell: Cell, cost: Cost, children: seq<Json>)
    requires CostFitsAll(cost, Some(children))
    ensures CostFits(Plus(OwnCost(cell), cost), Assemble(cell, children))
  {
    hide CostFits, CostFitsAll, KeysCost, KeyTexts;
    match cell
    case ListCell(_) => ArrayCost(cost, children);
    case DictCell(keys, _) => ObjectCost(keys, cost, children);
  }

  lemma AssembledHeight(cell: Cell, children: seq<Json>)
    ensures Assemble(cell, children).Some? ==> Height(Assemble(cell, children).value) == 1 + HeightOfAll(children)
  {
    hide KeyTexts, HeightOfAll;
  }

  lemma ContainerCostIs(heap: Heap, id: nat, levels: nat)
    requires id in heap && levels > 0
    requires CostFitsAll(WalkCostOfAll(heap, ChildrenOf(heap[id]), levels - 1),
                         UnfoldAll(heap, ChildrenOf(heap[id]), levels - 1))
    requires var ts := UnfoldAll(heap, ChildrenOf(heap[id]), levels - 1); ts.Some? ==> HeightOfAll(ts.value) < levels
    ensures CostFits(WalkCost(heap, Ref(id), levels), Unfold(heap, Ref(id), levels))
    ensures Unfold(heap, Ref(id), levels).Some? ==> Height(Unfold(heap, Ref(id), levels).value) <= levels
  {
    hide WalkCost, WalkCostOfAll, UnfoldAll, OwnCost, Assemble, HeightOfAll, Height, Nodes, RawBytes, LeavesAreFine,
      NodesOfAll, RawBytesOfAll, AllLeavesAreFine, ChildrenOf;
    RefCost(heap, id, levels);
    var ts := UnfoldAll(heap, ChildrenOf(heap[id]), levels - 1);
    if ts.Some? {
      AssembledCost(heap[id], WalkCostOfAll(heap, ChildrenOf(heap[id]), levels - 1), ts.value);
      AssembledHeight(heap[id], ts.value);
    }
  }

  lemma {:induction false} WalkCostIs(heap: Heap, v: Value, levels: nat)
    ensures CostFits(WalkCost(heap, v, levels), Unfold(heap, v, levels))
    ensures Unfold(heap, v, levels).Some? ==> Height(Unfold(heap, v, levels).value) <= levels
    decreases levels, 0
  {
    hide OwnCost, Plus, WalkCostOfAll, UnfoldAll, KeysCost, KeyTexts, Encode, IntText, IsPrintable, IsShort;
    if v.Ref? && v.id in heap && levels > 0 {
      WalkCostOfAllIs(heap, ChildrenOf(heap[v.id]), levels - 1);
      ContainerCostIs(heap, v.id, levels);
    }
  }

  lemma {:induction false} WalkCostOfAllIs(heap: Heap, vs: seq<Value>, levels: nat)
    ensures CostFitsAll(WalkCostOfAll(heap, vs, levels), UnfoldAll(heap, vs, levels))
    ensures UnfoldAll(heap, vs, levels).Some? ==> HeightOfAll(UnfoldAll(heap, vs, levels).value) <= levels
    decreases levels, |vs|
  {
    if vs != [] {
      WalkCostIs(heap, vs[0], levels);
      WalkCostOfAllIs(heap, vs[1..], levels);
      if Unfold(heap, vs[0], levels).Some? && UnfoldAll(heap, vs[1..], levels).Some? {
        assert UnfoldAll(heap, vs, levels).value[1..] == UnfoldAll(heap, vs[1..], levels).value;
      }
    }
  }

  // ----- Cycles --------------------------------------------------------------------------------------

  lemma {:induction false} MemberIsFine(heap: Heap, vs: seq<Value>, levels: nat, v: Value)
    requires v in vs && WalkCostOfAll(heap, vs, levels).fine
    ensures WalkCost(heap, v, levels).fine
    decreases |vs|
  {
    if v != vs[0] {
      MemberIsFine(heap, vs[1..], levels, v);
    }
  }

  lemma RefCost(heap: Heap, id: nat, levels: nat)
    ensures WalkCost(heap, Ref(id), levels)
            == if id !in heap || levels == 0 then Cost(1, 0, false)
               else Plus(OwnCost(heap[id]), WalkCostOfAll(heap, ChildrenOf(heap[id]), levels - 1))
  {
    hide OwnCost, Plus, ChildrenOf;
  }

  lemma ChildIsFine(heap: Heap, v: Value, levels: nat, child: Value)
    requires child in Children(heap, v) && WalkCost(heap, v, levels).fine
    ensures levels > 0 && WalkCost(heap, child, levels - 1).fine
  {
    hide WalkCost, WalkCostOfAll, OwnCost, ChildrenOf;
    RefCost(heap, v.id, levels);
    MemberIsFine(heap, Children(heap, v), levels - 1, child);
  }

  // ----- The stack -----------------------------------------------------------------------------------

  /** An entry of the stack, whose top is the end of the sequence. */
  datatype Entry = Visit(value: Value, depth: nat) | Exit(identity: nat, depth: nat)

  function ValueOf(e: Entry): Value {
    match e
    case Visit(v, _) => v
    case Exit(identity, _) => Ref(identity)
  }

  function EntryCost(heap: Heap, e: Entry): Cost {
    match e
    case Visit(v, depth) => if depth <= MAX_NESTING_DEPTH then WalkCost(heap, v, MAX_NESTING_DEPTH - depth)
                            else Cost(0, 0, false)
    case Exit(_, _) => FREE
  }

  /** What is still to be counted. */
  function StackCost(heap: Heap, stack: seq<Entry>): Cost {
    if stack == [] then FREE
    else Plus(EntryCost(heap, stack[|stack| - 1]), StackCost(heap, stack[..|stack| - 1]))
  }

  /** The containers that were entered and not yet left, outermost first. */
  function Markers(stack: seq<Entry>): seq<nat> {
    if stack == [] then []
    else
      var top, below := stack[|stack| - 1], stack[..|stack| - 1];
      if top.Exit? then Markers(below) + [top.identity] else Markers(below)
  }

  /** `e` lies directly inside the innermost open container below it, at the depth of the open containers. */
  predicate IsLinked(heap: Heap, below: seq<Entry>, e: Entry) {
    var open := Markers(below);
    e.depth == |open| <= MAX_NESTING_DEPTH && (open != [] ==> ValueOf(e) in Children(heap, Ref(open[|open| - 1])))
  }

  /** Every entry's ancestors are exactly the exit markers below it. */
  predicate IsAncestry(heap: Heap, stack: seq<Entry>) {
    stack == []
    || (IsAncestry(heap, stack[..|stack| - 1]) && IsLinked(heap, stack[..|stack| - 1], stack[|stack| - 1]))
  }

  /** `reversed(children)`, pushed one after the other. */
  function Pushed(stack: seq<Entry>, children: seq<Value>, depth: nat): (r: seq<Entry>)
    decreases |children|
  {
    if children == [] then stack else Pushed(stack, children[1..], depth) + [Visit(children[0], depth)]
  }

  lemma StackNext(heap: Heap, stack: seq<Entry>, e: Entry)
    ensures StackCost(heap, stack + [e]) == Plus(EntryCost(heap, e), StackCost(heap, stack))
    ensures Markers(stack + [e]) == if e.Exit? then Markers(stack) + [e.identity] else Markers(stack)
    ensures IsAncestry(heap, stack + [e]) <==> IsAncestry(heap, stack) && IsLinked(heap, stack, e)
  {
    hide EntryCost, IsLinked;
    assert (stack + [e])[..|stack|] == stack;
  }

  lemma VisitCost(heap: Heap, v: Value, depth: nat)
    requires depth <= MAX_NESTING_DEPTH
    ensures EntryCost(heap, Visit(v, depth)) == WalkCost(heap, v, MAX_NESTING_DEPTH - depth)
  {
  }

  lemma WalkNext(heap: Heap, vs: seq<Value>, levels: nat)
    requires vs != []
    ensures WalkCostOfAll(heap, vs, levels) == Plus(WalkCost(heap, vs[0], levels), WalkCostOfAll(heap, vs[1..], levels))
  {
    hide WalkCost;
  }

  lemma {:induction false} PushedCost(heap: Heap, stack: seq<Entry>, children: seq<Value>, depth: nat)
    requires depth <= MAX_NESTING_DEPTH
    ensures StackCost(heap, Pushed(stack, children, depth))
            == Plus(WalkCostOfAll(heap, children, MAX_NESTING_DEPTH - depth), StackCost(heap, stack))
    decreases |children|
  {
    if children == [] {
      hide WalkCost, StackCost, EntryCost;
    } else {
      hide WalkCost, StackCost, EntryCost, WalkCostOfAll;
      PushedCost(heap, stack, children[1..], depth);
      StackNext(heap, Pushed(stack, children[1..], depth), Visit(children[0], depth));
      VisitCost(heap, children[0], depth);
      WalkNext(heap, children, MAX_NESTING_DEPTH - depth);
    }
  }

  predicate AllInside(heap: Heap, vs: seq<Value>, parent: Value) {
    forall i :: 0 <= i < |vs| ==> vs[i] in Children(heap, parent)
  }

  lemma FirstAndRestInside(heap: Heap, vs: seq<Value>, parent: Value)
    requires AllInside(heap, vs, parent) && vs != []
    ensures vs[0] in Children(heap, parent) && AllInside(heap, vs[1..], parent)
  {
    hide Children;
  }

  lemma PushedNext(stack: seq<Entry>, children: seq<Value>, depth: nat)
    ensures Pushed(stack, children, depth)
            == if children == [] then stack else Pushed(stack, children[1..], depth) + [Visit(children[0], depth)]
  {
  }

  lemma {:induction false} PushedAncestry(heap: Heap, stack: seq<Entry>, children: seq<Value>, depth: nat)
    requires IsAncestry(heap, stack) && MAX_NESTING_DEPTH >= depth == |Markers(stack)| > 0
    requires AllInside(heap, children, Ref(Markers(stack)[depth - 1]))
    ensures IsAncestry(heap, Pushed(stack, children, depth))
    ensures Markers(Pushed(stack, children, depth)) == Markers(stack)
    decreases |children|
  {
    hide IsAncestry, Markers, AllInside, Children, Pushed;
    PushedNext(stack, children, depth);
    if children != [] {
      FirstAndRestInside(heap, children, Ref(Markers(stack)[depth - 1]));
      PushedAncestry(heap, stack, children[1..], depth);
      StackNext(heap, Pushed(stack, children[1..], depth), Visit(children[0], depth));
    }
  }

  /** From an open container down to a value inside the innermost one, each step leaves one level less. */
  lemma {:induction false} Descend(heap: Heap, stack: seq<Entry>, k: nat, v: Value, levels: nat)
    requires IsAncestry(heap, stack) && k < |Markers(stack)|
    requires v in Children(heap, Ref(Markers(stack)[|Markers(stack)| - 1]))
    requires WalkCost(heap, Ref(Markers(stack)[k]), levels).fine
    ensures levels >= |Markers(stack)| - k
    ensures WalkCost(heap, v, levels - (|Markers(stack)| - k)).fine
    decreases |stack|
  {
    hide WalkCost, Children;
    var top, below := stack[|stack| - 1], stack[..|stack| - 1];
    if top.Visit? {
      Descend(heap, below, k, v, levels);
    } else if k == |Markers(stack)| - 1 {
      ChildIsFine(heap, Ref(top.identity), levels, v);
    } else {
      Descend(heap, below, k, Ref(top.identity), levels);
      ChildIsFine(heap, Ref(top.identity), levels - (|Markers(below)| - k), v);
    }
  }

  /** A container met again inside itself has no finite unfolding at all. */
  lemma {:induction false} CyclesHaveNoUnfolding(heap: Heap, stack: seq<Entry>, k: nat, levels: nat)
    requires IsAncestry(heap, stack) && k < |Markers(stack)|
    requires Ref(Markers(stack)[k]) in Children(heap, Ref(Markers(stack)[|Markers(stack)| - 1]))
    ensures !WalkCost(heap, Ref(Markers(stack)[k]), levels).fine
  {
    hide WalkCost, IsAncestry, Markers, Children;
    if WalkCost(heap, Ref(Markers(stack)[k]), levels).fine {
      Descend(heap, stack, k, Ref(Markers(stack)[k]), levels);
      CyclesHaveNoUnfolding(heap, stack, k, levels - (|Markers(stack)| - k));
    }
  }

  /** The loop over the keys of a dictionary: it goes on while the counts stay within the limits. */
  method CountKeys(keys: seq<Key>, nodes: nat, raw: nat) returns (passed: bool, nodes': nat, raw': nat)
    ensures passed ==> KeysCost(keys).fine && nodes' == nodes + KeysCost(keys).nodes && raw' == raw + KeysCost(keys).raw
    ensures passed && (nodes <= MAX_NODE_COUNT && raw <= MAX_CANONICAL_BYTES) ==>
              nodes' <= MAX_NODE_COUNT && raw' <= MAX_CANONICAL_BYTES
    ensures !passed ==> !Within(Plus(Cost(nodes, raw, true), KeysCost(keys)))
  {
    hide Encode, IsShort;
    passed, nodes', raw' := true, nodes, raw;
    assert keys[0..] == keys;
    for i := 0 to |keys|
      invariant passed
      invariant Plus(Cost(nodes', raw', true), KeysCost(keys[i..])) == Plus(Cost(nodes, raw, true), KeysCost(keys))
      invariant nodes <= MAX_NODE_COUNT && raw <= MAX_CANONICAL_BYTES ==>
                  nodes' <= MAX_NODE_COUNT && raw' <= MAX_CANONICAL_BYTES
    {
      assert keys[i..][1..] == keys[i + 1..];
      nodes' := nodes' + 1;
      if nodes' > MAX_NODE_COUNT || keys[i].None? || !IsShort(keys[i].value) {
        passed := false;
        return;
      }
      raw' := raw' + |Encode(keys[i].value)|;
      if raw' > MAX_CANONICAL_BYTES {
        passed := false;
        return;
      }
    }
  }

  /** What the walk adds for a value that is no container. */
  function Counted(v: Value): Cost {
    match v
    case IntValue(i) => Cost(1, |IntText(i)|, IsPrintable(i))
    case FloatValue(_, finite) => Cost(1, 0, finite)
    case StrValue(s) => TextCost(s)
    case OtherValue => Cost(1, 0, false)
    case _ => Cost(1, 0, true)
  }

  /** The branches of the walk for values that are no container; the node itself is already counted. */
  method CountScalar(v: Value, nodes: nat, raw: nat) returns (passed: bool, raw': nat)
    requires 0 < nodes <= MAX_NODE_COUNT && raw <= MAX_CANONICAL_BYTES
    ensures passed ==> Counted(v).fine && raw' == raw + Counted(v).raw && raw' <= MAX_CANONICAL_BYTES
    ensures !passed ==> !Within(Plus(Cost(nodes - 1, raw, true), Counted(v)))
  {
    hide Encode, IntText, IsPrintable, IsShort;
    raw' := raw;
    passed := match v
      case IntValue(i) => IsPrintable(i)
      case FloatValue(_, finite) => finite
      case StrValue(s) => IsShort(s)
      case OtherValue => false
      case _ => true;
    if passed && v.StrValue? {
      raw' := raw + |Encode(v.s)|;
    } else if passed && v.IntValue? {
      raw' := raw + |IntText(v.i)|;
    }
    passed := passed && raw' <= MAX_CANONICAL_BYTES;
  }

  lemma OwnCostIs(cell: Cell)
    ensures OwnCost(cell) == if cell.DictCell? then Plus(Cost(1, 0, true), KeysCost(cell.keys)) else Cost(1, 0, true)
  {
    hide KeysCost;
  }

  /** The keys of a dictionary; the node of the container itself is already counted. */
  method CountCell(cell: Cell, nodes: nat, raw: nat) returns (passed: bool, nodes': nat, raw': nat)
    requires 0 < nodes <= MAX_NODE_COUNT && raw <= MAX_CANONICAL_BYTES
    ensures passed ==> nodes <= nodes' <= MAX_NODE_COUNT && raw' <= MAX_CANONICAL_BYTES
    ensures passed ==> Plus(Cost(nodes - 1, raw, true), OwnCost(cell)) == Cost(nodes', raw', true)
    ensures !passed ==> !Within(Plus(Cost(nodes - 1, raw, true), OwnCost(cell)))
  {
    hide KeysCost, OwnCost;
    OwnCostIs(cell);
    if cell.ListCell? {
      return true, nodes, raw;
    }
    passed, nodes', raw' := CountKeys(cell.keys, nodes, raw);
  }

  /** Leaving or visiting the top of the stack. */
  lemma PopCost(heap: Heap, stack: seq<Entry>)
    requires stack != [] && IsAncestry(heap, stack)
    ensures StackCost(heap, stack) == Plus(EntryCost(heap, stack[|stack| - 1]), StackCost(heap, stack[..|stack| - 1]))
    ensures IsAncestry(heap, stack[..|stack| - 1])
    ensures IsLinked(heap, stack[..|stack| - 1], stack[|stack| - 1])
    ensures stack[|stack| - 1].Exit? ==> EntryCost(heap, stack[|stack| - 1]) == FREE
    ensures stack[|stack| - 1].Exit? ==>
              Markers(stack) == Markers(stack[..|stack| - 1]) + [stack[|stack| - 1].identity]
    ensures stack[|stack| - 1].Visit? ==> Markers(stack) == Markers(stack[..|stack| - 1])
  {
    hide WalkCost, IsLinked;
  }

  lemma EnterContainer(heap: Heap, below: seq<Entry>, id: nat, depth: nat)
    requires id in heap && depth < MAX_NESTING_DEPTH
    requires IsAncestry(heap, below) && IsLinked(heap, below, Visit(Ref(id), depth))
    ensures var pushed := Pushed(below + [Exit(id, depth)], ChildrenOf(heap[id]), depth + 1);
            && IsAncestry(heap, pushed)
            && Markers(pushed) == Markers(below) + [id]
            && Plus(EntryCost(heap, Visit(Ref(id), depth)), StackCost(heap, below))
               == Plus(OwnCost(heap[id]), StackCost(heap, pushed))
  {
    hide WalkCost, WalkCostOfAll, OwnCost, ChildrenOf, StackCost, EntryCost, Markers, IsAncestry, Pushed;
    var entered := below + [Exit(id, depth)];
    ExitIsLinked(heap, below, id, depth);
    StackNext(heap, below, Exit(id, depth));
    RefCost(heap, id, MAX_NESTING_DEPTH - depth);
    VisitCost(heap, Ref(id), depth);
    assert EntryCost(heap, Exit(id, depth)) == FREE by {
      ExitIsFree(heap, id, depth);
    }
    PushedAncestry(heap, entered, ChildrenOf(heap[id]), depth + 1);
    PushedCost(heap, entered, ChildrenOf(heap[id]), depth + 1);
  }

  lemma ExitIsFree(heap: Heap, id: nat, depth: nat)
    ensures EntryCost(heap, Exit(id, depth)) == FREE
  {
  }

  lemma ExitIsLinked(heap: Heap, below: seq<Entry>, id: nat, depth: nat)
    requires IsLinked(heap, below, Visit(Ref(id), depth))
    ensures IsLinked(heap, below, Exit(id, depth)) && depth == |Markers(below)|
  {
    hide Children, Markers;
  }

  /** The walk passes exactly the values that unfold to a tree within its limits. */
  method Walk(heap: Heap, value: Value) returns (passed: bool)
    ensures passed <==> Within(WalkCost(heap, value, MAX_NESTING_DEPTH))
  {
    hide WalkCost, IsAncestry, Markers, StackCost, EntryCost, Pushed, NoRepeats, Counted, OwnCost, KeysCost, Encode,
      IntText, IsPrintable, IsShort, Children, ChildrenOf;
    var activePath: set<nat> := {};
    var stack: seq<Entry> := [Visit(value, 0)];
    var nodes: nat, raw: nat := 0, 0;
    StartOfWalk(heap, value);
    while stack != []
      invariant Within(WalkCost(heap, value, MAX_NESTING_DEPTH))
                <==> Within(Plus(Cost(nodes, raw, true), StackCost(heap, stack)))
      invariant nodes <= MAX_NODE_COUNT && raw <= MAX_CANONICAL_BYTES
      invariant IsAncestry(heap, stack)
      invariant NoRepeats(Markers(stack)) && forall id :: id in activePath <==> id in Markers(stack)
      decreases MAX_NODE_COUNT - nodes, |stack|
    {
      var top := stack[|stack| - 1];
      PopCost(heap, stack);
      stack := stack[..|stack| - 1];
      if top.Exit? {
        LastIsNew(Markers(stack), top.identity);
        assert top.identity in activePath;
        activePath := activePath - {top.identity};
        continue;
      }
      nodes := nodes + 1;
      if nodes > MAX_NODE_COUNT {
        VisitCostsOne(heap, top);
        return false;
      }
      if top.value.Ref? {
        if top.value.id !in heap || top.depth >= MAX_NESTING_DEPTH {
          TooDeep(heap, top.value.id, top.depth);
          return false;
        }
        var id := top.value.id;
        if id in activePath {
          CycleCost(heap, stack, top);
          return false;
        }
        EnterContainer(heap, stack, id, top.depth);
        LastIsNew(Markers(stack), id);
        activePath := activePath + {id};
        stack := Pushed(stack + [Exit(id, top.depth)], ChildrenOf(heap[id]), top.depth + 1);
        var fits;
        fits, nodes, raw := CountCell(heap[id], nodes, raw);
        if !fits {
          return false;
        }
      } else {
        ScalarCost(heap, top.value, top.depth);
        var fits;
        fits, raw := CountScalar(top.value, nodes, raw);
        if !fits {
          return false;
        }
      }
    }
    EmptyStack(heap);
    passed := true;
  }

  lemma ScalarCost(heap: Heap, v: Value, depth: nat)
    requires !v.Ref? && depth <= MAX_NESTING_DEPTH
    ensures EntryCost(heap, Visit(v, depth)) == Counted(v) && Counted(v).nodes == 1
  {
    hide Encode, IntText, IsPrintable, IsShort;
  }

  lemma StartOfWalk(heap: Heap, value: Value)
    ensures IsAncestry(heap, [Visit(value, 0)]) && Markers([Visit(value, 0)]) == [] && NoRepeats<nat>([])
    ensures StackCost(heap, [Visit(value, 0)]) == WalkCost(heap, value, MAX_NESTING_DEPTH)
  {
    hide WalkCost;
  }

  lemma EmptyStack(heap: Heap)
    ensures StackCost(heap, []) == FREE
  {
  }

  lemma VisitCostsOne(heap: Heap, e: Entry)
    requires e.Visit?
    ensures EntryCost(heap, e).nodes >= 1 || !EntryCost(heap, e).fine
  {
  }

  lemma TooDeep(heap: Heap, id: nat, depth: nat)
    requires id !in heap || depth >= MAX_NESTING_DEPTH
    ensures !EntryCost(heap, Visit(Ref(id), depth)).fine
  {
  }

  lemma CycleCost(heap: Heap, below: seq<Entry>, e: Entry)
    requires e.Visit? && e.value.Ref? && e.value.id in Markers(below)
    requires IsAncestry(heap, below) && IsLinked(heap, below, e)
    ensures !EntryCost(heap, e).fine
  {
    hide WalkCost, Children;
    var k :| 0 <= k < |Markers(below)| && Markers(below)[k] == e.value.id;
    if e.depth <= MAX_NESTING_DEPTH {
      CyclesHaveNoUnfolding(heap, below, k, MAX_NESTING_DEPTH - e.depth);
    }
  }

  /**
   `canonical_json`: the walk, then the text, and then the size of the text itself. It succeeds exactly if the value has
   a tree within the limits, and the text, read as JSON, is that tree with its keys in order.
   */
  method CanonicalJson(heap: Heap, value: Value) returns (r: Option<string>)
    requires IsHeap(heap) && HasNumeral(value)
    ensures r == CanonicalString(heap, value)
    ensures forall t :: IsTreeOf(heap, value, t) ==> (r.Some? <==> Safe(t))
    ensures r.Some? ==>
              && |Encode(r.value)| <= MAX_CANONICAL_BYTES && ReadText(r.value).Some?
              && IsSorted(ReadText(r.value).value)
              && exists t :: IsTreeOf(heap, value, t) && Agree(t, ReadText(r.value).value)
  {
    hide WalkCost, Unfold, Nodes, RawBytes, LeavesAreFine, Size, Height, TextOf, Encode, IsWellFormed, IsHeap,
      IsLegible, IsData, IsTreeOf, Agree, IsSorted, ReadText, HasNumeral;
    WalkCostIs(heap, value, MAX_NESTING_DEPTH);
    var passed := Walk(heap, value);
    var tree := Unfold(heap, value, MAX_NESTING_DEPTH);
    TreeDecides(heap, value);
    if tree.Some? {
      UnfoldIsTheTree(heap, value, MAX_NESTING_DEPTH, tree.value);
      TreesAreData(heap, value, tree.value);
      LegibleIsWellFormed(tree.value);
      RawBytesWithinSize(tree.value);
      TextHasTheSize(tree.value);
      CanonicalTextsAreFaithful(tree.value, tree.value);
    }
    if !passed || tree.None? {
      return None;
    }
    var text := TextOf(tree.value);
    r := if |Encode(text)| > MAX_CANONICAL_BYTES then None else Some(text);
  }

  /** A value has one tree at most, and the limits decide about it. */
  lemma TreeDecides(heap: Heap, value: Value)
    ensures forall t :: IsTreeOf(heap, value, t) ==> (Canonical(heap, value).Some? <==> Safe(t))
  {
    hide Unfold, Nodes, LeavesAreFine, Size, Height, IsTreeOf;
    forall t | IsTreeOf(heap, value, t)
      ensures Canonical(heap, value).Some? <==> Safe(t)
    {
      UnfoldIsTheTree(heap, value, MAX_NESTING_DEPTH, t);
      var u := Unfold(heap, value, MAX_NESTING_DEPTH);
      if u.Some? {
        OneTree(heap, value, MAX_NESTING_DEPTH, u.value, t);
      }
    }
  }

  lemma OneTree(heap: Heap, v: Value, levels: nat, t: Json, u: Json)
    requires Unfold(heap, v, levels) == Some(t) && IsTreeOf(heap, v, u)
    ensures t == u
  {
    hide Unfold, IsTreeOf, Height;
    var most := if Height(u) > levels then Height(u) else levels;
    UnfoldIsTheTree(heap, v, levels, t);
    UnfoldIsTheTree(heap, v, most, t);
    UnfoldIsTheTree(heap, v, most, u);
  }

  // ----- Shared values are fine, cyclic ones are not -------------------------------------------------

  /** Each container directly contains the next. */
  predicate IsPath(heap: Heap, path: seq<nat>) {
    path != [] && forall i :: 0 < i < |path| ==> Ref(path[i]) in Children(heap, Ref(path[i - 1]))
  }

  lemma {:induction false} Along(heap: Heap, path: seq<nat>, k: nat, levels: nat)
    requires IsPath(heap, path) && k < |path| && WalkCost(heap, Ref(path[0]), levels).fine
    ensures levels >= k && WalkCost(heap, Ref(path[k]), levels - k).fine
  {
    hide WalkCost, Children;
    if k > 0 {
      Along(heap, path, k - 1, levels);
      ChildIsFine(heap, Ref(path[k - 1]), levels - (k - 1), Ref(path[k]));
    }
  }

  lemma {:induction false} LoopsNeverEnd(heap: Heap, loop: seq<nat>, levels: nat)
    requires IsPath(heap, loop) && |loop| > 1 && loop[|loop| - 1] == loop[0]
    ensures !WalkCost(heap, Ref(loop[0]), levels).fine
  {
    hide WalkCost, Children;
    if WalkCost(heap, Ref(loop[0]), levels).fine {
      Along(heap, loop, |loop| - 1, levels);
      LoopsNeverEnd(heap, loop, levels - (|loop| - 1));
    }
  }

  /** A value from which some container contains itself is refused, however long the cycle is. */
  lemma CyclesAreRefused(heap: Heap, path: seq<nat>, i: nat, j: nat)
    requires IsPath(heap, path) && i < j < |path| && path[i] == path[j]
    ensures Canonical(heap, Ref(path[0])) == None
  {
    hide WalkCost, Children, Unfold, Nodes, RawBytes, Size, Height;
    if WalkCost(heap, Ref(path[0]), MAX_NESTING_DEPTH).fine {
      Along(heap, path, i, MAX_NESTING_DEPTH);
      LoopsNeverEnd(heap, path[i..j + 1], MAX_NESTING_DEPTH - i);
    }
    WalkCostIs(heap, Ref(path[0]), MAX_NESTING_DEPTH);
  }

  /** A path longer than the limit is refused as well; sharing alone never is, since trees do not see it. */
  lemma LongPathsAreRefused(heap: Heap, path: seq<nat>)
    requires IsPath(heap, path) && |path| > MAX_NESTING_DEPTH
    ensures Canonical(heap, Ref(path[0])) == None
  {
    hide WalkCost, Children, Unfold, Nodes, RawBytes, Size, Height;
    if WalkCost(heap, Ref(path[0]), MAX_NESTING_DEPTH).fine {
      Along(heap, path, MAX_NESTING_DEPTH, MAX_NESTING_DEPTH);
      RefCost(heap, path[MAX_NESTING_DEPTH], 0);
    }
    WalkCostIs(heap, Ref(path[0]), MAX_NESTING_DEPTH);
  }
}
