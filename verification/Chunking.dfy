/**
 The overlapping chunker. `Ranges` is the specification of the loop in `_source_ranges`, `Chunks` that of `split`;
 what readers of the index rely on is proved about those two.
 */
module Chunking {
  import opened Outcomes
  import opened Texts

  /** A half-open range of source positions. */
  datatype Range = Range(start: nat, end: nat)

  /** What the index stores for one chunk: its text and where in the parsed text it came from. */
  datatype Chunk = Chunk(content: string, index: nat, start: nat, end: nat)

  /** A chunk service whose constructor accepted its sizes. */
  datatype Sizes = Sizes(size: nat, overlap: nat) {
    predicate Allowed() {
      size > 0 && overlap * 2 <= size
    }

    function MinimumBoundary(): nat {
      if overlap + 1 >= size / 2 then overlap + 1 else size / 2
    }
  }

  const SEPARATORS := ["\n\n", "\n", "\U{3002}", ".", " "]

  // ----- One boundary --------------------------------------------------------------------------------

  predicate OccursAt(text: string, part: string, position: nat, limit: nat) {
    position + |part| <= limit <= |text| && text[position..position + |part|] == part
  }

  /** `text.rfind(part, low, high)`: the last occurrence that lies inside the window. */
  function LastOccurrence(text: string, part: string, low: nat, high: nat): (r: Option<nat>)
    requires low <= high <= |text|
    ensures r.Some? ==> low <= r.value && OccursAt(text, part, r.value, high)
    ensures r.Some? ==> forall p :: r.value < p <= high ==> !OccursAt(text, part, p, high)
    ensures r.None? ==> forall p :: low <= p <= high ==> !OccursAt(text, part, p, high)
  {
    LastOccurrenceUpTo(text, part, low, high, high)
  }

  function LastOccurrenceUpTo(text: string, part: string, low: nat, top: nat, high: nat): (r: Option<nat>)
    requires low <= top <= high <= |text|
    requires forall p :: top < p <= high ==> !OccursAt(text, part, p, high)
    ensures r.Some? ==> low <= r.value && OccursAt(text, part, r.value, high)
    ensures r.Some? ==> forall p :: r.value < p <= high ==> !OccursAt(text, part, p, high)
    ensures r.None? ==> forall p :: low <= p <= high ==> !OccursAt(text, part, p, high)
    decreases top - low
  {
    if OccursAt(text, part, top, high) then Some(top)
    else if top == low then None
    else LastOccurrenceUpTo(text, part, low, top - 1, high)
  }

  /** Where a chunk may end after `part`: past its last occurrence, unless that makes the chunk too short. */
  function BoundaryAfter(text: string, part: string, start: nat, high: nat, minimum: nat): Option<nat>
    requires start <= high <= |text|
  {
    var position := LastOccurrence(text, part, start, high);
    if position.Some? && position.value + |part| - start >= minimum then Some(position.value + |part|) else None
  }

  /** The first separator in `parts` that gives a boundary decides. */
  function FirstBoundary(text: string, parts: seq<string>, start: nat, high: nat, minimum: nat): (r: Option<nat>)
    requires start <= high <= |text|
    ensures r.Some? ==> start + minimum <= r.value <= high
  {
    if parts == [] then None
    else
      var here := BoundaryAfter(text, parts[0], start, high, minimum);
      if here.Some? then here else FirstBoundary(text, parts[1..], start, high, minimum)
  }

  function ChunkEnd(text: string, sizes: Sizes, start: nat): (end: nat)
    requires sizes.Allowed() && start < |text|
    ensures start < end <= |text| && end <= start + sizes.size
    ensures end < |text| ==> start + sizes.overlap < end
  {
    if start + sizes.size >= |text| then |text|
    else
      var boundary := FirstBoundary(text, SEPARATORS, start, start + sizes.size, sizes.MinimumBoundary());
      if boundary.Some? then boundary.value else start + sizes.size
  }

  // ----- All ranges ----------------------------------------------------------------------------------

  function Ranges(text: string, sizes: Sizes, start: nat): seq<Range>
    requires sizes.Allowed()
    decreases |text| - start
  {
    if start >= |text| then []
    else
      var end := ChunkEnd(text, sizes, start);
      [Range(start, end)]
      + if end == |text| then [] else Ranges(text, sizes, end - sizes.overlap)
  }

  /** The loop over the separators: the first that gives a boundary decides. */
  method FindEnd(text: string, sizes: Sizes, start: nat) returns (end: nat)
    requires sizes.Allowed() && start < |text|
    ensures end == ChunkEnd(text, sizes, start)
  {
    hide LastOccurrence;
    var maximumEnd := if start + sizes.size < |text| then start + sizes.size else |text|;
    var minimum := sizes.MinimumBoundary();
    end := maximumEnd;
    if maximumEnd < |text| {
      for i := 0 to |SEPARATORS|
        invariant end == maximumEnd
        invariant FirstBoundary(text, SEPARATORS, start, maximumEnd, minimum)
                  == FirstBoundary(text, SEPARATORS[i..], start, maximumEnd, minimum)
      {
        assert SEPARATORS[i..][0] == SEPARATORS[i] && SEPARATORS[i..][1..] == SEPARATORS[i + 1..];
        var position := LastOccurrence(text, SEPARATORS[i], start, maximumEnd);
        if position.Some? {
          var candidateEnd := position.value + |SEPARATORS[i]|;
          if candidateEnd - start >= minimum {
            end := candidateEnd;
            return;
          }
        }
      }
    }
  }

  /** The loop of `_source_ranges`. */
  method SourceRanges(text: string, sizes: Sizes) returns (ranges: seq<Range>)
    requires sizes.Allowed()
    ensures ranges == Ranges(text, sizes, 0)
  {
    hide ChunkEnd;
    ranges := [];
    var start := 0;
    while start < |text|
      invariant ranges + Ranges(text, sizes, start) == Ranges(text, sizes, 0)
      decreases |text| - start
    {
      var end := FindEnd(text, sizes, start);
      ranges := ranges + [Range(start, end)];
      if end == |text| {
        break;
      }
      start := end - sizes.overlap;
    }
  }

  // ----- What the ranges promise ---------------------------------------------------------------------

  predicate Follows(before: Range, after: Range, overlap: nat) {
    before.end - after.start == overlap && before.start < after.start && before.end < after.end
  }

  /** Gap-free ranges from `start` to the end of the text, each within the size, neighbours overlapping exactly. */
  ghost predicate Tiles(ranges: seq<Range>, length: nat, sizes: Sizes, start: nat) {
    && ranges != [] && ranges[0].start == start && ranges[|ranges| - 1].end == length
    && (forall i :: 0 <= i < |ranges| ==>
          ranges[i].start < ranges[i].end <= ranges[i].start + sizes.size && ranges[i].end <= length)
    && (forall i :: 0 < i < |ranges| ==> Follows(ranges[i - 1], ranges[i], sizes.overlap))
  }

  lemma TilesPrepend(first: Range, rest: seq<Range>, length: nat, sizes: Sizes)
    requires first.start < first.end <= first.start + sizes.size && first.end < length
    requires sizes.overlap <= first.end && Tiles(rest, length, sizes, first.end - sizes.overlap)
    requires rest != [] && Follows(first, rest[0], sizes.overlap)
    ensures Tiles([first] + rest, length, sizes, first.start)
  {
    hide Follows;
    var all := [first] + rest;
    assert all[|all| - 1] == rest[|rest| - 1];
    forall i | 0 < i < |all|
      ensures Follows(all[i - 1], all[i], sizes.overlap)
    {
      if i > 1 {
        assert all[i - 1] == rest[i - 2] && all[i] == rest[i - 1];
        assert Follows(rest[i - 2], rest[i - 1], sizes.overlap);
      }
    }
  }

  lemma RangesUnfold(text: string, sizes: Sizes, start: nat) returns (end: nat, rest: seq<Range>)
    requires sizes.Allowed() && start < |text|
    ensures end == ChunkEnd(text, sizes, start)
    ensures Ranges(text, sizes, start) == [Range(start, end)] + rest
    ensures end == |text| ==> rest == []
    ensures end < |text| ==> rest == Ranges(text, sizes, end - sizes.overlap) && rest != []
    ensures end < |text| ==> rest[0].start == end - sizes.overlap && rest[0].end > end
  {
    hide ChunkEnd;
    end := ChunkEnd(text, sizes, start);
    rest := if end == |text| then [] else Ranges(text, sizes, end - sizes.overlap);
  }

  lemma {:induction false} RangesTile(text: string, sizes: Sizes, start: nat)
    requires sizes.Allowed() && start < |text|
    ensures Tiles(Ranges(text, sizes, start), |text|, sizes, start)
    decreases |text| - start
  {
    hide ChunkEnd, Ranges, Tiles;
    var end, rest := RangesUnfold(text, sizes, start);
    if end < |text| {
      RangesTile(text, sizes, end - sizes.overlap);
      TilesPrepend(Range(start, end), rest, |text|, sizes);
    } else {
      assert [Range(start, end)] + rest == [Range(start, end)];
      OneTile(Range(start, end), sizes);
    }
  }

  lemma OneTile(range: Range, sizes: Sizes)
    requires range.start < range.end <= range.start + sizes.size
    ensures Tiles([range], range.end, sizes, range.start)
  {
  }

  // ----- Where the ranges end ------------------------------------------------------------------------

  /** `end` lies just after this separator, inside the window, and makes the chunk long enough. */
  predicate IsCut(text: string, sizes: Sizes, start: nat, separator: string, end: nat) {
    && start + |separator| <= end <= |text| && end <= start + sizes.size
    && text[end - |separator|..end] == separator
    && end - start > sizes.overlap && end - start >= sizes.size / 2
  }

  ghost predicate HasCut(text: string, sizes: Sizes, start: nat, separator: string) {
    exists end: nat :: IsCut(text, sizes, start, separator, end)
  }

  /** The last cut of this separator. */
  ghost predicate IsLastCut(text: string, sizes: Sizes, start: nat, separator: string, end: nat) {
    && IsCut(text, sizes, start, separator, end)
    && forall e: nat :: IsCut(text, sizes, start, separator, e) ==> e <= end
  }

  /**
   A chunk takes the rest of the text if that fits; otherwise it ends at the last cut after an empty line, or else after
   a line, an ideographic full stop, a full stop or a blank, in this order; without any cut it is as long as allowed.
   */
  ghost predicate EndsWell(text: string, sizes: Sizes, start: nat, end: nat) {
    if start + sizes.size >= |text| then end == |text|
    else if HasCut(text, sizes, start, "\n\n") then IsLastCut(text, sizes, start, "\n\n", end)
    else if HasCut(text, sizes, start, "\n") then IsLastCut(text, sizes, start, "\n", end)
    else if HasCut(text, sizes, start, "\U{3002}") then IsLastCut(text, sizes, start, "\U{3002}", end)
    else if HasCut(text, sizes, start, ".") then IsLastCut(text, sizes, start, ".", end)
    else if HasCut(text, sizes, start, " ") then IsLastCut(text, sizes, start, " ", end)
    else end == start + sizes.size
  }

  lemma BoundaryIsLastCut(text: string, sizes: Sizes, start: nat, separator: string)
    requires sizes.Allowed() && start + sizes.size < |text| && separator != ""
    ensures var b := BoundaryAfter(text, separator, start, start + sizes.size, sizes.MinimumBoundary());
            && (b.Some? <==> HasCut(text, sizes, start, separator))
            && (b.Some? ==> IsLastCut(text, sizes, start, separator, b.value))
  {
    var high := start + sizes.size;
    var position := LastOccurrence(text, separator, start, high);
    forall e: nat | IsCut(text, sizes, start, separator, e)
      ensures position.Some? && e <= position.value + |separator|
    {
      assert OccursAt(text, separator, e - |separator|, high);
    }
    if position.Some? && position.value + |separator| - start >= sizes.MinimumBoundary() {
      assert IsCut(text, sizes, start, separator, position.value + |separator|);
    }
  }

  lemma BoundaryNext(text: string, parts: seq<string>, start: nat, high: nat, minimum: nat)
    requires start <= high <= |text| && parts != []
    ensures FirstBoundary(text, parts, start, high, minimum)
            == if BoundaryAfter(text, parts[0], start, high, minimum).Some?
               then BoundaryAfter(text, parts[0], start, high, minimum)
               else FirstBoundary(text, parts[1..], start, high, minimum)
    ensures FirstBoundary(text, [], start, high, minimum) == None
  {
    hide BoundaryAfter;
  }

  lemma ChunkEndsWell(text: string, sizes: Sizes, start: nat)
    requires sizes.Allowed() && start < |text|
    ensures EndsWell(text, sizes, start, ChunkEnd(text, sizes, start))
  {
    if start + sizes.size < |text| {
      var (high, minimum) := (start + sizes.size, sizes.MinimumBoundary());
      hide BoundaryAfter, FirstBoundary, HasCut, IsLastCut;
      BoundaryIsLastCut(text, sizes, start, "\n\n");
      BoundaryIsLastCut(text, sizes, start, "\n");
      BoundaryIsLastCut(text, sizes, start, "\U{3002}");
      BoundaryIsLastCut(text, sizes, start, ".");
      BoundaryIsLastCut(text, sizes, start, " ");
      BoundaryNext(text, SEPARATORS, start, high, minimum);
      BoundaryNext(text, SEPARATORS[1..], start, high, minimum);
      BoundaryNext(text, SEPARATORS[2..], start, high, minimum);
      BoundaryNext(text, SEPARATORS[3..], start, high, minimum);
      BoundaryNext(text, SEPARATORS[4..], start, high, minimum);
      assert SEPARATORS[1..][1..] == SEPARATORS[2..] && SEPARATORS[2..][1..] == SEPARATORS[3..];
      assert SEPARATORS[3..][1..] == SEPARATORS[4..] && SEPARATORS[4..][1..] == [];
    }
  }

  /** Every range ends where a chunk that starts there has to end. */
  lemma {:induction false} EveryRangeEndsWell(text: string, sizes: Sizes, start: nat)
    requires sizes.Allowed() && start < |text|
    ensures forall k :: 0 <= k < |Ranges(text, sizes, start)| ==>
              var r := Ranges(text, sizes, start)[k]; EndsWell(text, sizes, r.start, r.end)
    decreases |text| - start
  {
    hide ChunkEnd, Ranges, EndsWell;
    var end, rest := RangesUnfold(text, sizes, start);
    ChunkEndsWell(text, sizes, start);
    if end < |text| {
      EveryRangeEndsWell(text, sizes, end - sizes.overlap);
      assert forall k :: 0 < k < |[Range(start, end)] + rest| ==> ([Range(start, end)] + rest)[k] == rest[k - 1];
    }
  }

  /** `text[start:end]` for positions of the text; empty for anything else. */
  function Slice(text: string, start: nat, end: nat): string {
    if start <= end <= |text| then text[start..end] else ""
  }

  /** What each of the ranges adds beyond the overlap with the range before it. */
  function Fresh(text: string, ranges: seq<Range>, overlap: nat): string {
    if ranges == [] then ""
    else Slice(text, ranges[0].start + overlap, ranges[0].end) + Fresh(text, ranges[1..], overlap)
  }

  /** The first chunk whole and every later one without its overlap. */
  function Rebuilt(text: string, ranges: seq<Range>, overlap: nat): string {
    if ranges == [] then ""
    else Slice(text, ranges[0].start, ranges[0].end) + Fresh(text, ranges[1..], overlap)
  }

  lemma SliceThenRest(text: string, start: nat, end: nat)
    requires start <= end <= |text|
    ensures Slice(text, start, end) + text[end..] == text[start..]
  {
  }

  lemma {:induction false} FreshIsTheRest(text: string, sizes: Sizes, start: nat)
    requires sizes.Allowed() && start + sizes.overlap < |text|
    ensures Fresh(text, Ranges(text, sizes, start), sizes.overlap) == text[start + sizes.overlap..]
    decreases |text| - start
  {
    hide ChunkEnd, Ranges, Slice;
    var end, rest := RangesUnfold(text, sizes, start);
    assert Ranges(text, sizes, start)[1..] == rest;
    SliceThenRest(text, start + sizes.overlap, end);
    if end < |text| {
      FreshIsTheRest(text, sizes, end - sizes.overlap);
    }
  }

  lemma FirstThenFresh(text: string, sizes: Sizes)
    requires sizes.Allowed() && text != ""
    ensures Rebuilt(text, Ranges(text, sizes, 0), sizes.overlap) == text
  {
    hide ChunkEnd, Ranges, Slice;
    var end, rest := RangesUnfold(text, sizes, 0);
    assert Ranges(text, sizes, 0)[1..] == rest;
    SliceThenRest(text, 0, end);
    if end < |text| {
      FreshIsTheRest(text, sizes, end - sizes.overlap);
    }
  }

  /** The chunk ranges lose nothing and repeat nothing but the overlaps. */
  lemma DroppingOverlapsRebuilds(text: string, sizes: Sizes)
    requires sizes.Allowed()
    ensures Rebuilt(text, Ranges(text, sizes, 0), sizes.overlap) == text
  {
    if text != "" {
      FirstThenFresh(text, sizes);
    }
  }

  lemma {:induction false} EveryPositionIsCovered(text: string, sizes: Sizes, start: nat, p: nat) returns (k: nat)
    requires sizes.Allowed() && start <= p < |text|
    ensures k < |Ranges(text, sizes, start)|
    ensures Ranges(text, sizes, start)[k].start <= p < Ranges(text, sizes, start)[k].end <= |text|
    decreases |text| - start
  {
    hide ChunkEnd, Ranges;
    var end, rest := RangesUnfold(text, sizes, start);
    if p < end {
      k := 0;
    } else {
      var i := EveryPositionIsCovered(text, sizes, end - sizes.overlap, p);
      assert Ranges(text, sizes, start)[i + 1] == rest[i];
      k := i + 1;
    }
  }

  // ----- The chunks ----------------------------------------------------------------------------------

  /** The chunks of `ranges`, numbered after `count` kept chunks; blank ones are dropped. */
  function Kept(text: string, ranges: seq<Range>, count: nat): seq<Chunk> {
    if ranges == [] then []
    else
      var content := Slice(text, ranges[0].start, ranges[0].end);
      if IsBlank(content) then Kept(text, ranges[1..], count)
      else [Chunk(content, count, ranges[0].start, ranges[0].end)] + Kept(text, ranges[1..], count + 1)
  }

  function Chunks(text: string, sizes: Sizes): seq<Chunk>
    requires sizes.Allowed()
  {
    if IsBlank(text) then [] else Kept(text, Ranges(text, sizes, 0), 0)
  }

  /** The loop of `split`. */
  method Split(text: string, sizes: Sizes) returns (chunks: seq<Chunk>)
    requires sizes.Allowed()
    ensures chunks == Chunks(text, sizes)
  {
    hide IsBlank, Ranges, Slice, Kept;
    KeptNone(text);
    chunks := [];
    if IsBlank(text) {
      return;
    }
    var ranges := SourceRanges(text, sizes);
    assert ranges[0..] == ranges;
    for i := 0 to |ranges|
      invariant chunks + Kept(text, ranges[i..], |chunks|) == Kept(text, ranges, 0)
    {
      KeptNext(text, ranges, i, |chunks|);
      var content := Slice(text, ranges[i].start, ranges[i].end);
      if !IsBlank(content) {
        chunks := chunks + [Chunk(content, |chunks|, ranges[i].start, ranges[i].end)];
      }
    }
    assert ranges[|ranges|..] == [];
    assert chunks + [] == chunks;
  }

  lemma KeptNone(text: string)
    ensures forall count :: Kept(text, [], count) == []
  {
  }

  lemma KeptNext(text: string, ranges: seq<Range>, i: nat, count: nat)
    requires i < |ranges|
    ensures var content := Slice(text, ranges[i].start, ranges[i].end);
            Kept(text, ranges[i..], count)
            == if IsBlank(content) then Kept(text, ranges[i + 1..], count)
               else [Chunk(content, count, ranges[i].start, ranges[i].end)] + Kept(text, ranges[i + 1..], count + 1)
  {
    hide IsBlank, Slice;
    assert ranges[i..][0] == ranges[i] && ranges[i..][1..] == ranges[i + 1..];
  }

  /** The check a reader of the index makes against the parsed text (`_validate_hit`). */
  predicate PassesSliceCheck(chunk: Chunk, text: string) {
    && chunk.start < chunk.end <= |text|
    && !IsBlank(chunk.content)
    && chunk.content == text[chunk.start..chunk.end]
  }

  /** Numbered from `count` on, and each passes the reader's check. */
  ghost predicate Readable(chunks: seq<Chunk>, text: string, count: nat) {
    forall i :: 0 <= i < |chunks| ==> chunks[i].index == count + i && PassesSliceCheck(chunks[i], text)
  }

  lemma {:induction false} KeptPass(text: string, ranges: seq<Range>, count: nat)
    requires forall i :: 0 <= i < |ranges| ==> ranges[i].start < ranges[i].end <= |text|
    ensures Readable(Kept(text, ranges, count), text, count)
  {
    hide IsBlank;
    if ranges != [] {
      KeptPass(text, ranges[1..], count);
      KeptPass(text, ranges[1..], count + 1);
      var kept, more := Kept(text, ranges, count), Kept(text, ranges[1..], count + 1);
      if !IsBlank(Slice(text, ranges[0].start, ranges[0].end)) {
        forall i | 0 < i < |kept|
          ensures kept[i].index == count + i && PassesSliceCheck(kept[i], text)
        {
          if i > 0 {
            assert kept[i] == more[i - 1];
          }
        }
      }
    }
  }

  /** Every range with something in it has its chunk. */
  lemma {:induction false} SolidRangeIsKept(text: string, ranges: seq<Range>, count: nat, k: nat) returns (i: nat)
    requires k < |ranges| && !IsBlank(Slice(text, ranges[k].start, ranges[k].end))
    ensures i < |Kept(text, ranges, count)|
    ensures var chunk := Kept(text, ranges, count)[i]; chunk.start == ranges[k].start && chunk.end == ranges[k].end
  {
    hide IsBlank, Slice;
    if k == 0 {
      i := 0;
    } else {
      assert ranges[k] == ranges[1..][k - 1];
      if IsBlank(Slice(text, ranges[0].start, ranges[0].end)) {
        i := SolidRangeIsKept(text, ranges[1..], count, k - 1);
      } else {
        var j := SolidRangeIsKept(text, ranges[1..], count + 1, k - 1);
        i := j + 1;
      }
    }
  }

  /** Every chunk is of some range, and chunks stand in the order of their ranges. */
  lemma {:induction false} ChunkHasItsRange(text: string, ranges: seq<Range>, count: nat, i: nat) returns (k: nat)
    requires i < |Kept(text, ranges, count)|
    ensures i <= k < |ranges|
    ensures var chunk := Kept(text, ranges, count)[i]; chunk.start == ranges[k].start && chunk.end == ranges[k].end
  {
    hide IsBlank, Slice;
    if IsBlank(Slice(text, ranges[0].start, ranges[0].end)) {
      k := ChunkHasItsRange(text, ranges[1..], count, i);
      k := k + 1;
    } else if i == 0 {
      k := 0;
    } else {
      k := ChunkHasItsRange(text, ranges[1..], count + 1, i - 1);
      k := k + 1;
    }
  }

  lemma SolidPart(text: string, start: nat, end: nat)
    requires start <= end <= |text| && !IsBlank(text[start..end])
    ensures !IsBlank(text)
  {
    var p :| 0 <= p < |text[start..end]| && !IsSpace(text[start..end][p]);
    assert text[start..end][p] == text[start + p];
  }

  /** The chunks of a text are of exactly those ranges that hold more than blanks. */
  lemma ChunksAreTheSolidRanges(text: string, sizes: Sizes, start: nat, end: nat)
    requires sizes.Allowed() && start <= end <= |text|
    ensures (exists i :: 0 <= i < |Chunks(text, sizes)|
                         && Chunks(text, sizes)[i].start == start && Chunks(text, sizes)[i].end == end)
            <==> Range(start, end) in Ranges(text, sizes, 0) && !IsBlank(text[start..end])
  {
    hide Ranges, Kept, IsBlank;
    var (chunks, ranges) := (Chunks(text, sizes), Ranges(text, sizes, 0));
    if i :| 0 <= i < |chunks| && chunks[i].start == start && chunks[i].end == end {
      var k := ChunkHasItsRange(text, ranges, 0, i);
      ChunksPassTheReader(text, sizes);
    }
    if Range(start, end) in ranges && !IsBlank(text[start..end]) {
      SolidPart(text, start, end);
      var k :| 0 <= k < |ranges| && ranges[k] == Range(start, end);
      var i := SolidRangeIsKept(text, ranges, 0, k);
      assert chunks[i].start == start && chunks[i].end == end;
    }
  }

  /** Every chunk the splitter keeps is numbered by its place and passes the reader's check. */
  lemma ChunksPassTheReader(text: string, sizes: Sizes)
    requires sizes.Allowed()
    ensures Readable(Chunks(text, sizes), text, 0)
  {
    if !IsBlank(text) {
      RangesTile(text, sizes, 0);
      KeptPass(text, Ranges(text, sizes, 0), 0);
    }
  }

  /** The worker's "did not produce source chunks" failure is exactly the blank text. */
  lemma NoChunksOnlyForBlankText(text: string, sizes: Sizes)
    requires sizes.Allowed()
    ensures Chunks(text, sizes) == [] <==> IsBlank(text)
  {
    hide ChunkEnd, Ranges;
    if !IsBlank(text) {
      RangesTile(text, sizes, 0);
      var p :| 0 <= p < |text| && !IsSpace(text[p]);
      var k := EveryPositionIsCovered(text, sizes, 0, p);
      var range := Ranges(text, sizes, 0)[k];
      assert text[range.start..range.end][p - range.start] == text[p];
      var i := SolidRangeIsKept(text, Ranges(text, sizes, 0), 0, k);
    }
  }
}
