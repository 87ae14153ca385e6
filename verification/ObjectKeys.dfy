/** The keys of a document's objects, and reading a generation back from a listed key. */
module ObjectKeys {
  import opened Outcomes
  import opened Decimal

  /** Ids are path segments. */
  predicate IsSegment(s: string) {
    '/' !in s
  }

  function DocumentPath(owner: nat, collection: string, document: string): string {
    "users/" + (Numeral(owner) + ("/" + ("knowledge/" + (collection + ("/" + (document + "/"))))))
  }

  function SourceKey(owner: nat, collection: string, document: string): string {
    DocumentPath(owner, collection, document) + "source"
  }

  function ParsedPrefix(owner: nat, collection: string, document: string): string {
    DocumentPath(owner, collection, document) + "parsed/"
  }

  function ParsedKey(owner: nat, collection: string, document: string, generation: nat): string {
    ParsedPrefix(owner, collection, document) + Numeral(generation)
  }

  /** The cleanups' reading of a listed key: `None` is a noncanonical key, which they count as an error. */
  function ListedGeneration(owner: nat, collection: string, document: string, key: string): Option<nat> {
    var prefix := ParsedPrefix(owner, collection, document);
    var text := if prefix <= key then key[|prefix|..] else key;
    if !IsNumeral(text) then None
    else
      var generation := Number(text);
      if generation < 1 || key != ParsedKey(owner, collection, document, generation) then None else Some(generation)
  }

  /** Exactly the parsed keys of this document are recognised, each as its own generation. */
  lemma ListedGenerationIs(owner: nat, collection: string, document: string, key: string, generation: nat)
    requires generation >= 1
    ensures ListedGeneration(owner, collection, document, key) == Some(generation)
            <==> key == ParsedKey(owner, collection, document, generation)
  {
    hide DocumentPath;
    NumberOfNumeral(generation);
    var prefix := ParsedPrefix(owner, collection, document);
    if key == ParsedKey(owner, collection, document, generation) {
      assert prefix <= key && key[|prefix|..] == Numeral(generation);
    }
  }

  function FirstSlash(s: string): nat {
    if s == "" || s[0] == '/' then 0 else 1 + FirstSlash(s[1..])
  }

  lemma {:induction false} SegmentEnds(a: string, b: string)
    requires IsSegment(a)
    ensures FirstSlash(a + ("/" + b)) == |a|
  {
    var text := a + ("/" + b);
    if a != "" {
      assert text[0] == a[0] && a[0] in a && text[1..] == a[1..] + ("/" + b);
      SegmentEnds(a[1..], b);
    }
  }

  lemma FirstSegment(a: string, b: string, c: string, d: string)
    requires IsSegment(a) && IsSegment(c) && a + ("/" + b) == c + ("/" + d)
    ensures a == c && b == d
  {
    SegmentEnds(a, b);
    SegmentEnds(c, d);
    var (left, right) := (a + ("/" + b), c + ("/" + d));
    assert a == left[..|a|] && c == right[..|a|];
    assert b == left[|a| + 1..] && d == right[|a| + 1..];
  }

  lemma NumeralsAreSegments(n: nat)
    ensures IsSegment(Numeral(n))
  {
    assert IsNumeral(Numeral(n));
  }

  /** Two documents never share a key, nor two generations of one, nor a source and a parsed object. */
  lemma KeysAreDistinct(o: nat, c: string, d: string, g: nat, o': nat, c': string, d': string, g': nat)
    requires IsSegment(c) && IsSegment(d) && IsSegment(c') && IsSegment(d')
    ensures ParsedKey(o, c, d, g) == ParsedKey(o', c', d', g') ==> o == o' && c == c' && d == d' && g == g'
    ensures SourceKey(o, c, d) == SourceKey(o', c', d') ==> o == o' && c == c' && d == d'
    ensures SourceKey(o, c, d) != ParsedKey(o', c', d', g')
  {
    var (s, s') := ("parsed/" + Numeral(g), "parsed/" + Numeral(g'));
    ParsedKeyIs(o, c, d, g);
    ParsedKeyIs(o', c', d', g');
    assert s'[0] == 'p' && "source"[0] == 's';
    if ParsedKey(o, c, d, g) == ParsedKey(o', c', d', g') {
      PathsAreDistinct(o, c, d, s, o', c', d', s');
      assert Numeral(g) == s[|"parsed/"|..] && Numeral(g') == s'[|"parsed/"|..];
      NumeralsDiffer(g, g');
    }
    if SourceKey(o, c, d) == SourceKey(o', c', d') {
      PathsAreDistinct(o, c, d, "source", o', c', d', "source");
    }
    if SourceKey(o, c, d) == ParsedKey(o', c', d', g') {
      PathsAreDistinct(o, c, d, "source", o', c', d', s');
    }
  }

  lemma ParsedKeyIs(o: nat, c: string, d: string, g: nat)
    ensures ParsedKey(o, c, d, g) == DocumentPath(o, c, d) + ("parsed/" + Numeral(g))
  {
    hide DocumentPath, Numeral;
  }

  lemma PathIs(o: nat, c: string, d: string, rest: string)
    ensures DocumentPath(o, c, d) + rest
            == "users/" + (Numeral(o) + ("/" + ("knowledge/" + (c + ("/" + (d + ("/" + rest)))))))
  {
    hide Numeral;
  }

  lemma SamePrefix(p: string, a: string, b: string)
    requires p + a == p + b
    ensures a == b
  {
    assert a == (p + a)[|p|..] && b == (p + b)[|p|..];
  }

  lemma PathsAreDistinct(o: nat, c: string, d: string, rest: string, o': nat, c': string, d': string, rest': string)
    requires IsSegment(c) && IsSegment(d) && IsSegment(c') && IsSegment(d')
    requires DocumentPath(o, c, d) + rest == DocumentPath(o', c', d') + rest'
    ensures o == o' && c == c' && d == d' && rest == rest'
  {
    hide DocumentPath, Numeral, IsSegment;
    PathIs(o, c, d, rest);
    PathIs(o', c', d', rest');
    NumeralsAreSegments(o);
    NumeralsAreSegments(o');
    var inner := "knowledge/" + (c + ("/" + (d + ("/" + rest))));
    var inner' := "knowledge/" + (c' + ("/" + (d' + ("/" + rest'))));
    SamePrefix("users/", Numeral(o) + ("/" + inner), Numeral(o') + ("/" + inner'));
    FirstSegment(Numeral(o), inner, Numeral(o'), inner');
    NumeralsDiffer(o, o');
    SamePrefix("knowledge/", c + ("/" + (d + ("/" + rest))), c' + ("/" + (d' + ("/" + rest'))));
    FirstSegment(c, d + ("/" + rest), c', d' + ("/" + rest'));
    FirstSegment(d, rest, d', rest');
  }
}
