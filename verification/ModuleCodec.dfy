/** Lists of module names stored as one string, `<aaa,<bbb,`, and searched by substring. */
module ModuleCodec {
  import opened Lists
  import opened Text

  // --- str.strip and str.split ---

  /** The characters Python's `strip` removes. */
  predicate IsSpace(c: char) {
    c in "\t\n\U{00000B}\U{00000C}\r\U{00001C}\U{00001D}\U{00001E}\U{00001F} \U{000085}\U{0000A0}\U{001680}" ||
    '\U{002000}' <= c <= '\U{00200A}' || c in "\U{002028}\U{002029}\U{00202F}\U{00205F}\U{003000}"
  }

  /** The same by code point. */
  lemma SpacesAre(c: char)
    ensures var n := c as int;
            IsSpace(c) <==> 9 <= n <= 13 || 28 <= n <= 32 || n in {0x85, 0xA0, 0x1680, 0x2028, 0x2029, 0x202F, 0x205F, 0x3000}
                            || 0x2000 <= n <= 0x200A
  {
  }

  predicate IsComma(c: char) { c == ',' }

  function StripLeft(s: string, drop: char -> bool): string {
    if s != "" && drop(s[0]) then StripLeft(s[1..], drop) else s
  }

  function StripRight(s: string, drop: char -> bool): string {
    if s != "" && drop(s[|s| - 1]) then StripRight(s[..|s| - 1], drop) else s
  }

  function Strip(s: string, drop: char -> bool): string {
    StripRight(StripLeft(s, drop), drop)
  }

  /** Nothing to strip at either end. */
  predicate Bare(s: string, drop: char -> bool) {
    s == "" || (!drop(s[0]) && !drop(s[|s| - 1]))
  }

  lemma {:induction false} StripLeftFacts(s: string, drop: char -> bool)
    ensures var r := StripLeft(s, drop); |r| <= |s| && r == s[|s| - |r|..]
    ensures var r := StripLeft(s, drop); r == "" || !drop(r[0])
    ensures var r := StripLeft(s, drop); s != "" && !drop(s[0]) ==> r == s
  {
    if s != "" && drop(s[0]) { StripLeftFacts(s[1..], drop); }
  }

  lemma {:induction false} StripRightFacts(s: string, drop: char -> bool)
    ensures var r := StripRight(s, drop); |r| <= |s| && r == s[..|r|]
    ensures var r := StripRight(s, drop); r == "" || !drop(r[|r| - 1])
    ensures var r := StripRight(s, drop); s != "" && !drop(s[|s| - 1]) ==> r == s
  {
    if s != "" && drop(s[|s| - 1]) { StripRightFacts(s[..|s| - 1], drop); }
  }

  /** Stripping leaves a bare piece of the string, and the string itself exactly when it is bare. */
  lemma StripFacts(s: string, drop: char -> bool)
    ensures var r := Strip(s, drop); Bare(r, drop) && |r| <= |s| && (r == s <==> Bare(s, drop))
    ensures forall c | c in Strip(s, drop) :: c in s
  {
    StripLeftFacts(s, drop);
    StripRightFacts(StripLeft(s, drop), drop);
  }

  /** `s.split("<")`. */
  function Split(s: string): (r: seq<string>)
    ensures r != []
  {
    if s == "" then [""]
    else
      var rest := Split(s[1..]);
      if s[0] == '<' then [""] + rest else [[s[0]] + rest[0]] + rest[1..]
  }

  lemma {:induction false} SplitAfter(x: string, s: string)
    requires '<' !in x
    ensures Split(x + s) == [x + Split(s)[0]] + Split(s)[1..]
  {
    if x == "" {
      assert x + s == s;
      assert x + Split(s)[0] == Split(s)[0];
    } else {
      SplitAfter(x[1..], s);
      assert x + s == [x[0]] + (x[1..] + s);
      assert [x[0]] + (x[1..] + Split(s)[0]) == x + Split(s)[0];
    }
  }

  lemma {:induction false} PiecesHaveNoMark(s: string)
    ensures forall p | p in Split(s) :: '<' !in p
  {
    if s != "" {
      PiecesHaveNoMark(s[1..]);
      var rest := Split(s[1..]);
      assert rest[0] in rest;
    }
  }

  // --- The codec ---

  function Format(name: string): string { "<" + name + "," }

  function Stripped(values: seq<string>): seq<string> {
    if values == [] then []
    else
      var v := Strip(values[0], IsSpace);
      (if v == "" then [] else [v]) + Stripped(values[1..])
  }

  /** `sorted({value.strip() ...})` without the empty name. */
  function Normalize(values: seq<string>): (r: seq<string>)
    ensures Ascending(r)
  {
    SortedSet(Stripped(values))
  }

  function Join(names: seq<string>): string {
    if names == [] then "" else Format(names[0]) + Join(names[1..])
  }

  function Encode(values: seq<string>): string {
    Join(Normalize(values))
  }

  function Items(pieces: seq<string>): seq<string> {
    if pieces == [] then []
    else (if pieces[0] == "" then [] else [Strip(pieces[0], IsComma)]) + Items(pieces[1..])
  }

  function Decode(s: string): (r: seq<string>)
    ensures Ascending(r)
  {
    Normalize(Items(Split(s)))
  }

  lemma {:induction false} StrippedAt(values: seq<string>)
    ensures forall n :: n in Stripped(values) <==> n != "" && exists v :: v in values && Strip(v, IsSpace) == n
  {
    if values != [] {
      StrippedAt(values[1..]);
      forall n ensures n in Stripped(values) <==> n != "" && exists v :: v in values && Strip(v, IsSpace) == n {
        if n != "" && exists v :: v in values && Strip(v, IsSpace) == n {
          var v :| v in values && Strip(v, IsSpace) == n;
          assert v == values[0] || v in values[1..];
        }
      }
    }
  }

  lemma NormalizeAt(values: seq<string>, n: string)
    ensures n in Normalize(values) <==> n != "" && exists v :: v in values && Strip(v, IsSpace) == n
    ensures n in Normalize(values) ==> Bare(n, IsSpace)
  {
    StrippedAt(values);
    assert Elements(Normalize(values)) == Elements(Stripped(values));
    assert n in Normalize(values) <==> n in Elements(Normalize(values));
    assert n in Stripped(values) <==> n in Elements(Stripped(values));
    if n in Normalize(values) {
      var v :| v in values && Strip(v, IsSpace) == n;
      StripFacts(v, IsSpace);
    }
  }

  /** Normal form is reached in one step. */
  lemma NormalizeIsIdempotent(values: seq<string>)
    ensures Normalize(Normalize(values)) == Normalize(values)
  {
    var names := Normalize(values);
    forall n ensures n in Normalize(names) <==> n in names {
      NormalizeAt(values, n);
      NormalizeAt(names, n);
      if n in names { StripFacts(n, IsSpace); }
      if n in Normalize(names) {
        var v :| v in names && Strip(v, IsSpace) == n;
        NormalizeAt(values, v);
        StripFacts(v, IsSpace);
      }
    }
    assert Elements(Normalize(names)) == Elements(names);
    AscendingIsCanonical(Normalize(names), names);
  }

  /** What one stored name is read back as; empty when it vanishes. */
  function ReadBack(name: string): string {
    Strip(Strip(name + ",", IsComma), IsSpace)
  }

  function WithComma(names: seq<string>): seq<string> {
    if names == [] then [] else [names[0] + ","] + WithComma(names[1..])
  }

  lemma {:induction false} SplitJoin(names: seq<string>)
    requires forall n | n in names :: '<' !in n
    ensures Split(Join(names)) == [""] + WithComma(names)
  {
    if names != [] {
      SplitJoin(names[1..]);
      var stored, rest := names[0] + ",", Join(names[1..]);
      SplitAfter(stored, rest);
      assert Join(names) == ['<'] + (stored + rest);
      assert stored + "" == stored;
      assert Split(stored + rest) == [stored] + WithComma(names[1..]);
    }
  }

  /** Stripping the commas of some piece gives `x`. */
  ghost predicate StripsTo(pieces: seq<string>, x: string) {
    exists p :: p in pieces && p != "" && Strip(p, IsComma) == x
  }

  lemma {:induction false} ItemsAt(pieces: seq<string>, x: string)
    ensures x in Items(pieces) <==> StripsTo(pieces, x)
  {
    if pieces != [] {
      ItemsAt(pieces[1..], x);
      if StripsTo(pieces, x) {
        var p :| p in pieces && p != "" && Strip(p, IsComma) == x;
        assert p == pieces[0] || p in pieces[1..];
      }
    }
  }

  lemma {:induction false} WithCommaAt(names: seq<string>)
    ensures forall p :: p in WithComma(names) <==> exists n :: n in names && p == n + ","
  {
    if names != [] {
      WithCommaAt(names[1..]);
      forall p ensures p in WithComma(names) <==> exists n :: n in names && p == n + "," {
        if exists n :: n in names && p == n + "," {
          var n :| n in names && p == n + ",";
          assert n == names[0] || n in names[1..];
        }
      }
    }
  }

  ghost predicate ComesBack(names: seq<string>, x: string) {
    exists n :: n in names && ReadBack(n) == x
  }

  /** Stripping the commas of some stored name gives `v`. */
  ghost predicate StoredAs(names: seq<string>, v: string) {
    exists n :: n in names && Strip(n + ",", IsComma) == v
  }

  lemma StoredPieces(names: seq<string>, v: string)
    ensures StripsTo([""] + WithComma(names), v) <==> StoredAs(names, v)
  {
    WithCommaAt(names);
    var pieces := [""] + WithComma(names);
    if StripsTo(pieces, v) {
      var p :| p in pieces && p != "" && Strip(p, IsComma) == v;
      assert p in WithComma(names);
    }
    if StoredAs(names, v) {
      var n :| n in names && Strip(n + ",", IsComma) == v;
      assert n + "," in WithComma(names);
      assert n + "," in pieces && n + "," != "";
    }
  }

  lemma PiecesOf(names: seq<string>, v: string)
    requires forall n | n in names :: '<' !in n
    ensures v in Items(Split(Join(names))) <==> StoredAs(names, v)
  {
    SplitJoin(names);
    ItemsAt([""] + WithComma(names), v);
    StoredPieces(names, v);
  }

  /** Decoding stored names reads back each of them. */
  lemma DecodeAt(names: seq<string>, x: string)
    requires forall n | n in names :: '<' !in n
    ensures x in Decode(Join(names)) <==> x != "" && ComesBack(names, x)
  {
    var items := Items(Split(Join(names)));
    NormalizeAt(items, x);
    if x != "" && ComesBack(names, x) {
      var n :| n in names && ReadBack(n) == x;
      PiecesOf(names, Strip(n + ",", IsComma));
    }
    if x in Decode(Join(names)) {
      var v :| v in items && Strip(v, IsSpace) == x;
      PiecesOf(names, v);
      var n :| n in names && Strip(n + ",", IsComma) == v;
      assert ReadBack(n) == x;
    }
  }

  /** A name survives if it has no comma at either end; otherwise it is read back shorter. */
  lemma ReadBackFacts(n: string)
    requires n != "" && Bare(n, IsSpace)
    ensures if Bare(n, IsComma) then ReadBack(n) == n else |ReadBack(n)| < |n|
  {
    var s := n + ",";
    StripLeftFacts(s, IsComma);
    var l := StripLeft(s, IsComma);
    StripRightFacts(l, IsComma);
    var r := StripRight(l, IsComma);
    StripFacts(r, IsSpace);
    if n[0] != ',' {
      assert l == s && s[..|s| - 1] == n;
      assert r == StripRight(n, IsComma);
      StripRightFacts(n, IsComma);
    } else {
      assert l != s;
      if l != "" {
        assert l[|l| - 1] == ',';
        assert r != l;
      }
    }
  }

  /** Safe to store: no mark inside and no comma at either end. */
  predicate Storable(n: string) {
    '<' !in n && Bare(n, IsComma)
  }

  lemma RoundTripHolds(values: seq<string>)
    requires forall n | n in Normalize(values) :: Storable(n)
    ensures Decode(Encode(values)) == Normalize(values)
  {
    var names := Normalize(values);
    var back := Decode(Encode(values));
    forall n | n in names ensures n != "" && ReadBack(n) == n {
      NormalizeAt(values, n);
      ReadBackFacts(n);
    }
    forall x ensures x in back <==> x in names {
      DecodeAt(names, x);
      if x in names { assert ReadBack(x) == x; }
    }
    assert Elements(back) == Elements(names);
    AscendingIsCanonical(back, names);
  }

  lemma DecodedHasNoMark(s: string)
    ensures forall x | x in Decode(s) :: '<' !in x
  {
    PiecesHaveNoMark(s);
    forall x | x in Decode(s) ensures '<' !in x {
      NormalizeAt(Items(Split(s)), x);
      var v :| v in Items(Split(s)) && Strip(v, IsSpace) == x;
      ItemsAt(Split(s), v);
      var p :| p in Split(s) && p != "" && Strip(p, IsComma) == v;
      StripFacts(v, IsSpace);
      StripFacts(p, IsComma);
    }
  }

  /** A stripped name, and some name is read back as it. */
  ghost predicate Returns(names: seq<string>, x: string) {
    x != "" && Bare(x, IsSpace) && ComesBack(names, x)
  }

  /** A name with a comma at an end can only be what a longer such name is read back as. */
  lemma LongerBehind(names: seq<string>, b: string) returns (n: string)
    requires forall x | x in names :: Returns(names, x)
    requires b in names && !Bare(b, IsComma)
    ensures n in names && |n| > |b| && !Bare(n, IsComma)
  {
    assert Returns(names, b);
    n :| n in names && ReadBack(n) == b;
    assert Returns(names, n);
    ReadBackFacts(n);
  }

  /** If the names read back to themselves as a set, each one that shrinks has a longer one behind
      it, without end. */
  lemma {:induction false} NoShrinkingName(names: seq<string>, b: string, bound: nat)
    requires forall x | x in names :: Returns(names, x) && |x| <= bound
    requires b in names && !Bare(b, IsComma)
    ensures false
    decreases bound - |b|
  {
    var n := LongerBehind(names, b);
    NoShrinkingName(names, n, bound);
  }

  function Longest(names: seq<string>): (m: nat)
    ensures forall n | n in names :: |n| <= m
  {
    if names == [] then 0 else
      var m := Longest(names[1..]);
      if |names[0]| > m then |names[0]| else m
  }

  lemma RoundTripReturns(values: seq<string>, x: string)
    requires Decode(Encode(values)) == Normalize(values) && x in Normalize(values)
    ensures '<' !in x && Returns(Normalize(values), x)
  {
    DecodedHasNoMark(Encode(values));
    NormalizeAt(values, x);
    DecodeAt(Normalize(values), x);
  }

  lemma RoundTripNeedsStorable(values: seq<string>, b: string)
    requires Decode(Encode(values)) == Normalize(values) && b in Normalize(values)
    ensures Storable(b)
  {
    var names := Normalize(values);
    forall x | x in names ensures Returns(names, x) { RoundTripReturns(values, x); }
    RoundTripReturns(values, b);
    if !Bare(b, IsComma) { NoShrinkingName(names, b, Longest(names)); }
  }

  /** Decoding an encoded list gives back its sorted unique normal form exactly when every name in
      it is storable. */
  lemma RoundTripIffStorable(values: seq<string>)
    ensures Decode(Encode(values)) == Normalize(values) <==> forall n | n in Normalize(values) :: Storable(n)
  {
    if Decode(Encode(values)) == Normalize(values) {
      forall n | n in Normalize(values) ensures Storable(n) { RoundTripNeedsStorable(values, n); }
    }
    if forall n | n in Normalize(values) :: Storable(n) { RoundTripHolds(values); }
  }

  // --- The substring test ---

  ghost predicate OccursAt(s: string, sub: string, i: nat) {
    i + |sub| <= |s| && forall k :: 0 <= k < |sub| ==> s[i + k] == sub[k]
  }

  /** `sub in s`. */
  ghost predicate Contains(s: string, sub: string) {
    exists i: nat :: OccursAt(s, sub, i)
  }

  predicate Plain(n: string) {
    '<' !in n && ',' !in n
  }

  /** Without a mark inside, what is looked for occurs within one stored name. */
  lemma {:induction false} OccursInSome(names: seq<string>, q: string, i: nat) returns (n: string)
    requires '<' !in q && OccursAt(Join(names), Format(q), i)
    ensures n in names && Contains(Format(n), Format(q))
  {
    var f, first, rest := Format(q), Format(names[0]), Join(names[1..]);
    assert Join(names) == first + rest;
    if i >= |first| {
      forall k | 0 <= k < |f| ensures rest[i - |first| + k] == f[k] { assert rest[i - |first| + k] == Join(names)[i + k]; }
      n := OccursInSome(names[1..], q, i - |first|);
    } else {
      n := names[0];
      MarkEndsOccurrence(first, rest, q, i);
    }
  }

  lemma MarkOnlyAtStart(n: string)
    requires '<' !in n
    ensures forall k :: 0 < k < |Format(n)| ==> Format(n)[k] != '<'
  {
    forall k | 0 < k < |Format(n)| ensures Format(n)[k] != '<' {
      if k <= |n| { assert Format(n)[k] == n[k - 1] && n[k - 1] in n; }
    }
  }

  lemma MarkEndsOccurrence(first: string, rest: string, q: string, i: nat)
    requires '<' !in q && i < |first| && OccursAt(first + rest, Format(q), i) && (rest == "" || rest[0] == '<')
    ensures Contains(first, Format(q))
  {
    var f, s := Format(q), first + rest;
    assert i + |f| > |first| ==> s[i + (|first| - i)] == f[|first| - i];
    MarkOnlyAtStart(q);
    forall k | 0 <= k < |f| ensures first[i + k] == f[k] { assert s[i + k] == f[k]; }
    assert OccursAt(first, f, i);
  }

  lemma {:induction false} JoinContains(names: seq<string>, k: nat) returns (i: nat)
    requires k < |names|
    ensures OccursAt(Join(names), Format(names[k]), i)
  {
    var first := Format(names[0]);
    if k == 0 {
      i := 0;
      assert forall c :: 0 <= c < |first| ==> Join(names)[c] == first[c];
    } else {
      var j := JoinContains(names[1..], k - 1);
      i := |first| + j;
      var f := Format(names[k]);
      forall c | 0 <= c < |f| ensures Join(names)[i + c] == f[c] {
        assert Join(names)[i + c] == Join(names[1..])[j + c];
      }
    }
  }

  /** The test asks whether the marked name occurs within some stored name. */
  lemma OccursInOneName(names: seq<string>, q: string)
    requires '<' !in q
    ensures Contains(Join(names), Format(q)) <==> exists n :: n in names && Contains(Format(n), Format(q))
  {
    if Contains(Join(names), Format(q)) {
      var i: nat :| OccursAt(Join(names), Format(q), i);
      var n := OccursInSome(names, q, i);
    }
    if n :| n in names && Contains(Format(n), Format(q)) {
      var k :| 0 <= k < |names| && names[k] == n;
      var i := JoinContains(names, k);
      var j: nat :| OccursAt(Format(n), Format(q), j);
      forall c | 0 <= c < |Format(q)| ensures Join(names)[i + j + c] == Format(q)[c] {
        assert Join(names)[i + (j + c)] == Format(n)[j + c];
      }
      assert OccursAt(Join(names), Format(q), i + j);
    }
  }

  /** What a name begins with, up to its first comma. */
  function FirstPart(n: string): string {
    if n == "" || n[0] == ',' then "" else [n[0]] + FirstPart(n[1..])
  }

  lemma PrefixFromSecond(a: char, s: string, b: char, t: string)
    ensures [a] + s <= [b] + t <==> a == b && s <= t
  {
    assert ([a] + s)[0] == a && ([a] + s)[1..] == s;
    if [a] + s <= [b] + t { assert ([b] + t)[..|s| + 1][1..] == t[..|s|]; }
    if a == b && s <= t { assert [b] + t == [a] + s + t[|s|..]; }
  }

  lemma {:induction false} FirstPartIsPrefix(n: string, q: string)
    requires ',' !in q
    ensures q + "," <= n + "," <==> FirstPart(n) == q
  {
    if n == "" || n[0] == ',' {
      if q != "" { assert (q + ",")[0] == q[0] && q[0] in q && (n + ",")[0] == ','; }
    } else if q == "" {
      assert (n + ",")[0] == n[0];
    } else {
      FirstPartIsPrefix(n[1..], q[1..]);
      PrefixFromSecond(q[0], q[1..] + ",", n[0], n[1..] + ",");
      assert q + "," == [q[0]] + (q[1..] + ",") && n + "," == [n[0]] + (n[1..] + ",");
      assert q == [q[0]] + q[1..];
    }
  }

  lemma OccursAtStart(n: string, q: string)
    requires '<' !in n
    ensures Contains(Format(n), Format(q)) <==> q + "," <= n + ","
  {
    if Contains(Format(n), Format(q)) {
      var i: nat :| OccursAt(Format(n), Format(q), i);
      MarkOnlyAtStart(n);
      assert Format(n)[i + 0] == Format(q)[0] == '<';
      forall k | 0 <= k < |q + ","| ensures (q + ",")[k] == (n + ",")[k] { assert Format(n)[0 + (k + 1)] == Format(q)[k + 1]; }
    }
    if q + "," <= n + "," {
      forall k | 0 <= k < |Format(q)| ensures Format(n)[0 + k] == Format(q)[k] {
        if k > 0 { assert (n + ",")[k - 1] == (q + ",")[k - 1]; }
      }
      assert OccursAt(Format(n), Format(q), 0);
    }
  }

  /** The blocked-module test by substring answers for the names up to their first comma. */
  lemma SubstringTestAnswersFirstParts(values: seq<string>, q: string)
    requires Plain(q) && forall n | n in Normalize(values) :: '<' !in n
    ensures Contains(Encode(values), Format(q)) <==> exists n :: n in Normalize(values) && FirstPart(n) == q
  {
    OccursInOneName(Normalize(values), q);
    forall n | n in Normalize(values) ensures Contains(Format(n), Format(q)) <==> FirstPart(n) == q {
      OccursAtStart(n, q);
      FirstPartIsPrefix(n, q);
    }
  }

  lemma {:induction false} FirstPartOfPlain(n: string)
    requires ',' !in n
    ensures FirstPart(n) == n
  {
    if n != "" { FirstPartOfPlain(n[1..]); }
  }

  /** So it is exact when no name holds a comma. */
  lemma SubstringTestIsExact(values: seq<string>, q: string)
    requires Plain(q) && forall n | n in Normalize(values) :: Plain(n)
    ensures Contains(Encode(values), Format(q)) <==> q in Normalize(values)
  {
    SubstringTestAnswersFirstParts(values, q);
    forall n | n in Normalize(values) ensures FirstPart(n) == n { FirstPartOfPlain(n); }
  }

  lemma OneNameIsNormal(n: string)
    requires n != "" && Bare(n, IsSpace)
    ensures Normalize([n]) == [n]
  {
    var values: seq<string> := [n];
    StripFacts(n, IsSpace);
    assert values[1..] == [] && Stripped(values[1..]) == [] && SortedSet(values[1..]) == [];
    assert Stripped(values) == [n] + [];
    assert SortedSet(values) == Insert(n, []);
  }

  /** A name with a comma makes the test answer for a shorter one that is not in the list. */
  lemma CommaNameAnswersForShorter(a: string, b: string)
    requires Plain(a) && a != "" && b != "" && '<' !in b && Bare(a + "," + b, IsSpace)
    ensures Normalize([a + "," + b]) == [a + "," + b] && Contains(Encode([a + "," + b]), Format(a))
  {
    var n := a + "," + b;
    OneNameIsNormal(n);
    assert a + "," <= n + "," by { assert n + "," == a + "," + (b + ","); }
    OccursAtStart(n, a);
    OccursInOneName([n], a);
  }
}
