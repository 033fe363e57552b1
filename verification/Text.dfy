/** Python's ordering of strings and `sorted` on sets of strings. */
module Text {
  import opened Lists

  /** `a < b`: code point by code point, a proper prefix comes first. */
  predicate Before(a: string, b: string) {
    if b == "" then false
    else if a == "" then true
    else a[0] < b[0] || (a[0] == b[0] && Before(a[1..], b[1..]))
  }

  lemma {:induction false} BeforeIsTotal(a: string, b: string)
    ensures Before(a, b) || a == b || Before(b, a)
    ensures !(Before(a, b) && Before(b, a)) && !Before(a, a)
  {
    if a == "" || b == "" {
      if a != "" { BeforeIsTotal(a[1..], a[1..]); }
    } else {
      BeforeIsTotal(a[1..], b[1..]);
      BeforeIsTotal(a[1..], a[1..]);
      if a[0] == b[0] && a[1..] == b[1..] {
        assert a == [a[0]] + a[1..] == b;
      }
    }
  }

  /** At `i` these differ for the first time, and the first of them is smaller there. */
  ghost predicate SmallerAt(a: string, b: string, i: nat) {
    i < |a| && i < |b| && a[i] < b[i] && a[..i] == b[..i]
  }

  lemma SmallerAtNext(a: string, b: string, i: nat)
    requires a != "" && b != "" && a[0] == b[0]
    ensures SmallerAt(a, b, i + 1) <==> SmallerAt(a[1..], b[1..], i)
  {
    if i < |a| - 1 && i < |b| - 1 {
      assert a[..i + 1] == [a[0]] + a[1..][..i] && b[..i + 1] == [b[0]] + b[1..][..i];
      assert a[..i + 1][1..] == a[1..][..i] && b[..i + 1][1..] == b[1..][..i];
    }
  }

  lemma SameStart(a: string, b: string, i: nat)
    requires i > 0 && SmallerAt(a, b, i)
    ensures a[0] == b[0]
  {
    assert a[..i][0] == b[..i][0];
  }

  /** The first difference decides, and a proper beginning comes first. */
  lemma {:induction false} BeforeIsLexicographic(a: string, b: string)
    ensures Before(a, b) <==> (a != b && a <= b) || exists i: nat :: SmallerAt(a, b, i)
  {
    if a != "" && b != "" {
      assert a == [a[0]] + a[1..] && b == [b[0]] + b[1..];
      if a[0] == b[0] {
        BeforeIsLexicographic(a[1..], b[1..]);
        if i: nat :| SmallerAt(a[1..], b[1..], i) {
          SmallerAtNext(a, b, i);
          assert SmallerAt(a, b, i + 1);
        }
        if i: nat :| SmallerAt(a, b, i) {
          SmallerAtNext(a, b, i - 1);
          assert SmallerAt(a[1..], b[1..], i - 1);
        }
      } else {
        assert a[..0] == b[..0];
        assert SmallerAt(a, b, 0) <==> a[0] < b[0];
        forall i: nat | SmallerAt(a, b, i) ensures i == 0 { if i > 0 { SameStart(a, b, i); } }
      }
    }
  }

  lemma {:induction false} BeforeIsTransitive(a: string, b: string, c: string)
    requires Before(a, b) && Before(b, c)
    ensures Before(a, c)
  {
    if a != "" && a[0] == b[0] == c[0] {
      BeforeIsTransitive(a[1..], b[1..], c[1..]);
    }
  }

  /** Strictly ascending, hence without duplicates. */
  ghost predicate Ascending(s: seq<string>) {
    forall i, j :: 0 <= i < j < |s| ==> Before(s[i], s[j])
  }

  lemma Prepend(x: string, s: seq<string>)
    requires Ascending(s) && forall i | 0 <= i < |s| :: Before(x, s[i])
    ensures Ascending([x] + s) && Elements([x] + s) == {x} + Elements(s)
  {
    ElementsConcat([x], s);
  }

  lemma AllBehind(x: string, s: seq<string>)
    requires Ascending(s) && s != [] && Before(x, s[0])
    ensures forall i | 0 <= i < |s| :: Before(x, s[i])
  {
    forall i | 0 < i < |s| ensures Before(x, s[i]) { BeforeIsTransitive(x, s[0], s[i]); }
  }

  lemma InsertBehind(x: string, s: seq<string>, rest: seq<string>)
    requires Ascending(s) && s != [] && Before(s[0], x)
    requires Ascending(rest) && Elements(rest) == Elements(s[1..]) + {x}
    ensures Ascending([s[0]] + rest) && Elements([s[0]] + rest) == Elements(s) + {x}
  {
    forall i | 0 <= i < |rest| ensures Before(s[0], rest[i]) {
      assert rest[i] in Elements(s[1..]) + {x};
    }
    Prepend(s[0], rest);
    ElementsConcat([s[0]], s[1..]);
    assert s == [s[0]] + s[1..];
  }

  function Insert(x: string, s: seq<string>): (r: seq<string>)
    requires Ascending(s)
    ensures Ascending(r)
    ensures Elements(r) == Elements(s) + {x}
  {
    if s == [] then [x]
    else if x == s[0] then
      assert x in s; s
    else if Before(x, s[0]) then
      AllBehind(x, s);
      Prepend(x, s);
      [x] + s
    else
      var rest := Insert(x, s[1..]);
      BeforeIsTotal(x, s[0]);
      InsertBehind(x, s, rest);
      [s[0]] + rest
  }

  /** `sorted(set(values))`. */
  function SortedSet(values: seq<string>): (r: seq<string>)
    ensures Ascending(r)
    ensures Elements(r) == Elements(values)
  {
    if values == [] then []
    else
      assert Elements(values) == Elements(values[1..]) + {values[0]};
      Insert(values[0], SortedSet(values[1..]))
  }

  /** A set of strings has only one strictly ascending enumeration. */
  lemma {:induction false} AscendingIsCanonical(s: seq<string>, t: seq<string>)
    requires Ascending(s) && Ascending(t) && Elements(s) == Elements(t)
    ensures s == t
  {
    if s == [] {
      assert Elements(s) == {};
    } else {
      assert s[0] in Elements(t);
      assert t[0] in Elements(s);
      BeforeIsTotal(s[0], t[0]);
      BeforeIsTotal(s[0], s[0]);
      assert s[0] == t[0];
      assert Elements(s[1..]) == Elements(s) - {s[0]};
      assert Elements(t[1..]) == Elements(t) - {t[0]};
      AscendingIsCanonical(s[1..], t[1..]);
      assert s == [s[0]] + s[1..] && t == [t[0]] + t[1..];
    }
  }
}
