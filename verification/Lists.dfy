/** Facts about sequences that several models share. */
module Lists {

  ghost predicate Distinct<T>(s: seq<T>) {
    forall i, j :: 0 <= i < j < |s| ==> s[i] != s[j]
  }

  function Elements<T>(s: seq<T>): (r: set<T>)
    ensures forall i :: 0 <= i < |s| ==> s[i] in r
  {
    set x | x in s
  }

  /** Going through a list one element further. */
  lemma ElementsGrow<T>(s: seq<T>, i: nat)
    requires i < |s|
    ensures s[..i + 1] == s[..i] + [s[i]] && Elements(s[..i + 1]) == Elements(s[..i]) + {s[i]}
  {
    assert s[..i + 1] == s[..i] + [s[i]];
    forall x ensures x in Elements(s[..i] + [s[i]]) <==> x in Elements(s[..i]) + {s[i]} {}
  }

  lemma ElementsConcat<T>(a: seq<T>, b: seq<T>)
    ensures Elements(a + b) == Elements(a) + Elements(b)
  {
    forall x ensures x in Elements(a + b) <==> x in Elements(a) + Elements(b) {
      assert x in a + b <==> x in a || x in b;
    }
  }

  lemma ConcatIsAssociative<T>(a: seq<T>, b: seq<T>, c: seq<T>)
    ensures a + b + c == a + (b + c)
  {
  }

  lemma InitOrLast<T>(s: seq<T>, x: T)
    requires s != []
    ensures x in s <==> x in s[..|s| - 1] || x == s[|s| - 1]
  {
    if x in s {
      var i :| 0 <= i < |s| && s[i] == x;
      if i < |s| - 1 { assert s[..|s| - 1][i] == x; }
    }
  }

  /** `s.remove(x)`: without the first `x`, if there is one. */
  function Removed<T(==)>(s: seq<T>, x: T): seq<T> {
    if s == [] then [] else if s[0] == x then s[1..] else [s[0]] + Removed(s[1..], x)
  }

  lemma {:induction false} RemovedAt<T>(s: seq<T>, x: T, y: T)
    requires Distinct(s)
    ensures y in Removed(s, x) <==> y in s && y != x
  {
    if s != [] {
      assert y in s <==> y == s[0] || y in s[1..];
      assert s[0] !in s[1..];
      RemovedAt(s[1..], x, y);
    }
  }

  /** Removing from a list without duplicates. */
  lemma {:induction false} RemovedFacts<T>(s: seq<T>, x: T)
    requires Distinct(s)
    ensures Distinct(Removed(s, x))
    ensures forall y :: y in Removed(s, x) <==> y in s && y != x
  {
    forall y ensures y in Removed(s, x) <==> y in s && y != x { RemovedAt(s, x, y); }
    if s != [] && s[0] != x {
      RemovedFacts(s[1..], x);
      assert s[0] !in s[1..];
    }
  }

  lemma {:induction false} RemovedFromMiddle<T>(a: seq<T>, x: T, b: seq<T>)
    requires x !in a
    ensures Removed(a + [x] + b, x) == a + b
  {
    var s := a + [x] + b;
    if a == [] {
      assert s[1..] == b == a + b;
    } else {
      RemovedFromMiddle(a[1..], x, b);
      assert s[0] == a[0] && s[1..] == a[1..] + [x] + b;
      ConcatIsAssociative([a[0]], a[1..], b);
      assert [a[0]] + a[1..] == a;
    }
  }
}
