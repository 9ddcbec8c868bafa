/** Strings in code point order and the sorted lists of distinct strings that Python's
    `sorted(set(...))` gives. */
module Text {
  predicate Less(a: string, b: string) {
    if b == "" then false
    else if a == "" then true
    else a[0] < b[0] || (a[0] == b[0] && Less(a[1..], b[1..]))
  }

  lemma {:induction false} Trichotomy(a: string, b: string)
    ensures Less(a, b) || Less(b, a) || a == b
    ensures !(Less(a, b) && Less(b, a)) && !Less(a, a)
  {
    if a != "" && b != "" {
      Trichotomy(a[1..], b[1..]);
      assert a == [a[0]] + a[1..] && b == [b[0]] + b[1..];
    }
    if a != "" {
      Irreflexive(a);
    }
  }

  lemma {:induction false} Irreflexive(a: string)
    ensures !Less(a, a)
  {
    if a != "" {
      Irreflexive(a[1..]);
    }
  }

  lemma {:induction false} Transitive(a: string, b: string, c: string)
    requires Less(a, b) && Less(b, c)
    ensures Less(a, c)
  {
    if a != "" && a[0] == b[0] == c[0] {
      Transitive(a[1..], b[1..], c[1..]);
    }
  }

  ghost predicate Ascending(s: seq<string>) {
    forall i, j :: 0 <= i < j < |s| ==> Less(s[i], s[j])
  }

  /** The least of a non-empty set of strings. */
  predicate Least(x: string, s: set<string>) {
    x in s && forall y :: y in s && y != x ==> Less(x, y)
  }

  lemma {:induction false} LeastExists(s: set<string>)
    requires s != {}
    ensures exists x :: Least(x, s)
  {
    var a :| a in s;
    if s == {a} {
      assert Least(a, s);
    } else {
      LeastExists(s - {a});
      var b :| Least(b, s - {a});
      Trichotomy(a, b);
      if Less(a, b) {
        forall y | y in s && y != a && y != b ensures Less(a, y) { Transitive(a, b, y); }
        assert Least(a, s);
      } else {
        assert Least(b, s);
      }
    }
  }

  lemma LeastUnique(s: set<string>)
    ensures forall x, y :: Least(x, s) && Least(y, s) ==> x == y
  {
    forall x, y | Least(x, s) && Least(y, s)
      ensures x == y
    {
      Trichotomy(x, y);
    }
  }

  /** `sorted(s)` of a set of strings. */
  function Sorted(s: set<string>): (r: seq<string>)
    ensures Ascending(r)
    ensures forall y :: y in r <==> y in s
    ensures |r| == |s|
  {
    if s == {} then []
    else
      LeastExists(s);
      LeastUnique(s);
      var x :| x in s && Least(x, s);
      var rest := Sorted(s - {x});
      assert forall i :: 0 <= i < |rest| ==> rest[i] in rest;
      [x] + rest
  }

  /** An ascending list is determined by its elements. */
  lemma {:induction false} AscendingUnique(a: seq<string>, b: seq<string>)
    requires Ascending(a) && Ascending(b)
    requires forall y :: y in a <==> y in b
    ensures a == b
  {
    assert b != [] ==> b[0] in a;
    assert a != [] ==> a[0] in b;
    if a != [] && b != [] {
      Trichotomy(a[0], b[0]);
      assert a[0] == b[0];
      assert forall y :: y in a[1..] <==> y in a && y != a[0] by { HeadNotInTail(a); }
      assert forall y :: y in b[1..] <==> y in b && y != b[0] by { HeadNotInTail(b); }
      AscendingUnique(a[1..], b[1..]);
    }
  }

  lemma HeadNotInTail(a: seq<string>)
    requires Ascending(a) && a != []
    ensures forall y :: y in a[1..] <==> y in a && y != a[0]
  {
    Irreflexive(a[0]);
    assert a == [a[0]] + a[1..];
    assert forall i :: 0 < i < |a| ==> Less(a[0], a[i]);
  }

  /** Sorting finds the one ascending list of a set. */
  lemma SortedUnique(a: seq<string>, s: set<string>)
    requires Ascending(a) && forall y :: y in a <==> y in s
    ensures Sorted(s) == a
  {
    AscendingUnique(a, Sorted(s));
  }
}
