/** Sums over finite sets: they do not depend on the order of the elements. */
module Sums {
  ghost function Sum<T(!new)>(s: set<T>, f: T -> int): int {
    if s == {} then 0
    else
      var x :| x in s;
      f(x) + Sum(s - {x}, f)
  }

  lemma {:induction false} SumRemove<T(!new)>(s: set<T>, f: T -> int, x: T)
    requires x in s
    ensures Sum(s, f) == f(x) + Sum(s - {x}, f)
  {
    var y :| y in s && Sum(s, f) == f(y) + Sum(s - {y}, f);
    if y != x {
      SumRemove(s - {y}, f, x);
      SumRemove(s - {x}, f, y);
      assert s - {y} - {x} == s - {x} - {y};
    }
  }

  lemma {:induction false} SumSame<T(!new)>(s: set<T>, f: T -> int, g: T -> int)
    requires forall x :: x in s ==> f(x) == g(x)
    ensures Sum(s, f) == Sum(s, g)
  {
    if s != {} {
      var x :| x in s;
      SumRemove(s, f, x);
      SumRemove(s, g, x);
      SumSame(s - {x}, f, g);
    }
  }

  lemma {:induction false} SumUnion<T(!new)>(a: set<T>, b: set<T>, f: T -> int)
    requires a !! b
    ensures Sum(a + b, f) == Sum(a, f) + Sum(b, f)
  {
    if a == {} {
      assert a + b == b;
    } else {
      var x :| x in a;
      SumRemove(a, f, x);
      SumRemove(a + b, f, x);
      assert a + b - {x} == (a - {x}) + b;
      SumUnion(a - {x}, b, f);
    }
  }

  /** Summing group by group gives the sum of all: `groups` lists the groups and `members`
      the elements of each. */
  lemma {:induction false} SumOfGroups<T(!new), G(!new)>(s: set<T>, f: T -> int, groups: set<G>, members: G -> set<T>, total: G -> int)
    requires forall g :: g in groups ==> total(g) == Sum(members(g), f)
    requires forall x :: x in s <==> exists g :: g in groups && x in members(g)
    requires forall g, h :: g in groups && h in groups && g != h ==> members(g) !! members(h)
    ensures Sum(groups, total) == Sum(s, f)
  {
    if groups == {} {
      assert s == {};
    } else {
      var g :| g in groups;
      SumRemove(groups, total, g);
      var rest := s - members(g);
      forall x
        ensures x in rest <==> exists h :: h in groups - {g} && x in members(h)
      {
        if h :| h in groups - {g} && x in members(h) {
          assert x in s;
        }
      }
      SumOfGroups(rest, f, groups - {g}, members, total);
      SumUnion(rest, members(g), f);
      assert rest + members(g) == s;
    }
  }
}
