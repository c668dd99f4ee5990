/** Sequences without repetition, and what their lengths, members and filters say about them. */
module Distinctness {
  predicate Distinct<T(==)>(s: seq<T>) { forall i, j :: 0 <= i < j < |s| ==> s[i] != s[j] }

  function Elements<T>(s: seq<T>): set<T> { set x | x in s }

  lemma DistinctGrows<T>(s: seq<T>, x: T)
    ensures Distinct(s + [x]) <==> Distinct(s) && x !in s
  {
    var more := s + [x];
    assert more[|s|] == x && forall i :: 0 <= i < |s| ==> more[i] == s[i];
  }

  lemma {:induction false} DistinctCounts<T>(s: seq<T>, x: T)
    requires Distinct(s)
    ensures multiset(s)[x] == if x in s then 1 else 0
  {
    if s != [] {
      var front, last := s[..|s| - 1], s[|s| - 1];
      assert s == front + [last];
      DistinctCounts(front, x);
    }
  }

  lemma {:induction false} CountedOnceIsDistinct<T>(s: seq<T>)
    requires forall x :: multiset(s)[x] <= 1
    ensures Distinct(s)
  {
    forall i, j | 0 <= i < j < |s|
      ensures s[i] != s[j]
    {
      assert s == s[..j] + [s[j]] + s[j + 1..];
      assert s[i] in s[..j];
      assert multiset(s) == multiset(s[..j]) + multiset([s[j]]) + multiset(s[j + 1..]);
      assert multiset(s)[s[j]] <= 1;
    }
  }

  /** No repetition on either side and the same members: the same up to order. */
  lemma SameMembers<T>(s: seq<T>, t: seq<T>)
    requires Distinct(s) && Distinct(t) && Elements(s) == Elements(t)
    ensures multiset(s) == multiset(t)
  {
    forall x
      ensures multiset(s)[x] == multiset(t)[x]
    {
      DistinctCounts(s, x);
      DistinctCounts(t, x);
      assert x in s <==> x in Elements(s);
      assert x in t <==> x in Elements(t);
    }
  }

  /** As many pigeons as holes, and every hole taken: `t` is `s` up to order. */
  lemma Pigeonhole<T>(s: seq<T>, t: seq<T>)
    requires Distinct(s) && |s| == |t| && forall x :: x in s ==> x in t
    ensures multiset(s) == multiset(t) && Distinct(t)
  {
    forall x
      ensures multiset(s)[x] <= multiset(t)[x]
    {
      DistinctCounts(s, x);
      if x in s { assert x in t && x in multiset(t); }
    }
    var spare := multiset(t) - multiset(s);
    assert |spare| == |multiset(t)| - |multiset(s)| == 0;
    assert multiset(t) == multiset(s) + spare;
    forall x
      ensures multiset(t)[x] <= 1
    {
      DistinctCounts(s, x);
    }
    CountedOnceIsDistinct(t);
  }

  /** `len(set(s)) == len(s)` says that nothing repeats. */
  lemma {:induction false} SizesTell<T>(s: seq<T>)
    ensures |Elements(s)| <= |s|
    ensures |Elements(s)| == |s| <==> Distinct(s)
  {
    if s != [] {
      var front, last := s[..|s| - 1], s[|s| - 1];
      SizesTell(front);
      assert Elements(s) == Elements(front) + {last};
      if last in front {
        assert Elements(s) == Elements(front);
      } else {
        assert |Elements(s)| == |Elements(front)| + 1;
        assert Distinct(front) <==> Distinct(s);
      }
    }
  }

  lemma TakeOut<T>(s: seq<T>, lo: nat, hi: nat) returns (others: seq<T>)
    requires lo < hi < |s|
    ensures multiset(s) == multiset(others) + multiset{s[lo], s[hi]}
  {
    var a, b, c := s[..lo], s[lo + 1..hi], s[hi + 1..];
    assert s == a + [s[lo]] + b + [s[hi]] + c;
    Between(a, s[lo], b, s[hi], c);
    others := a + b + c;
  }

  lemma Between<T>(a: seq<T>, x: T, b: seq<T>, y: T, c: seq<T>)
    ensures multiset(a + [x] + b + [y] + c) == multiset(a + b + c) + multiset{x, y}
  {
  }

  /** Two members can be moved behind the others. */
  lemma MoveBehind<T>(s: seq<T>, x: T, y: T) returns (others: seq<T>)
    requires x in s && y in s && x != y
    ensures multiset(s) == multiset(others + [x, y]) && multiset(s) == multiset(others + [y, x])
  {
    var i :| 0 <= i < |s| && s[i] == x;
    var j :| 0 <= j < |s| && s[j] == y;
    others := TakeOut(s, if i < j then i else j, if i < j then j else i);
    assert multiset(s) == multiset(others) + multiset{x, y};
    EitherOrder(others, x, y);
    EitherOrder(others, y, x);
  }

  lemma EitherOrder<T>(s: seq<T>, x: T, y: T)
    ensures multiset(s + [x, y]) == multiset(s) + multiset{x, y}
  {
    assert multiset(s + [x, y]) == multiset(s) + multiset([x, y]);
  }

  // ---- what passes a test ----

  function Filter<T>(keep: T -> bool, s: seq<T>): seq<T> {
    if s == [] then [] else (if keep(s[0]) then [s[0]] else []) + Filter(keep, s[1..])
  }

  lemma {:induction false} FilterMembers<T>(keep: T -> bool, s: seq<T>)
    ensures forall x :: x in Filter(keep, s) <==> x in s && keep(x)
  {
    if s != [] { FilterMembers(keep, s[1..]); }
  }

  lemma {:induction false} FilterKeepsDistinct<T>(keep: T -> bool, s: seq<T>)
    requires Distinct(s)
    ensures Distinct(Filter(keep, s))
  {
    if s != [] {
      var rest := s[1..];
      FilterKeepsDistinct(keep, rest);
      FilterMembers(keep, rest);
      assert s[0] !in rest;
      var kept := Filter(keep, rest);
      if keep(s[0]) {
        assert s[0] !in kept;
        assert ([s[0]] + kept)[0] == s[0] && forall i | 0 < i <= |kept| :: ([s[0]] + kept)[i] == kept[i - 1];
      }
    }
  }

  /** If exactly one entry passes, every entry that passes is that one. */
  lemma OnlyOne<T>(keep: T -> bool, s: seq<T>, x: T)
    requires |Filter(keep, s)| == 1 && x in s && keep(x)
    ensures x == Filter(keep, s)[0]
  {
    FilterMembers(keep, s);
  }

  /** If only the entry at `i` passes, the filter finds just that one. */
  lemma {:induction false} FindsJustOne<T>(keep: T -> bool, s: seq<T>, i: nat)
    requires i < |s| && keep(s[i]) && forall j :: 0 <= j < |s| && j != i ==> !keep(s[j])
    ensures Filter(keep, s) == [s[i]]
  {
    if i == 0 {
      FindsNone(keep, s[1..]);
    } else {
      FindsJustOne(keep, s[1..], i - 1);
    }
  }

  lemma {:induction false} FindsNone<T>(keep: T -> bool, s: seq<T>)
    requires forall j :: 0 <= j < |s| ==> !keep(s[j])
    ensures Filter(keep, s) == []
  {
    if s != [] { FindsNone(keep, s[1..]); }
  }
}
