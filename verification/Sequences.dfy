/** Array.prototype.map, sums, sequences without repetition, and what the permutations of a sequence have in common. */
module Sequences {
  function Map<T, U>(f: T -> U, s: seq<T>): (r: seq<U>)
    ensures |r| == |s| && forall i | 0 <= i < |s| :: r[i] == f(s[i])
  {
    seq(|s|, i requires 0 <= i < |s| => f(s[i]))
  }

  ghost predicate Distinct<T>(s: seq<T>) {
    forall i, j | 0 <= i < j < |s| :: s[i] != s[j]
  }

  lemma {:induction false} DistinctCounts<T>(s: seq<T>, x: T)
    requires Distinct(s)
    ensures multiset(s)[x] == if x in s then 1 else 0
  {
    if s != [] {
      var front, last := s[..|s| - 1], s[|s| - 1];
      DistinctCounts(front, x);
      assert s == front + [last];
      assert x in s <==> x in front || x == last;
    }
  }

  /** Two arrangements of the same distinct elements are permutations of each other. */
  lemma DistinctSameMembers<T>(s: seq<T>, t: seq<T>)
    requires Distinct(s) && Distinct(t) && forall x :: x in s <==> x in t
    ensures multiset(s) == multiset(t)
  {
    forall x
      ensures multiset(s)[x] == multiset(t)[x]
    {
      DistinctCounts(s, x);
      DistinctCounts(t, x);
    }
  }

  lemma MapConcat<T, U>(f: T -> U, s: seq<T>, t: seq<T>)
    ensures Map(f, s + t) == Map(f, s) + Map(f, t)
  {
    assert forall i | 0 <= i < |s + t| :: Map(f, s + t)[i] == (Map(f, s) + Map(f, t))[i];
  }

  lemma {:induction false} RepeatCounts<T>(s: seq<T>, i: nat, j: nat)
    requires i < j < |s| && s[i] == s[j]
    ensures multiset(s)[s[i]] >= 2
  {
    assert s == s[..j] + ([s[j]] + s[j + 1..]);
    assert s[i] in s[..j];
  }

  /** A permutation of distinct elements has distinct elements. */
  lemma DistinctPermutes<T>(s: seq<T>, t: seq<T>)
    requires Distinct(s) && multiset(s) == multiset(t)
    ensures Distinct(t)
  {
    forall i, j | 0 <= i < j < |t|
      ensures t[i] != t[j]
    {
      if t[i] == t[j] {
        RepeatCounts(t, i, j);
        DistinctCounts(s, t[i]);
      }
    }
  }

  lemma PermutationMembers<T>(s: seq<T>, t: seq<T>, x: T)
    requires multiset(s) == multiset(t)
    ensures x in s <==> x in t
  {
    assert x in s <==> x in multiset(s);
    assert x in t <==> x in multiset(t);
  }

  lemma RemoveAt<T>(s: seq<T>, i: nat)
    requires i < |s|
    ensures multiset(s[..i] + s[i + 1..]) == multiset(s) - multiset{s[i]}
  {
    assert s == s[..i] + [s[i]] + s[i + 1..];
  }

  lemma MapRemove<T, U>(f: T -> U, s: seq<T>, i: nat)
    requires i < |s|
    ensures multiset(Map(f, s)) == multiset(Map(f, s[..i] + s[i + 1..])) + multiset{f(s[i])}
  {
    var m := Map(f, s);
    assert Map(f, s[..i] + s[i + 1..]) == m[..i] + m[i + 1..];
    RemoveAt(m, i);
    assert m[i] in m;
  }

  lemma RemoveBoth<T>(s: seq<T>, t: seq<T>) returns (i: nat)
    requires multiset(s) == multiset(t) && s != []
    ensures i < |t| && t[i] == s[0] && multiset(s[..0] + s[1..]) == multiset(t[..i] + t[i + 1..])
  {
    PermutationMembers(s, t, s[0]);
    i :| 0 <= i < |t| && t[i] == s[0];
    RemoveAt(s, 0);
    RemoveAt(t, i);
  }

  lemma EmptyPermutes<T>(t: seq<T>)
    requires multiset(t) == multiset{}
    ensures t == []
  {
    assert |t| == |multiset(t)|;
  }

  /** A map takes permutations to permutations. */
  lemma {:induction false} MapPermutes<T, U>(f: T -> U, s: seq<T>, t: seq<T>)
    requires multiset(s) == multiset(t)
    ensures multiset(Map(f, s)) == multiset(Map(f, t))
    decreases |s|
  {
    if s == [] {
      EmptyPermutes(t);
    } else {
      hide Map;
      var i := RemoveBoth(s, t);
      MapPermutes(f, s[..0] + s[1..], t[..i] + t[i + 1..]);
      MapRemove(f, s, 0);
      MapRemove(f, t, i);
    }
  }

  function Sum(s: seq<int>): int {
    if s == [] then 0 else s[0] + Sum(s[1..])
  }

  lemma {:induction false} SumConcat(s: seq<int>, t: seq<int>)
    ensures Sum(s + t) == Sum(s) + Sum(t)
  {
    if s == [] {
      assert s + t == t;
    } else {
      SumConcat(s[1..], t);
      assert (s + t)[1..] == s[1..] + t;
    }
  }

  /** A sum does not depend on the order. */
  lemma {:induction false} SumPermutes(s: seq<int>, t: seq<int>)
    requires multiset(s) == multiset(t)
    ensures Sum(s) == Sum(t)
    decreases |s|
  {
    if s == [] {
      EmptyPermutes(t);
    } else {
      var i := RemoveBoth(s, t);
      SumPermutes(s[..0] + s[1..], t[..i] + t[i + 1..]);
      SumSplit(s, 0);
      SumSplit(t, i);
    }
  }

  lemma SumCons(x: int, s: seq<int>)
    ensures Sum([x] + s) == x + Sum(s)
  {
    assert ([x] + s)[1..] == s;
  }

  lemma SumSplit(s: seq<int>, i: nat)
    requires i < |s|
    ensures Sum(s) == Sum(s[..i] + s[i + 1..]) + s[i]
  {
    hide Sum;
    assert s == s[..i] + ([s[i]] + s[i + 1..]);
    SumConcat(s[..i], [s[i]] + s[i + 1..]);
    SumCons(s[i], s[i + 1..]);
    SumConcat(s[..i], s[i + 1..]);
  }

  function Elems<T>(s: seq<T>): set<T> {
    set x | x in s
  }

  /** No element is repeated, and none has been seen before. */
  ghost predicate Fresh<T>(s: seq<T>, seen: set<T>) {
    Distinct(s) && forall x | x in s :: x !in seen
  }

  lemma FreshParts<T>(s: seq<T>, t: seq<T>, seen: set<T>)
    requires Fresh(s + t, seen)
    ensures Fresh(s, seen) && Fresh(t, seen + Elems(s))
  {
    assert forall i | 0 <= i < |s| :: (s + t)[i] == s[i];
    assert forall i | 0 <= i < |t| :: (s + t)[|s| + i] == t[i];
    forall x | x in t
      ensures x !in seen + Elems(s)
    {
      assert x in s + t;
    }
    forall x | x in s
      ensures x !in seen
    {
      assert x in s + t;
    }
  }

  lemma FreshJoin<T>(s: seq<T>, t: seq<T>, seen: set<T>)
    requires Fresh(s, seen) && Fresh(t, seen + Elems(s))
    ensures Fresh(s + t, seen)
  {
    forall i, j | 0 <= i < j < |s + t|
      ensures (s + t)[i] != (s + t)[j]
    {
      if i < |s| <= j {
        assert s[i] in Elems(s) && t[j - |s|] in t;
      }
    }
  }

  lemma FreshConcat<T>(s: seq<T>, t: seq<T>, seen: set<T>)
    ensures Fresh(s + t, seen) <==> Fresh(s, seen) && Fresh(t, seen + Elems(s))
    ensures Elems(s + t) == Elems(s) + Elems(t)
  {
    if Fresh(s + t, seen) { FreshParts(s, t, seen); }
    if Fresh(s, seen) && Fresh(t, seen + Elems(s)) { FreshJoin(s, t, seen); }
  }

  lemma SamePrefix<T>(p: seq<T>, x: seq<T>, y: seq<T>)
    requires p + x == p + y
    ensures x == y
  {
    assert x == (p + x)[|p|..] && y == (p + y)[|p|..];
  }

  lemma Regroup<T>(x: seq<T>, y: seq<T>, z: seq<T>)
    ensures (x + y) + z == x + (y + z)
  {
  }

  /** The numbers below n. */
  function Naturals(n: nat): (r: set<nat>)
    ensures |r| == n && forall t: nat :: t in r <==> t < n
  {
    if n == 0 then {} else Naturals(n - 1) + {n - 1}
  }

  lemma {:induction false} SubsetFits(a: set<nat>, b: set<nat>)
    requires a <= b
    ensures |a| <= |b|
    decreases |a|
  {
    if x :| x in a { SubsetFits(a - {x}, b - {x}); }
  }
}
