/** Array.prototype.sort with a comparator, as a stable insertion sort; and how comparators combine. */
module Sorting {
  import opened Sequences

  function Insert<T>(s: seq<T>, x: T, cmp: (T, T) -> int): (r: seq<T>)
    ensures |r| == |s| + 1
  {
    if s == [] || cmp(s[|s| - 1], x) <= 0 then s + [x]
    else Insert(s[..|s| - 1], x, cmp) + [s[|s| - 1]]
  }

  function Sort<T>(s: seq<T>, cmp: (T, T) -> int): (r: seq<T>)
    ensures |r| == |s|
  {
    if s == [] then [] else Insert(Sort(s[..|s| - 1], cmp), s[|s| - 1], cmp)
  }

  /** Comparing by a derived key. */
  function By<T, U>(f: T -> U, cmp: (U, U) -> int): (T, T) -> int {
    (a: T, b: T) => cmp(f(a), f(b))
  }

  /** What a comparator owes the sort: any two elements compare, and the order is transitive. */
  ghost predicate Consistent<T(!new)>(cmp: (T, T) -> int) {
    && (forall a, b :: cmp(a, b) <= 0 || cmp(b, a) <= 0)
    && (forall a, b, c :: cmp(a, b) <= 0 && cmp(b, c) <= 0 ==> cmp(a, c) <= 0)
  }

  ghost predicate SortedBy<T>(s: seq<T>, cmp: (T, T) -> int) {
    forall i, j | 0 <= i < j < |s| :: cmp(s[i], s[j]) <= 0
  }

  lemma {:induction false} InsertPermutes<T>(s: seq<T>, x: T, cmp: (T, T) -> int)
    ensures multiset(Insert(s, x, cmp)) == multiset(s) + multiset{x}
  {
    if s != [] && cmp(s[|s| - 1], x) > 0 {
      InsertPermutes(s[..|s| - 1], x, cmp);
      assert s == s[..|s| - 1] + [s[|s| - 1]];
    }
  }

  lemma {:induction false} SortPermutes<T>(s: seq<T>, cmp: (T, T) -> int)
    ensures multiset(Sort(s, cmp)) == multiset(s)
  {
    if s != [] {
      SortPermutes(s[..|s| - 1], cmp);
      InsertPermutes(Sort(s[..|s| - 1], cmp), s[|s| - 1], cmp);
      assert s == s[..|s| - 1] + [s[|s| - 1]];
    }
  }

  lemma SameMembers<T>(s: seq<T>, t: seq<T>)
    requires multiset(s) == multiset(t)
    ensures forall x :: x in s <==> x in t
  {
    forall x
      ensures x in s <==> x in t
    {
      assert x in s <==> x in multiset(s);
      assert x in t <==> x in multiset(t);
    }
  }

  lemma InsertMember<T>(s: seq<T>, x: T, cmp: (T, T) -> int, y: T)
    requires y in Insert(s, x, cmp)
    ensures y == x || y in s
  {
    InsertPermutes(s, x, cmp);
    assert y in multiset(Insert(s, x, cmp));
  }

  lemma Comparable<T(!new)>(a: T, b: T, cmp: (T, T) -> int)
    requires Consistent(cmp)
    ensures cmp(a, b) <= 0 || cmp(b, a) <= 0
  {
  }

  lemma Transitive<T(!new)>(a: T, b: T, c: T, cmp: (T, T) -> int)
    requires Consistent(cmp) && cmp(a, b) <= 0 && cmp(b, c) <= 0
    ensures cmp(a, c) <= 0
  {
  }

  lemma {:induction false} InsertSorts<T(!new)>(s: seq<T>, x: T, cmp: (T, T) -> int)
    requires Consistent(cmp) && SortedBy(s, cmp)
    ensures SortedBy(Insert(s, x, cmp), cmp)
  {
    hide Consistent;
    if s != [] {
      var front, last := s[..|s| - 1], s[|s| - 1];
      Comparable(x, last, cmp);
      if cmp(last, x) > 0 {
        InsertSorts(front, x, cmp);
        forall i | 0 <= i < |s|
          ensures cmp(Insert(front, x, cmp)[i], last) <= 0
        {
          InsertMember(front, x, cmp, Insert(front, x, cmp)[i]);
        }
      } else {
        forall i | 0 <= i < |s|
          ensures cmp(s[i], x) <= 0
        {
          if i < |s| - 1 { Transitive(s[i], last, x, cmp); }
        }
      }
    }
  }

  lemma {:induction false} SortSorts<T(!new)>(s: seq<T>, cmp: (T, T) -> int)
    requires Consistent(cmp)
    ensures SortedBy(Sort(s, cmp), cmp)
  {
    if s != [] {
      SortSorts(s[..|s| - 1], cmp);
      InsertSorts(Sort(s[..|s| - 1], cmp), s[|s| - 1], cmp);
    }
  }

  /** The first of the sorted elements is one of them, and no worse than any of them. */
  lemma SortedFirst<T(!new)>(s: seq<T>, cmp: (T, T) -> int)
    requires Consistent(cmp) && s != []
    ensures Sort(s, cmp)[0] in s && forall x | x in s :: cmp(Sort(s, cmp)[0], x) <= 0
  {
    SortSorts(s, cmp);
    SortPermutes(s, cmp);
    var sorted := Sort(s, cmp);
    SameMembers(sorted, s);
    Comparable(sorted[0], sorted[0], cmp);
    hide Sort, Consistent;
    assert sorted[0] in sorted;
    forall x | x in s
      ensures cmp(sorted[0], x) <= 0
    {
      var j :| 0 <= j < |sorted| && sorted[j] == x;
    }
  }

  /** Ties are equal elements. */
  ghost predicate Antisymmetric<T>(s: seq<T>, cmp: (T, T) -> int) {
    forall a, b | a in s && b in s && cmp(a, b) <= 0 && cmp(b, a) <= 0 :: a == b
  }

  lemma SortedHeads<T>(s: seq<T>, t: seq<T>, cmp: (T, T) -> int)
    requires SortedBy(s, cmp) && SortedBy(t, cmp) && s != [] && t != [] && s[0] in t && t[0] in s
    requires Antisymmetric(s, cmp)
    ensures s[0] == t[0]
  {
    var i :| 0 <= i < |t| && t[i] == s[0];
    var j :| 0 <= j < |s| && s[j] == t[0];
    if i > 0 && j > 0 {
      assert cmp(t[0], t[i]) <= 0 && cmp(s[0], s[j]) <= 0;
      assert s[0] in s;
    }
  }

  lemma TailMultiset<T>(s: seq<T>)
    requires s != []
    ensures multiset(s[1..]) == multiset(s) - multiset{s[0]}
  {
    assert s == [s[0]] + s[1..];
  }

  lemma SortedTail<T>(s: seq<T>, cmp: (T, T) -> int)
    requires SortedBy(s, cmp) && s != []
    ensures SortedBy(s[1..], cmp)
  {
  }

  lemma AntisymmetricTail<T>(s: seq<T>, cmp: (T, T) -> int)
    requires Antisymmetric(s, cmp) && s != []
    ensures Antisymmetric(s[1..], cmp)
  {
  }

  lemma PeelHeads<T>(s: seq<T>, t: seq<T>, cmp: (T, T) -> int)
    requires SortedBy(s, cmp) && SortedBy(t, cmp) && multiset(s) == multiset(t) && Antisymmetric(s, cmp) && s != []
    ensures t != [] && s[0] == t[0] && multiset(s[1..]) == multiset(t[1..])
  {
    assert |s| == |multiset(s)| && |t| == |multiset(t)|;
    assert s[0] in multiset(t) && t[0] in multiset(s);
    SortedHeads(s, t, cmp);
    TailMultiset(s);
    TailMultiset(t);
  }

  /** When ties are equal elements, a sorted arrangement of a multiset is unique. */
  lemma {:induction false} SortedUnique<T>(s: seq<T>, t: seq<T>, cmp: (T, T) -> int)
    requires SortedBy(s, cmp) && SortedBy(t, cmp) && multiset(s) == multiset(t) && Antisymmetric(s, cmp)
    ensures s == t
    decreases |s|
  {
    if s == [] {
      assert |t| == |multiset(t)|;
    } else {
      PeelHeads(s, t, cmp);
      SortedTail(s, cmp);
      SortedTail(t, cmp);
      AntisymmetricTail(s, cmp);
      hide SortedBy, Antisymmetric;
      SortedUnique(s[1..], t[1..], cmp);
      assert s == [s[0]] + s[1..] && t == [t[0]] + t[1..];
    }
  }

  lemma {:induction false} InsertMaps<T, U>(f: T -> U, s: seq<T>, x: T, cmp: (U, U) -> int)
    ensures Map(f, Insert(s, x, By(f, cmp))) == Insert(Map(f, s), f(x), cmp)
  {
    var front := if s == [] then [] else s[..|s| - 1];
    if s == [] || cmp(f(s[|s| - 1]), f(x)) <= 0 {
      MapConcat(f, s, [x]);
    } else {
      InsertMaps(f, front, x, cmp);
      assert Map(f, front) == Map(f, s)[..|s| - 1];
      MapConcat(f, Insert(front, x, By(f, cmp)), [s[|s| - 1]]);
    }
  }

  /** Sorting by a key and taking the keys is taking the keys and sorting them. */
  lemma {:induction false} SortMaps<T, U>(f: T -> U, s: seq<T>, cmp: (U, U) -> int)
    ensures Map(f, Sort(s, By(f, cmp))) == Sort(Map(f, s), cmp)
  {
    if s != [] {
      SortMaps(f, s[..|s| - 1], cmp);
      InsertMaps(f, Sort(s[..|s| - 1], By(f, cmp)), s[|s| - 1], cmp);
      assert Map(f, s[..|s| - 1]) == Map(f, s)[..|s| - 1];
    }
  }

  /** A stable sort leaves a sorted sequence as it is. */
  lemma {:induction false} SortOfSorted<T>(s: seq<T>, cmp: (T, T) -> int)
    requires SortedBy(s, cmp)
    ensures Sort(s, cmp) == s
  {
    if s != [] {
      SortOfSorted(s[..|s| - 1], cmp);
      assert |s| > 1 ==> cmp(s[|s| - 2], s[|s| - 1]) <= 0;
      assert s == s[..|s| - 1] + [s[|s| - 1]];
    }
  }

  lemma ByConsistent<T(!new), U(!new)>(f: T -> U, cmp: (U, U) -> int)
    requires Consistent(cmp)
    ensures Consistent(By(f, cmp))
  {
    forall a, b
      ensures By(f, cmp)(a, b) <= 0 || By(f, cmp)(b, a) <= 0
    {
      Comparable(f(a), f(b), cmp);
    }
    forall a, b, c | By(f, cmp)(a, b) <= 0 && By(f, cmp)(b, c) <= 0
      ensures By(f, cmp)(a, c) <= 0
    {
      Transitive(f(a), f(b), f(c), cmp);
    }
  }

  /** Two tied elements may be swapped. */
  lemma SwapTied<T(!new)>(s: seq<T>, i: nat, j: nat, cmp: (T, T) -> int)
    requires Consistent(cmp) && SortedBy(s, cmp) && i < j < |s| && cmp(s[j], s[i]) <= 0
    ensures SortedBy(s[i := s[j]][j := s[i]], cmp)
  {
    hide Consistent;
    var t := s[i := s[j]][j := s[i]];
    forall k | 0 <= k < |s|
      ensures cmp(t[k], s[k]) <= 0 && cmp(s[k], t[k]) <= 0
    {
      Comparable(s[k], s[k], cmp);
    }
    forall a, b | 0 <= a < b < |t|
      ensures cmp(t[a], t[b]) <= 0
    {
      Transitive(t[a], s[a], s[b], cmp);
      Transitive(t[a], s[b], t[b], cmp);
    }
  }

  lemma {:induction false} InsertAgrees<T(!new)>(s: seq<T>, x: T, f: (T, T) -> int, g: (T, T) -> int)
    requires forall a, b :: f(a, b) == g(a, b)
    ensures Insert(s, x, f) == Insert(s, x, g)
  {
    if s != [] { InsertAgrees(s[..|s| - 1], x, f, g); }
  }

  /** Comparators that agree sort alike. */
  lemma {:induction false} SortAgrees<T(!new)>(s: seq<T>, f: (T, T) -> int, g: (T, T) -> int)
    requires forall a, b :: f(a, b) == g(a, b)
    ensures Sort(s, f) == Sort(s, g)
  {
    if s != [] {
      SortAgrees(s[..|s| - 1], f, g);
      InsertAgrees(Sort(s[..|s| - 1], f), s[|s| - 1], f, g);
    }
  }

  // ---- Comparators built with `||` ---------------------------------------------------------------

  /** `f(a, b) || g(a, b)`. */
  function Then<T>(f: (T, T) -> int, g: (T, T) -> int): (T, T) -> int {
    (a: T, b: T) => if f(a, b) != 0 then f(a, b) else g(a, b)
  }

  /** The contract of a comparator: swapping the arguments flips the sign, and the order is transitive. */
  ghost predicate Ordering<T(!new)>(cmp: (T, T) -> int) {
    && (forall a, b :: cmp(a, b) < 0 <==> cmp(b, a) > 0)
    && (forall a, b, c :: cmp(a, b) <= 0 && cmp(b, c) <= 0 ==> cmp(a, c) <= 0)
  }

  lemma OrderingConsistent<T(!new)>(cmp: (T, T) -> int)
    requires Ordering(cmp)
    ensures Consistent(cmp)
  {
  }

  lemma OrderingFlips<T(!new)>(cmp: (T, T) -> int, a: T, b: T)
    requires Ordering(cmp)
    ensures cmp(a, b) < 0 <==> cmp(b, a) > 0
    ensures cmp(a, b) == 0 <==> cmp(b, a) == 0
  {
  }

  lemma OrderingTransitive<T(!new)>(cmp: (T, T) -> int, a: T, b: T, c: T)
    requires Ordering(cmp) && cmp(a, b) <= 0 && cmp(b, c) <= 0
    ensures cmp(a, c) <= 0
    ensures cmp(a, c) == 0 ==> cmp(a, b) == 0 && cmp(b, c) == 0
  {
    if cmp(a, c) == 0 {
      assert cmp(c, a) <= 0;
      assert cmp(b, a) <= 0 && cmp(c, b) <= 0;
    }
  }

  lemma ByOrdering<T(!new), U(!new)>(f: T -> U, cmp: (U, U) -> int)
    requires Ordering(cmp)
    ensures Ordering(By(f, cmp))
  {
    forall a, b, c | By(f, cmp)(a, b) <= 0 && By(f, cmp)(b, c) <= 0
      ensures By(f, cmp)(a, c) <= 0
    {
      OrderingTransitive(cmp, f(a), f(b), f(c));
    }
  }

  lemma ThenOrdering<T(!new)>(f: (T, T) -> int, g: (T, T) -> int)
    requires Ordering(f) && Ordering(g)
    ensures Ordering(Then(f, g))
  {
    var h := Then(f, g);
    hide Ordering;
    forall a, b
      ensures h(a, b) < 0 <==> h(b, a) > 0
    {
      OrderingFlips(f, a, b);
      OrderingFlips(f, b, a);
      OrderingFlips(g, a, b);
    }
    forall a, b, c | h(a, b) <= 0 && h(b, c) <= 0
      ensures h(a, c) <= 0
    {
      assert f(a, b) <= 0 && f(b, c) <= 0;
      OrderingTransitive(f, a, b, c);
      if f(a, c) == 0 {
        OrderingTransitive(g, a, b, c);
      }
    }
    ThenOrderingLaws(h);
  }

  lemma ThenOrderingLaws<T(!new)>(h: (T, T) -> int)
    requires forall a, b :: h(a, b) < 0 <==> h(b, a) > 0
    requires forall a, b, c :: h(a, b) <= 0 && h(b, c) <= 0 ==> h(a, c) <= 0
    ensures Ordering(h)
  {
  }
}
