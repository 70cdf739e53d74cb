/** Which facets a division accepts, and what its labels tell. */
module DivisionMeaning {
  import opened Wrappers
  import opened JsonText
  import opened Sequences
  import opened SeededRandom
  import opened Division
  import opened DivisionFacts

  // ---- Labels ------------------------------------------------------------------------------------------

  lemma NameEnds(p: Permutation)
    ensures var t := Units(PermutationName(p));
            && |t| >= 2
            && t[|t| - 2..] == match p case Facets => Units("ts") case Hexagrams => Units("ms") case Board => Units("rd")
  {
    var s := PermutationName(p);
    assert Units(s)[|s| - 2..] == Units(s[|s| - 2..]);
    assert "facets"[4..] == "ts" && "hexagrams"[7..] == "ms" && "board"[3..] == "rd";
  }

  lemma EndsDiffer(p: Permutation, q: Permutation)
    requires var s, t := Units(PermutationName(p)), Units(PermutationName(q)); |s| >= 2 && |t| >= 2 && s[|s| - 2..] == t[|t| - 2..]
    ensures p == q
  {
    NameEnds(p);
    NameEnds(q);
    hide PermutationName;
    assert Units("ts")[0] == 116 && Units("ms")[0] == 109 && Units("rd")[0] == 114;
  }

  lemma SameEnd(a: Text, b: Text, x: Text, y: Text)
    requires a + x == b + y && |x| >= 2 && |y| >= 2
    ensures x[|x| - 2..] == y[|y| - 2..]
  {
    var z := a + x;
    assert x[|x| - 2..] == z[|z| - 2..] && y[|y| - 2..] == (b + y)[|z| - 2..];
  }

  lemma SameFront(a: Text, b: Text, x: Text)
    requires a + x == b + x
    ensures a == b
  {
    assert a == (a + x)[..|a|] && b == (b + x)[..|b|];
  }

  /** A label tells the seed and the permutation, whatever the seed contains. */
  lemma LabelTells(a: Text, p: Permutation, b: Text, q: Permutation)
    requires DivisionSeed(a, p) == DivisionSeed(b, q)
    ensures a == b && p == q
  {
    var head := Units("webchess/division/");
    var x, y := Units(PermutationName(p)), Units(PermutationName(q));
    NameEnds(p);
    NameEnds(q);
    hide Units;
    var s, t := head + a + Units("/"), head + b + Units("/");
    assert s + x == t + y;
    SameEnd(s, t, x, y);
    EndsDiffer(p, q);
    SameFront(s, t, x);
    SameFront(head + a, head + b, Units("/"));
    SamePrefix(head, a, b);
  }

  // ---- Accepted facets ------------------------------------------------------------------------------------

  /** A text that is not empty once trimmed. */
  predicate Says(tools: TextTools, value: Field) {
    value.Str? && |tools.trim(value.s)| > 0
  }

  /** A record with an id from 1 to 64, four texts, and a cast application, if any, of 20 to 480 units. */
  predicate Acceptable(tools: TextTools, c: Candidate) {
    && c.Record? && c.id.Some? && 1 <= c.id.value <= 64
    && Says(tools, c.title) && Says(tools, c.focus) && Says(tools, c.question) && Says(tools, c.keyword)
    && (c.castApplication == Absent
        || (c.castApplication.Str? && 20 <= |tools.trim(tools.collapse(c.castApplication.s))| <= 480))
  }

  /** The facet holds the candidate's texts, trimmed. */
  predicate Holds(tools: TextTools, c: Candidate, f: Facet)
    requires Acceptable(tools, c)
  {
    && f.id == c.id.value && f.title == tools.trim(c.title.s) && f.focus == tools.trim(c.focus.s)
    && f.question == tools.trim(c.question.s) && f.keyword == tools.trim(c.keyword.s)
    && f.castApplication == if c.castApplication == Absent then None else Some(tools.trim(tools.collapse(c.castApplication.s)))
  }

  lemma FacetExact(tools: TextTools, c: Candidate, position: nat)
    ensures ParseFacet(tools, c, position).Ok? <==> Acceptable(tools, c)
    ensures Acceptable(tools, c) ==> Holds(tools, c, ParseFacet(tools, c, position).value)
  {
    assert forall s: string :: s == "" <==> |s| == 0;
  }

  lemma {:induction false} EachExact(tools: TextTools, cs: seq<Candidate>, position: nat)
    ensures ParseEach(tools, cs, position).Ok? <==> forall i | 0 <= i < |cs| :: Acceptable(tools, cs[i])
    ensures ParseEach(tools, cs, position).Ok? ==>
              forall i | 0 <= i < |cs| :: Acceptable(tools, cs[i]) && Holds(tools, cs[i], ParseEach(tools, cs, position).value[i])
    decreases |cs|
  {
    hide Acceptable, Holds, ParseFacet;
    if cs != [] {
      FacetExact(tools, cs[0], position);
      EachExact(tools, cs[1..], position + 1);
      assert forall i | 1 <= i < |cs| :: cs[i] == cs[1..][i - 1];
    }
  }

  /** Facets are accepted exactly when there are 64 acceptable ones with different ids, and keep their texts in place. */
  lemma FacetsExact(tools: TextTools, value: Option<seq<Candidate>>)
    ensures ParseFacets(tools, value).Ok? <==>
              && value.Some? && |value.value| == 64
              && (forall i | 0 <= i < 64 :: Acceptable(tools, value.value[i]))
              && forall i, j | 0 <= i < j < 64 :: value.value[i].id.value != value.value[j].id.value
    ensures ParseFacets(tools, value).Ok? ==>
              forall i | 0 <= i < 64 :: Holds(tools, value.value[i], ParseFacets(tools, value).value[i])
  {
    if value.Some? && |value.value| == 64 {
      var cs := value.value;
      EachExact(tools, cs, 1);
      if ParseEach(tools, cs, 1).Ok? {
        var facets := ParseEach(tools, cs, 1).value;
        IdsDiffer(facets);
        hide ParseEach;
        assert forall i | 0 <= i < 64 :: Acceptable(tools, cs[i]) && facets[i].id == cs[i].id.value;
        hide Acceptable, Holds;
      }
    }
  }

  lemma IdsDiffer(facets: seq<Facet>)
    ensures |set f | f in facets :: f.id| == |facets| <==> forall i, j | 0 <= i < j < |facets| :: facets[i].id != facets[j].id
  {
    var ids := Map(IdOf(), facets);
    assert forall i | 0 <= i < |facets| :: ids[i] == facets[i].id;
    var s := set f | f in facets :: f.id;
    forall x
      ensures x in s <==> x in ids
    {
      if x in s {
        var f :| f in facets && f.id == x;
        var i :| 0 <= i < |facets| && facets[i] == f;
        assert ids[i] == x;
      }
      if x in ids {
        var i :| 0 <= i < |ids| && ids[i] == x;
        assert facets[i] in facets;
      }
    }
    assert s == set x | x in ids;
    SetOfDistinct(ids, s);
  }
}
