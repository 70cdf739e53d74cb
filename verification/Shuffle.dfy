/** The seeded Fisher-Yates shuffle (src/lib/problem.ts:212-221). */
module Shuffle {
  import opened JsNumber
  import opened Sequences
  import opened SeededRandom

  /** Integers below 2^53 are exact in a double, and so are their multiples by a power of two. */
  const EXACT := 0x20_0000_0000_0000

  /** The largest length for which random() * (index + 1) is exact in a double. */
  const MAX_LENGTH := 0x20_0000

  /** Math.floor(word / 2^32 * count), of a product that is exact. */
  function FlooredProduct(word: Word, count: nat): nat
    requires word * count < EXACT
  {
    word * count / WORD
  }

  /** The index to swap with: the floored product, without the bound on the index. */
  function SwapIndex(word: Word, index: nat): (j: nat)
    ensures j <= index
  {
    var product := word * (index + 1);
    assert product < WORD * (index + 1);
    product / WORD
  }

  /** The products of the loop are exact, so that the floored double is the index to swap with. */
  lemma ProductIsExact(word: Word, index: nat)
    requires index < MAX_LENGTH
    ensures word * (index + 1) < EXACT && FlooredProduct(word, index + 1) == SwapIndex(word, index)
  {
    assert word * (index + 1) <= (WORD - 1) * (index + 1) <= (WORD - 1) * MAX_LENGTH;
  }

  /** Every position up to the index can be drawn. */
  lemma SwapIndexOnto(index: nat, j: nat)
    returns (word: Word)
    requires j <= index < WORD
    ensures SwapIndex(word, index) == j
  {
    var n := j * WORD + index;
    assert n < WORD * (index + 1) by {
      assert j * WORD <= index * WORD;
    }
    assert n / (index + 1) < WORD;
    word := n / (index + 1);
    assert word * (index + 1) == n - n % (index + 1);
    assert j * WORD <= word * (index + 1) < (j + 1) * WORD;
    Between(word * (index + 1), j);
  }

  lemma Between(x: int, j: int)
    requires j * WORD <= x < (j + 1) * WORD
    ensures x / WORD == j
  {
  }

  function Swap<T>(s: seq<T>, i: nat, j: nat): (r: seq<T>)
    requires i < |s| && j < |s|
    ensures |r| == |s|
  {
    s[i := s[j]][j := s[i]]
  }

  /** The loop from an index down to 1, with the generator in a state. */
  function ShuffleFrom<T>(s: seq<T>, index: nat, state: Word): (r: seq<T>)
    requires s != [] ==> index < |s|
    requires s == [] ==> index == 0
    ensures |r| == |s|
    decreases index
  {
    hide Output, NextState, SwapIndex;
    if index == 0 then s
    else
      var next := NextState(state);
      ShuffleFrom(Swap(s, index, SwapIndex(Output(next), index)), index - 1, next)
  }

  function Shuffled<T>(s: seq<T>, seed: Seed): (r: seq<T>)
    ensures |r| == |s|
  {
    ShuffleFrom(s, if s == [] then 0 else |s| - 1, SeedState(seed))
  }

  method DeterministicShuffle<T>(values: seq<T>, seed: Seed) returns (shuffled: array<T>)
    requires |values| <= MAX_LENGTH
    ensures fresh(shuffled) && shuffled[..] == Shuffled(values, seed)
  {
    hide Output, SeedState, NextState, SwapIndex, FlooredProduct;
    shuffled := new T[|values|](i requires 0 <= i < |values| => values[i]);
    var random := new Random(seed);
    var index := if |values| == 0 then 0 else shuffled.Length - 1;
    assert shuffled[..] == values;
    while index > 0
      invariant index >= 0 && shuffled.Length == |values| && (values != [] ==> index < |values|) && (values == [] ==> index == 0)
      invariant ShuffleFrom(shuffled[..], index, random.state) == Shuffled(values, seed)
    {
      ghost var before, state := shuffled[..], random.state;
      var word := random.Next();
      ProductIsExact(word, index);
      var swapIndex := FlooredProduct(word, index + 1);
      var current := shuffled[index];
      shuffled[index] := shuffled[swapIndex];
      shuffled[swapIndex] := current;
      assert shuffled[..] == Swap(before, index, swapIndex);
      index := index - 1;
    }
  }

  // ---- What a shuffle does ---------------------------------------------------------------------

  lemma SwapPermutes<T>(s: seq<T>, i: nat, j: nat)
    requires i < |s| && j < |s|
    ensures multiset(Swap(s, i, j)) == multiset(s)
  {
  }

  lemma {:induction false} ShuffleFromPermutes<T>(s: seq<T>, index: nat, state: Word)
    requires (s != [] ==> index < |s|) && (s == [] ==> index == 0)
    ensures multiset(ShuffleFrom(s, index, state)) == multiset(s)
    decreases index
  {
    hide Output, NextState, SwapIndex, Swap;
    if index > 0 {
      var next := NextState(state);
      var j := SwapIndex(Output(next), index);
      SwapPermutes(s, index, j);
      ShuffleFromPermutes(Swap(s, index, j), index - 1, next);
    }
  }

  /** A shuffle loses, adds and duplicates nothing. */
  lemma ShufflePermutes<T>(s: seq<T>, seed: Seed)
    ensures multiset(Shuffled(s, seed)) == multiset(s)
  {
    ShuffleFromPermutes(s, if s == [] then 0 else |s| - 1, SeedState(seed));
  }

  lemma {:induction false} ShuffleFromMaps<T, U>(f: T -> U, s: seq<T>, index: nat, state: Word)
    requires (s != [] ==> index < |s|) && (s == [] ==> index == 0)
    ensures Map(f, ShuffleFrom(s, index, state)) == ShuffleFrom(Map(f, s), index, state)
    decreases index
  {
    hide Output, NextState, SwapIndex;
    if index > 0 {
      var next := NextState(state);
      var j := SwapIndex(Output(next), index);
      assert Map(f, Swap(s, index, j)) == Swap(Map(f, s), index, j);
      ShuffleFromMaps(f, Swap(s, index, j), index - 1, next);
    }
  }

  /** The order depends on length and seed alone: shuffling commutes with any map. */
  lemma ShuffleMaps<T, U>(f: T -> U, s: seq<T>, seed: Seed)
    ensures Map(f, Shuffled(s, seed)) == Shuffled(Map(f, s), seed)
  {
    ShuffleFromMaps(f, s, if s == [] then 0 else |s| - 1, SeedState(seed));
  }
}
