/** What seeds and generator are pinned to. */
module SeededFacts {
  import opened Bits
  import opened JsNumber
  import opened JsonText
  import opened SeededRandom

  // ---- FNV-1a ------------------------------------------------------------------------------------

  /** One unit: exclusive or, then the prime, modulo 2^32. */
  function Step(hash: Word, unit: Unit): Word {
    WordXor(hash, unit) * 0x0100_0193 % 0x1_0000_0000
  }

  function Folded(hash: Word, value: Text): Word
    decreases |value|
  {
    if value == [] then hash else Folded(Step(hash, value[0]), value[1..])
  }

  lemma ImulWord(a: int, b: int)
    ensures ToUint32(Imul(a, b)) == ToUint32(a) * b % 0x1_0000_0000
  {
    SignedSameWord(ToUint32(a) * ToUint32(b));
    MulMod(ToUint32(a), b);
  }

  lemma MulMod(a: int, b: int)
    ensures a * (b % 0x1_0000_0000) % 0x1_0000_0000 == a * b % 0x1_0000_0000
  {
    var q, r := b / 0x1_0000_0000, b % 0x1_0000_0000;
    assert a * b == a * r + 0x1_0000_0000 * (a * q) by { Spread(a, r, q); }
    Periodic(a * r, a * q);
  }

  lemma Spread(a: int, r: int, q: int)
    ensures a * (0x1_0000_0000 * q + r) == a * r + 0x1_0000_0000 * (a * q)
  {
  }

  lemma Periodic(x: int, k: int)
    ensures (x + 0x1_0000_0000 * k) % 0x1_0000_0000 == x % 0x1_0000_0000
  {
  }

  lemma XorWord(hash: int, unit: Unit)
    ensures ToUint32(Xor(hash, unit)) == WordXor(ToUint32(hash), unit)
  {
    SignedSameWord(WordXor(ToUint32(hash), unit));
    hide WordXor, ToInt32;
    assert ToUint32(unit) == unit;
  }

  lemma StepIsStep(hash: int, unit: Unit)
    ensures ToUint32(Imul(Xor(hash, unit), FNV_PRIME)) == Step(ToUint32(hash), unit)
  {
    ImulWord(Xor(hash, unit), FNV_PRIME);
    XorWord(hash, unit);
    hide WordXor, Imul, Xor, ToUint32;
  }

  /** The loop over signed numbers is the fold of the step over words. */
  lemma {:induction false} HashIsFold(hash: int, value: Text)
    ensures Unsigned(HashFrom(hash, value)) == Folded(ToUint32(hash), value)
    decreases |value|
  {
    if value != [] {
      StepIsStep(hash, value[0]);
      hide Step, Xor, Imul, ToUint32;
      HashIsFold(Imul(Xor(hash, value[0]), FNV_PRIME), value[1..]);
    }
  }

  lemma Fnv1aIsFold(value: Text)
    ensures Fnv1a(value) == Folded(0x811c_9dc5, value)
  {
    HashIsFold(FNV_OFFSET, value);
    hide Folded, HashFrom;
  }

  // ---- Nothing is lost in a step -------------------------------------------------------------------

  lemma {:induction false} XorUndoes(a: nat, b: nat)
    ensures BitXor(BitXor(a, b), b) == a
    decreases a + b
  {
    if a != 0 || b != 0 {
      XorUndoes(a / 2, b / 2);
      var x, y := BitXor(a / 2, b / 2), if a % 2 != b % 2 then 1 else 0;
      assert BitXor(a, b) == 2 * x + y && (2 * x + y) / 2 == x && (2 * x + y) % 2 == y;
      XorUnfolds(2 * x + y, b);
    }
  }

  lemma XorUnfolds(a: nat, b: nat)
    ensures BitXor(a, b) == 2 * BitXor(a / 2, b / 2) + (if a % 2 != b % 2 then 1 else 0)
  {
    if a == 0 && b == 0 { assert BitXor(0, 0) == 0; }
  }

  lemma {:induction false} XorSwaps(a: nat, b: nat)
    ensures BitXor(a, b) == BitXor(b, a)
    decreases a + b
  {
    if a != 0 || b != 0 { XorSwaps(a / 2, b / 2); }
  }

  const PRIME_INVERSE := 899_433_627

  /** The prime is odd, so multiplying by it loses nothing modulo 2^32. */
  lemma PrimeUndoes(x: Word)
    ensures x * 0x0100_0193 % 0x1_0000_0000 * PRIME_INVERSE % 0x1_0000_0000 == x
  {
    assert 0x0100_0193 * PRIME_INVERSE == 1 + 0x1_0000_0000 * PRIME_QUOTIENT;
    var y := x * 0x0100_0193;
    MulMod(PRIME_INVERSE, y);
    assert PRIME_INVERSE * y == x + 0x1_0000_0000 * (PRIME_QUOTIENT * x) by { Inverse(x); }
    Periodic(x, PRIME_QUOTIENT * x);
  }

  const PRIME_QUOTIENT := 3_513_497

  lemma Inverse(x: int)
    ensures PRIME_INVERSE * (x * 0x0100_0193) == x + 0x1_0000_0000 * (PRIME_QUOTIENT * x)
  {
  }

  lemma StepInjective(g: Word, u: Unit, h: Word, v: Unit)
    requires Step(g, u) == Step(h, v)
    ensures WordXor(g, u) == WordXor(h, v)
    ensures u == v ==> g == h
    ensures g == h ==> u == v
  {
    PrimeUndoes(WordXor(g, u));
    PrimeUndoes(WordXor(h, v));
    XorUndoes(g, u);
    XorUndoes(h, v);
    XorUndoes(u, g);
    XorUndoes(v, h);
    XorSwaps(g, u);
    XorSwaps(h, v);
    hide BitXor;
  }

  lemma {:induction false} FoldInjective(g: Word, h: Word, value: Text)
    requires Folded(g, value) == Folded(h, value)
    ensures g == h
    decreases |value|
  {
    if value != [] {
      FoldInjective(Step(g, value[0]), Step(h, value[0]), value[1..]);
      StepInjective(g, value[0], h, value[0]);
    }
  }

  lemma {:induction false} FoldConcat(h: Word, s: Text, t: Text)
    ensures Folded(h, s + t) == Folded(Folded(h, s), t)
    decreases |s|
  {
    if s == [] {
      assert s + t == t;
    } else {
      assert (s + t)[1..] == s[1..] + t;
      FoldConcat(Step(h, s[0]), s[1..], t);
    }
  }

  /** Texts that differ in one unit have different hashes. */
  lemma OneUnitShows(before: Text, u: Unit, v: Unit, after: Text)
    requires u != v
    ensures Fnv1a(before + [u] + after) != Fnv1a(before + [v] + after)
  {
    Fnv1aIsFold(before + [u] + after);
    Fnv1aIsFold(before + [v] + after);
    hide Fnv1a, Step;
    var h := Folded(0x811c_9dc5, before);
    FoldConcat(0x811c_9dc5, before + [u], after);
    FoldConcat(0x811c_9dc5, before + [v], after);
    FoldConcat(0x811c_9dc5, before, [u]);
    FoldConcat(0x811c_9dc5, before, [v]);
    OneStep(h, u);
    OneStep(h, v);
    if Folded(Step(h, u), after) == Folded(Step(h, v), after) {
      FoldInjective(Step(h, u), Step(h, v), after);
      StepInjective(h, u, h, v);
    }
  }

  lemma OneStep(h: Word, u: Unit)
    ensures Folded(h, [u]) == Step(h, u)
  {
    assert [u][1..] == [];
  }

  lemma {:induction false} WithZero(a: nat)
    ensures BitXor(a, 0) == a && BitOr(a, 0) == a
  {
    if a > 0 { WithZero(a / 2); }
  }

  lemma XorBit(a: nat, b: nat, x: nat, y: nat)
    requires x < 2 && y < 2
    ensures BitXor(2 * a + x, 2 * b + y) == 2 * BitXor(a, b) + (if x != y then 1 else 0)
    ensures BitOr(2 * a + x, 2 * b + y) == 2 * BitOr(a, b) + (if x == 1 || y == 1 then 1 else 0)
  {
    var c, d := 2 * a + x, 2 * b + y;
    assert c / 2 == a && c % 2 == x && d / 2 == b && d % 2 == y;
    if c == 0 && d == 0 { assert BitXor(0, 0) == 0 && BitOr(0, 0) == 0; }
  }

  function Differ(x: nat, y: nat): nat {
    if x != y then 1 else 0
  }

  /** Exclusive or of two hexadecimal digits. */
  function DigitXor(x: nat, y: nat): nat {
    8 * Differ(x / 8, y / 8) + 4 * Differ(x / 4 % 2, y / 4 % 2) + 2 * Differ(x / 2 % 2, y / 2 % 2) + Differ(x % 2, y % 2)
  }

  lemma XorFour(a: nat, b: nat, x3: nat, x2: nat, x1: nat, x0: nat, y3: nat, y2: nat, y1: nat, y0: nat)
    requires x3 < 2 && x2 < 2 && x1 < 2 && x0 < 2 && y3 < 2 && y2 < 2 && y1 < 2 && y0 < 2
    ensures BitXor(16 * a + 8 * x3 + 4 * x2 + 2 * x1 + x0, 16 * b + 8 * y3 + 4 * y2 + 2 * y1 + y0)
            == 16 * BitXor(a, b) + 8 * Differ(x3, y3) + 4 * Differ(x2, y2) + 2 * Differ(x1, y1) + Differ(x0, y0)
  {
    hide BitXor, BitOr;
    XorBit(a, b, x3, y3);
    XorBit(2 * a + x3, 2 * b + y3, x2, y2);
    XorBit(4 * a + 2 * x3 + x2, 4 * b + 2 * y3 + y2, x1, y1);
    XorBit(8 * a + 4 * x3 + 2 * x2 + x1, 8 * b + 4 * y3 + 2 * y2 + y1, x0, y0);
  }

  lemma XorDigit(a: nat, b: nat, r: nat, x: nat, y: nat)
    requires x < 16 && y < 16 && BitXor(a, b) == r
    ensures BitXor(16 * a + x, 16 * b + y) == 16 * r + DigitXor(x, y)
  {
    hide BitXor;
    Split(x);
    Split(y);
    XorFour(a, b, x / 8, x / 4 % 2, x / 2 % 2, x % 2, y / 8, y / 4 % 2, y / 2 % 2, y % 2);
  }

  lemma Split(x: nat)
    requires x < 16
    ensures x == 8 * (x / 8) + 4 * (x / 4 % 2) + 2 * (x / 2 % 2) + x % 2
  {
  }

  // ---- Known values -----------------------------------------------------------------------------------

  lemma HashXor()
    ensures BitXor(2166136261, 97) == 2166136228
  {
    hide BitXor, BitOr;
    WithZero(8461469);
    XorDigit(8461469, 0, 8461469, 12, 6);
    XorDigit(135383516, 6, 135383514, 5, 1);
  }

  /** The values that FNV-1a publishes for the empty text and for "a". */
  lemma KnownHashes()
    ensures Fnv1a([]) == 0x811c_9dc5 && Fnv1a([97]) == 0xe40c_292c
  {
    hide Fnv1a, BitXor;
    Fnv1aIsFold([]);
    Fnv1aIsFold([97]);
    OneStep(0x811c_9dc5, 97);
    HashXor();
  }

  // ---- Mulberry32 --------------------------------------------------------------------------------------

  lemma OnWords(a: int, b: int)
    ensures ToUint32(Xor(a, b)) == WordXor(ToUint32(a), ToUint32(b)) && ToUint32(Or(a, b)) == WordOr(ToUint32(a), ToUint32(b))
    ensures ToUint32(Imul(a, b)) == ToUint32(a) * ToUint32(b) % 0x1_0000_0000
  {
    SignedSameWord(WordXor(ToUint32(a), ToUint32(b)));
    SignedSameWord(WordOr(ToUint32(a), ToUint32(b)));
    SignedSameWord(ToUint32(a) * ToUint32(b));
    hide WordXor, WordOr;
  }

  function Times(a: Word, b: Word): Word {
    a * b % 0x1_0000_0000
  }

  function Plus(a: Word, b: Word): Word {
    (a + b) % 0x1_0000_0000
  }

  /** Mulberry32 on unsigned words: every operation modulo 2^32. */
  function Mulberry32(z: Word): Word {
    var t := Times(WordXor(z, WordShr(z, 15)), WordOr(z, 1));
    var u := WordXor(t, Plus(t, Times(WordXor(t, WordShr(t, 7)), WordOr(t, 61))));
    WordXor(u, WordShr(u, 14))
  }

  lemma ShiftedWord(x: int, n: nat)
    requires n < 32
    ensures Ushr(x, n) == WordShr(ToUint32(x), n) && ToUint32(Ushr(x, n)) == WordShr(ToUint32(x), n)
  {
    hide WordShr;
  }

  lemma WordItself(z: Word)
    ensures ToUint32(z) == z
  {
  }

  lemma SumWord(x: int, y: int)
    ensures ToUint32(x + y) == Plus(ToUint32(x), ToUint32(y))
  {
    SumOfWords(x, y);
  }

  lemma ProductWord(a: int, b: int)
    ensures ToUint32(Imul(a, b)) == Times(ToUint32(a), ToUint32(b))
  {
    hide Imul;
    OnWords(a, b);
  }

  /** `(value ^ (value >>> n)) * (value | m)`, which both mixing steps contain. */
  lemma Mixed(v: int, n: nat, m: Word)
    requires n < 32
    ensures var t := ToUint32(v);
            ToUint32(Imul(Xor(v, Ushr(v, n)), Or(v, m))) == Times(WordXor(t, WordShr(t, n)), WordOr(t, m))
  {
    hide *;
    ShiftedWord(v, n);
    WordItself(m);
    OnWords(v, Ushr(v, n));
    OnWords(v, m);
    ProductWord(Xor(v, Ushr(v, n)), Or(v, m));
  }

  lemma SecondMix(v: int)
    ensures var t := ToUint32(v);
            ToUint32(Xor(v, v + Imul(Xor(v, Ushr(v, 7)), Or(v, 61))))
            == WordXor(t, Plus(t, Times(WordXor(t, WordShr(t, 7)), WordOr(t, 61))))
  {
    hide *;
    var product := Imul(Xor(v, Ushr(v, 7)), Or(v, 61));
    Mixed(v, 7, 61);
    SumWord(v, product);
    OnWords(v, v + product);
  }

  lemma LastMix(v: int)
    ensures var u := ToUint32(v); ToUint32(Xor(v, Ushr(v, 14))) == WordXor(u, WordShr(u, 14))
  {
    hide *;
    ShiftedWord(v, 14);
    OnWords(v, Ushr(v, 14));
  }

  /** The signed intermediates of the source compute Mulberry32. */
  lemma OutputIsMulberry32(state: Word)
    ensures Output(state) == Mulberry32(state)
  {
    var v1 := Imul(Xor(state, Ushr(state, 15)), Or(state, 1));
    WordItself(state);
    Mixed(state, 15, 1);
    SecondMix(v1);
    LastMix(Xor(v1, v1 + Imul(Xor(v1, Ushr(v1, 7)), Or(v1, 61))));
    hide WordXor, WordOr, WordShr, Xor, Or, Imul, Ushr, ToUint32, Plus, Times;
  }
}
