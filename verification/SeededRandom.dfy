/** Seeds and the Mulberry32 generator (src/lib/problem.ts:184-210). */
module SeededRandom {
  import opened JsNumber
  import opened JsonText

  const FNV_OFFSET := 0x811c9dc5
  const FNV_PRIME := 0x01000193
  const INCREMENT := 0x6d2b79f5

  /** The hash after some more units, as a signed or unsigned number for the same word. */
  function HashFrom(hash: int, value: Text): int
    decreases |value|
  {
    if value == [] then hash else HashFrom(Imul(Xor(hash, value[0]), FNV_PRIME), value[1..])
  }

  function Fnv1a(value: Text): Word {
    Unsigned(HashFrom(FNV_OFFSET, value))
  }

  method HashString(value: Text) returns (hash: Word)
    ensures hash == Fnv1a(value)
  {
    hide Xor, Imul;
    var h := FNV_OFFSET;
    for index := 0 to |value|
      invariant HashFrom(h, value[index..]) == HashFrom(FNV_OFFSET, value)
    {
      assert value[index..][1..] == value[index + 1..];
      h := Xor(h, value[index]);
      h := Imul(h, FNV_PRIME);
    }
    hash := Unsigned(h);
  }

  datatype Seed = Number(n: int) | Label(s: Text)

  function SeedState(seed: Seed): Word {
    match seed
    case Number(n) => Unsigned(n)
    case Label(s) => Fnv1a(s)
  }

  function NextState(state: Word): Word {
    Unsigned(state + INCREMENT)
  }

  /** The word a state gives; the generator returns it divided by 2^32. */
  function Output(state: Word): Word {
    var v1 := Imul(Xor(state, Ushr(state, 15)), Or(state, 1));
    var v2 := Xor(v1, v1 + Imul(Xor(v1, Ushr(v1, 7)), Or(v1, 61)));
    Unsigned(Xor(v2, Ushr(v2, 14)))
  }

  /** The closure createSeededRandom returns. */
  class Random {
    var state: Word

    constructor (seed: Seed)
      ensures state == SeedState(seed)
    {
      match seed
      case Number(n) => state := Unsigned(n);
      case Label(s) =>
        var hash := HashString(s);
        state := hash;
    }

    /** The numerator of the next number, over 2^32. */
    method Next() returns (word: Word)
      modifies this
      ensures state == NextState(old(state)) && word == Output(state)
    {
      hide Xor, Or, Imul, Ushr, Unsigned;
      state := Unsigned(state + INCREMENT);
      var value: int := state;
      value := Imul(Xor(value, Ushr(value, 15)), Or(value, 1));
      value := Xor(value, value + Imul(Xor(value, Ushr(value, 7)), Or(value, 61)));
      word := Unsigned(Xor(value, Ushr(value, 14)));
    }
  }

  // ---- The period ---------------------------------------------------------------------------

  function StateAfter(state: Word, calls: nat): Word {
    if calls == 0 then state else NextState(StateAfter(state, calls - 1))
  }

  /** INCREMENT * INVERSE is one more than a multiple of 2^32: the increment is odd, so it has an inverse. */
  const INVERSE := 0xdc58aa5d
  const QUOTIENT := 1_576_479_847

  lemma InverseHolds()
    ensures INCREMENT * INVERSE == 1 + QUOTIENT * WORD
  {
  }

  lemma {:induction false} StateIsLinear(state: Word, calls: nat)
    ensures StateAfter(state, calls) == (state + calls * INCREMENT) % WORD
  {
    if calls > 0 {
      StateIsLinear(state, calls - 1);
      var before := state + (calls - 1) * INCREMENT;
      assert state + calls * INCREMENT == before + INCREMENT;
      AddMod(before, INCREMENT);
    }
  }

  lemma AddMod(x: int, y: int)
    ensures (x % WORD + y) % WORD == (x + y) % WORD
  {
  }

  /** Only multiples of 2^32 times the increment vanish modulo 2^32. */
  lemma IncrementIsInvertible(k: int)
    requires (k * INCREMENT) % WORD == 0
    ensures k % WORD == 0
  {
    var m := k * INCREMENT / WORD;
    InverseHolds();
    assert k * INCREMENT == m * WORD;
    Regroup(k, m, INCREMENT, INVERSE, QUOTIENT, WORD);
    MultipleOf(m * INVERSE - k * QUOTIENT);
  }

  lemma Regroup(k: int, m: int, a: int, b: int, q: int, w: int)
    requires k * a == m * w && a * b == 1 + q * w
    ensures k == w * (m * b - k * q)
  {
    calc {
      k * (a * b);
      (k * a) * b;
      (m * w) * b;
      w * (m * b);
    }
    calc {
      k * (1 + q * w);
      k + k * (q * w);
      k + w * (k * q);
    }
    assert w * (m * b - k * q) == w * (m * b) - w * (k * q);
  }

  lemma MultipleOf(x: int)
    ensures (WORD * x) % WORD == 0
  {
  }

  lemma SameResidue(x: int, y: int)
    ensures x % WORD == y % WORD <==> (x - y) % WORD == 0
  {
  }

  /** The generator returns to a state exactly after multiples of 2^32 calls: its period is 2^32. */
  lemma PeriodIsExact(state: Word, calls: nat)
    ensures StateAfter(state, calls) == state <==> calls % WORD == 0
  {
    hide StateAfter;
    StateIsLinear(state, calls);
    SameResidue(state + calls * INCREMENT, state);
    if (calls * INCREMENT) % WORD == 0 {
      IncrementIsInvertible(calls);
    }
    if calls % WORD == 0 {
      var m := calls / WORD;
      assert calls * INCREMENT == WORD * (m * INCREMENT) by { Shuffle3(WORD, m, INCREMENT); }
      MultipleOf(m * INCREMENT);
    }
  }

  lemma Shuffle3(w: int, m: int, a: int)
    ensures (m * w) * a == w * (m * a)
  {
  }

  /** Every state is reached from every other within one period. */
  lemma ReachesAll(state: Word, target: Word)
    returns (calls: nat)
    ensures calls < WORD && StateAfter(state, calls) == target
  {
    hide StateAfter;
    var d := target - state;
    calls := (d * INVERSE) % WORD;
    var m := d * INVERSE / WORD;
    InverseHolds();
    StateIsLinear(state, calls);
    assert calls == d * INVERSE - m * WORD;
    Solve(d, m, INCREMENT, INVERSE, QUOTIENT, WORD, calls);
    MultipleOf(d * QUOTIENT - m * INCREMENT);
    SameResidue(state + calls * INCREMENT, target);
  }

  lemma Solve(d: int, m: int, a: int, b: int, q: int, w: int, calls: int)
    requires a * b == 1 + q * w && calls == d * b - m * w
    ensures calls * a - d == w * (d * q - m * a)
  {
    calc {
      calls * a;
      (d * b - m * w) * a;
      (d * b) * a - (m * w) * a;
      d * (a * b) - w * (m * a);
    }
    calc {
      d * (1 + q * w);
      d + d * (q * w);
      d + w * (d * q);
    }
    assert w * (d * q - m * a) == w * (d * q) - w * (m * a);
  }
}
