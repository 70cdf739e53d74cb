/** Bitwise operations on natural numbers, and what they do to each bit. */
module Bits {
  function Pow2(n: nat): (r: nat)
    ensures r > 0
  {
    if n == 0 then 1 else 2 * Pow2(n - 1)
  }

  /** Bit i of a number, counted from the least significant one. */
  predicate Bit(a: nat, i: nat)
    decreases i
  {
    if i == 0 then a % 2 == 1 else Bit(a / 2, i - 1)
  }

  function BitXor(a: nat, b: nat): nat {
    if a == 0 && b == 0 then 0 else 2 * BitXor(a / 2, b / 2) + (if a % 2 != b % 2 then 1 else 0)
  }

  function BitAnd(a: nat, b: nat): nat {
    if a == 0 && b == 0 then 0 else 2 * BitAnd(a / 2, b / 2) + (if a % 2 == 1 && b % 2 == 1 then 1 else 0)
  }

  function BitOr(a: nat, b: nat): nat {
    if a == 0 && b == 0 then 0 else 2 * BitOr(a / 2, b / 2) + (if a % 2 == 1 || b % 2 == 1 then 1 else 0)
  }

  function BitShr(a: nat, n: nat): (r: nat)
    ensures r <= a
    decreases n
  {
    if n == 0 then a else BitShr(a / 2, n - 1)
  }

  function BitShl(a: nat, n: nat): nat {
    a * Pow2(n)
  }

  lemma {:induction false} Below(a: nat, b: nat, n: nat)
    requires a < Pow2(n) && b < Pow2(n)
    ensures BitXor(a, b) < Pow2(n) && BitAnd(a, b) < Pow2(n) && BitOr(a, b) < Pow2(n)
    decreases n
  {
    if n > 0 { Below(a / 2, b / 2, n - 1); }
  }

  lemma Word32()
    ensures Pow2(32) == 0x1_0000_0000
  {
    assert Pow2(8) == 256;
    assert Pow2(16) == 0x1_0000;
    assert Pow2(24) == 0x100_0000;
  }

  // ---- What happens to a bit ---------------------------------------------------------------------

  lemma {:induction false} ZeroBits(i: nat)
    ensures !Bit(0, i)
  {
    if i > 0 { ZeroBits(i - 1); }
  }

  lemma {:induction false} XorBits(a: nat, b: nat, i: nat)
    ensures Bit(BitXor(a, b), i) <==> Bit(a, i) != Bit(b, i)
    decreases i
  {
    if a == 0 && b == 0 { ZeroBits(i); } else if i > 0 { XorBits(a / 2, b / 2, i - 1); }
  }

  lemma {:induction false} AndBits(a: nat, b: nat, i: nat)
    ensures Bit(BitAnd(a, b), i) <==> Bit(a, i) && Bit(b, i)
    decreases i
  {
    if a == 0 && b == 0 { ZeroBits(i); } else if i > 0 { AndBits(a / 2, b / 2, i - 1); }
  }

  lemma {:induction false} OrBits(a: nat, b: nat, i: nat)
    ensures Bit(BitOr(a, b), i) <==> Bit(a, i) || Bit(b, i)
    decreases i
  {
    if a == 0 && b == 0 { ZeroBits(i); } else if i > 0 { OrBits(a / 2, b / 2, i - 1); }
  }

  /** Complementing within n bits. */
  lemma {:induction false} ComplementBits(a: nat, n: nat, i: nat)
    requires a < Pow2(n) && i < n
    ensures Bit(Pow2(n) - 1 - a, i) <==> !Bit(a, i)
    decreases i
  {
    if i > 0 {
      assert (Pow2(n) - 1 - a) / 2 == Pow2(n - 1) - 1 - a / 2;
      ComplementBits(a / 2, n - 1, i - 1);
    }
  }

  lemma {:induction false} ShrBits(a: nat, n: nat, i: nat)
    ensures Bit(BitShr(a, n), i) <==> Bit(a, n + i)
    decreases n
  {
    if n > 0 { ShrBits(a / 2, n - 1, i); }
  }

  lemma {:induction false} ShlBits(a: nat, n: nat, i: nat)
    ensures Bit(BitShl(a, n), i) <==> i >= n && Bit(a, i - n)
    decreases n, i
  {
    if n > 0 {
      Doubled(a, n);
      hide BitShl;
      if i > 0 { ShlBits(a, n - 1, i - 1); }
    }
  }

  lemma Doubled(a: nat, n: nat)
    requires n > 0
    ensures BitShl(a, n) == 2 * BitShl(a, n - 1)
  {
    assert a * (2 * Pow2(n - 1)) == 2 * (a * Pow2(n - 1));
  }

  lemma {:induction false} ModBits(a: nat, n: nat, i: nat)
    ensures Bit(a % Pow2(n), i) <==> i < n && Bit(a, i)
    decreases n, i
  {
    if n == 0 {
      ZeroBits(i);
    } else {
      if i > 0 { ModBits(a / 2, n - 1, i - 1); }
      ModHalves(a, Pow2(n - 1));
    }
  }

  lemma ModHalves(a: nat, p: nat)
    requires p > 0
    ensures a % (2 * p) >= 0 && a % (2 * p) / 2 == a / 2 % p && a % (2 * p) % 2 == a % 2
  {
    ModTwice(a, p);
    var x, y := a / 2 % p, a % 2;
    assert (2 * x + y) / 2 == x && (2 * x + y) % 2 == y;
  }

  lemma DivTwice(a: nat, p: nat)
    requires p > 0
    ensures a / (2 * p) == a / 2 / p
  {
    var q, r := a / (2 * p), a % (2 * p);
    assert a == 2 * (p * q) + r && 0 <= r < 2 * p;
    assert a / 2 == p * q + r / 2 && 0 <= r / 2 < p;
    DivUnique(a / 2, p, q, r / 2);
  }

  lemma Scaled(x: nat, y: nat, p: nat)
    requires x <= y
    ensures p * x <= p * y
  {
  }

  lemma DivUnique(a: nat, p: nat, q: nat, r: nat)
    requires p > 0 && a == p * q + r && r < p
    ensures a / p == q
  {
    if a / p < q { Scaled(a / p + 1, q, p); }
    if a / p > q { Scaled(q + 1, a / p, p); }
  }

  lemma ModTwice(a: nat, p: nat)
    requires p > 0
    ensures a % (2 * p) == 2 * (a / 2 % p) + a % 2
  {
    DivTwice(a, p);
    var q := a / (2 * p);
    assert a == 2 * (p * q) + a % (2 * p) && a / 2 == p * q + a / 2 % p;
  }

  /** The bits below n tell a number below 2^n. */
  lemma {:induction false} SameBits(a: nat, b: nat, n: nat)
    requires a < Pow2(n) && b < Pow2(n) && forall i | 0 <= i < n :: Bit(a, i) <==> Bit(b, i)
    ensures a == b
    decreases n
  {
    if n > 0 {
      assert Bit(a, 0) <==> Bit(b, 0);
      forall i | 0 <= i < n - 1
        ensures Bit(a / 2, i) <==> Bit(b / 2, i)
      {
        assert Bit(a, i + 1) <==> Bit(b, i + 1);
      }
      SameBits(a / 2, b / 2, n - 1);
    }
  }
}
