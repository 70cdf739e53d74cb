/** Where the constants of SHA-256 come from. */
module Sha256Constants {
  import opened JsNumber
  import opened Sha256Spec

  /** The first sixty-four primes, eight to a row. */
  const PRIMES_0: seq<nat> := [2, 3, 5, 7, 11, 13, 17, 19]
  const PRIMES_1: seq<nat> := [23, 29, 31, 37, 41, 43, 47, 53]
  const PRIMES_2: seq<nat> := [59, 61, 67, 71, 73, 79, 83, 89]
  const PRIMES_3: seq<nat> := [97, 101, 103, 107, 109, 113, 127, 131]
  const PRIMES_4: seq<nat> := [137, 139, 149, 151, 157, 163, 167, 173]
  const PRIMES_5: seq<nat> := [179, 181, 191, 193, 197, 199, 211, 223]
  const PRIMES_6: seq<nat> := [227, 229, 233, 239, 241, 251, 257, 263]
  const PRIMES_7: seq<nat> := [269, 271, 277, 281, 283, 293, 307, 311]

  const PRIMES: seq<nat> := PRIMES_0 + PRIMES_1 + PRIMES_2 + PRIMES_3 + PRIMES_4 + PRIMES_5 + PRIMES_6 + PRIMES_7

  function CubeRoot(p: nat): (c: nat)
    requires p < 343
    ensures c * c * c <= p < (c + 1) * (c + 1) * (c + 1)
  {
    if p < 1 then 0 else if p < 8 then 1 else if p < 27 then 2 else if p < 64 then 3 else if p < 125 then 4 else if p < 216 then 5 else 6
  }

  function SquareRoot(p: nat): (c: nat)
    requires p < 25
    ensures c * c <= p < (c + 1) * (c + 1)
  {
    if p < 1 then 0 else if p < 4 then 1 else if p < 9 then 2 else if p < 16 then 3 else 4
  }

  function Cube(n: nat): nat { n * n * n }

  /** The first 32 bits of the fractional part of the cube root: the largest such fraction whose cube is at most p. */
  predicate CubeRootBits(p: nat, w: Word) {
    p < 343 && Cube(CubeRoot(p) * 0x1_0000_0000 + w) <= p * Cube(0x1_0000_0000) < Cube(CubeRoot(p) * 0x1_0000_0000 + w + 1)
  }

  predicate SquareRootBits(p: nat, w: Word) {
    && p < 25
    && (SquareRoot(p) * 0x1_0000_0000 + w) * (SquareRoot(p) * 0x1_0000_0000 + w) <= p * 0x1_0000_0000 * 0x1_0000_0000
    && p * 0x1_0000_0000 * 0x1_0000_0000 < (SquareRoot(p) * 0x1_0000_0000 + w + 1) * (SquareRoot(p) * 0x1_0000_0000 + w + 1)
  }

  lemma Row0()
    ensures forall i | 0 <= i < 8 :: CubeRootBits(PRIMES_0[i], K_0[i])
  {
    assert CubeRootBits(2, 0x428a2f98) && CubeRootBits(3, 0x71374491);
    assert CubeRootBits(5, 0xb5c0fbcf) && CubeRootBits(7, 0xe9b5dba5);
    assert CubeRootBits(11, 0x3956c25b) && CubeRootBits(13, 0x59f111f1);
    assert CubeRootBits(17, 0x923f82a4) && CubeRootBits(19, 0xab1c5ed5);
    hide CubeRootBits;
  }

  lemma Row1()
    ensures forall i | 0 <= i < 8 :: CubeRootBits(PRIMES_1[i], K_1[i])
  {
    assert CubeRootBits(23, 0xd807aa98) && CubeRootBits(29, 0x12835b01);
    assert CubeRootBits(31, 0x243185be) && CubeRootBits(37, 0x550c7dc3);
    assert CubeRootBits(41, 0x72be5d74) && CubeRootBits(43, 0x80deb1fe);
    assert CubeRootBits(47, 0x9bdc06a7) && CubeRootBits(53, 0xc19bf174);
    hide CubeRootBits;
  }

  lemma Row2()
    ensures forall i | 0 <= i < 8 :: CubeRootBits(PRIMES_2[i], K_2[i])
  {
    assert CubeRootBits(59, 0xe49b69c1) && CubeRootBits(61, 0xefbe4786);
    assert CubeRootBits(67, 0x0fc19dc6) && CubeRootBits(71, 0x240ca1cc);
    assert CubeRootBits(73, 0x2de92c6f) && CubeRootBits(79, 0x4a7484aa);
    assert CubeRootBits(83, 0x5cb0a9dc) && CubeRootBits(89, 0x76f988da);
    hide CubeRootBits;
  }

  lemma Row3()
    ensures forall i | 0 <= i < 8 :: CubeRootBits(PRIMES_3[i], K_3[i])
  {
    assert CubeRootBits(97, 0x983e5152) && CubeRootBits(101, 0xa831c66d);
    assert CubeRootBits(103, 0xb00327c8) && CubeRootBits(107, 0xbf597fc7);
    assert CubeRootBits(109, 0xc6e00bf3) && CubeRootBits(113, 0xd5a79147);
    assert CubeRootBits(127, 0x06ca6351) && CubeRootBits(131, 0x14292967);
    hide CubeRootBits;
  }

  lemma Row4()
    ensures forall i | 0 <= i < 8 :: CubeRootBits(PRIMES_4[i], K_4[i])
  {
    assert CubeRootBits(137, 0x27b70a85) && CubeRootBits(139, 0x2e1b2138);
    assert CubeRootBits(149, 0x4d2c6dfc) && CubeRootBits(151, 0x53380d13);
    assert CubeRootBits(157, 0x650a7354) && CubeRootBits(163, 0x766a0abb);
    assert CubeRootBits(167, 0x81c2c92e) && CubeRootBits(173, 0x92722c85);
    hide CubeRootBits;
  }

  lemma Row5()
    ensures forall i | 0 <= i < 8 :: CubeRootBits(PRIMES_5[i], K_5[i])
  {
    assert CubeRootBits(179, 0xa2bfe8a1) && CubeRootBits(181, 0xa81a664b);
    assert CubeRootBits(191, 0xc24b8b70) && CubeRootBits(193, 0xc76c51a3);
    assert CubeRootBits(197, 0xd192e819) && CubeRootBits(199, 0xd6990624);
    assert CubeRootBits(211, 0xf40e3585) && CubeRootBits(223, 0x106aa070);
    hide CubeRootBits;
  }

  lemma Row6()
    ensures forall i | 0 <= i < 8 :: CubeRootBits(PRIMES_6[i], K_6[i])
  {
    assert CubeRootBits(227, 0x19a4c116) && CubeRootBits(229, 0x1e376c08);
    assert CubeRootBits(233, 0x2748774c) && CubeRootBits(239, 0x34b0bcb5);
    assert CubeRootBits(241, 0x391c0cb3) && CubeRootBits(251, 0x4ed8aa4a);
    assert CubeRootBits(257, 0x5b9cca4f) && CubeRootBits(263, 0x682e6ff3);
    hide CubeRootBits;
  }

  lemma Row7()
    ensures forall i | 0 <= i < 8 :: CubeRootBits(PRIMES_7[i], K_7[i])
  {
    assert CubeRootBits(269, 0x748f82ee) && CubeRootBits(271, 0x78a5636f);
    assert CubeRootBits(277, 0x84c87814) && CubeRootBits(281, 0x8cc70208);
    assert CubeRootBits(283, 0x90befffa) && CubeRootBits(293, 0xa4506ceb);
    assert CubeRootBits(307, 0xbef9a3f7) && CubeRootBits(311, 0xc67178f2);
    hide CubeRootBits;
  }

  lemma Quarter0(t: nat)
    requires t < 16
    ensures CubeRootBits(PRIMES[t], K[t])
  {
    Row0();
    Row1();
    hide CubeRootBits;
    assert PRIMES[t] == (if t < 8 then PRIMES_0[t] else PRIMES_1[t - 8]);
    assert K[t] == (if t < 8 then K_0[t] else K_1[t - 8]);
  }

  lemma Quarter1(t: nat)
    requires 16 <= t < 32
    ensures CubeRootBits(PRIMES[t], K[t])
  {
    Row2();
    Row3();
    hide CubeRootBits;
    assert PRIMES[t] == (if t < 24 then PRIMES_2[t - 16] else PRIMES_3[t - 24]);
    assert K[t] == (if t < 24 then K_2[t - 16] else K_3[t - 24]);
  }

  lemma Quarter2(t: nat)
    requires 32 <= t < 48
    ensures CubeRootBits(PRIMES[t], K[t])
  {
    Row4();
    Row5();
    hide CubeRootBits;
    assert PRIMES[t] == (if t < 40 then PRIMES_4[t - 32] else PRIMES_5[t - 40]);
    assert K[t] == (if t < 40 then K_4[t - 32] else K_5[t - 40]);
  }

  lemma Quarter3(t: nat)
    requires 48 <= t < 64
    ensures CubeRootBits(PRIMES[t], K[t])
  {
    Row6();
    Row7();
    hide CubeRootBits;
    assert PRIMES[t] == (if t < 56 then PRIMES_6[t - 48] else PRIMES_7[t - 56]);
    assert K[t] == (if t < 56 then K_6[t - 48] else K_7[t - 56]);
  }

  /** FIPS 180-4, section 4.2.2: the round constants are the cube roots of the first sixty-four primes. */
  lemma RoundConstants(t: nat)
    requires t < 64
    ensures CubeRootBits(PRIMES[t], K[t])
  {
    hide CubeRootBits;
    if t < 16 { Quarter0(t); } else if t < 32 { Quarter1(t); } else if t < 48 { Quarter2(t); } else { Quarter3(t); }
  }

  /** FIPS 180-4, section 5.3.3: the initial hash value is the square roots of the first eight primes. */
  lemma InitialHash(i: nat)
    requires i < 8
    ensures SquareRootBits(PRIMES[i], H0[i])
  {
    assert SquareRootBits(2, 0x6a09e667) && SquareRootBits(3, 0xbb67ae85);
    assert SquareRootBits(5, 0x3c6ef372) && SquareRootBits(7, 0xa54ff53a);
    assert SquareRootBits(11, 0x510e527f) && SquareRootBits(13, 0x9b05688c);
    assert SquareRootBits(17, 0x1f83d9ab) && SquareRootBits(19, 0x5be0cd19);
    hide SquareRootBits;
    assert PRIMES[i] == PRIMES_0[i];
  }
}
