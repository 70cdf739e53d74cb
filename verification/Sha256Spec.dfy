/** SHA-256 as FIPS 180-4 defines it, on words of 32 bits. */
module Sha256Spec {
  import opened JsNumber

  type Byte = b: int | 0 <= b < 256 witness 0

  // ---- Section 3.2 and 4.1.2: operations and functions -------------------------------------

  function Add(x: Word, y: Word): Word { (x + y) % 0x1_0000_0000 }

  function Rotr(x: Word, n: nat): Word
    requires 0 < n < 32
  {
    WordOr(WordShr(x, n), WordShl(x, 32 - n))
  }

  function Ch(x: Word, y: Word, z: Word): Word { WordXor(WordAnd(x, y), WordAnd(WordNot(x), z)) }

  function Maj(x: Word, y: Word, z: Word): Word {
    WordXor(WordXor(WordAnd(x, y), WordAnd(x, z)), WordAnd(y, z))
  }

  function BigSigma0(x: Word): Word { WordXor(WordXor(Rotr(x, 2), Rotr(x, 13)), Rotr(x, 22)) }

  function BigSigma1(x: Word): Word { WordXor(WordXor(Rotr(x, 6), Rotr(x, 11)), Rotr(x, 25)) }

  function SmallSigma0(x: Word): Word { WordXor(WordXor(Rotr(x, 7), Rotr(x, 18)), WordShr(x, 3)) }

  function SmallSigma1(x: Word): Word { WordXor(WordXor(Rotr(x, 17), Rotr(x, 19)), WordShr(x, 10)) }

  // ---- Section 4.2.2 and 5.3.3: constants --------------------------------------------------

  /** Fractional bits of the cube roots of the first sixty-four primes, eight to a row. */
  const K_0: seq<Word> := [0x428a2f98, 0x71374491, 0xb5c0fbcf, 0xe9b5dba5, 0x3956c25b, 0x59f111f1, 0x923f82a4, 0xab1c5ed5]
  const K_1: seq<Word> := [0xd807aa98, 0x12835b01, 0x243185be, 0x550c7dc3, 0x72be5d74, 0x80deb1fe, 0x9bdc06a7, 0xc19bf174]
  const K_2: seq<Word> := [0xe49b69c1, 0xefbe4786, 0x0fc19dc6, 0x240ca1cc, 0x2de92c6f, 0x4a7484aa, 0x5cb0a9dc, 0x76f988da]
  const K_3: seq<Word> := [0x983e5152, 0xa831c66d, 0xb00327c8, 0xbf597fc7, 0xc6e00bf3, 0xd5a79147, 0x06ca6351, 0x14292967]
  const K_4: seq<Word> := [0x27b70a85, 0x2e1b2138, 0x4d2c6dfc, 0x53380d13, 0x650a7354, 0x766a0abb, 0x81c2c92e, 0x92722c85]
  const K_5: seq<Word> := [0xa2bfe8a1, 0xa81a664b, 0xc24b8b70, 0xc76c51a3, 0xd192e819, 0xd6990624, 0xf40e3585, 0x106aa070]
  const K_6: seq<Word> := [0x19a4c116, 0x1e376c08, 0x2748774c, 0x34b0bcb5, 0x391c0cb3, 0x4ed8aa4a, 0x5b9cca4f, 0x682e6ff3]
  const K_7: seq<Word> := [0x748f82ee, 0x78a5636f, 0x84c87814, 0x8cc70208, 0x90befffa, 0xa4506ceb, 0xbef9a3f7, 0xc67178f2]

  const K: seq<Word> := K_0 + K_1 + K_2 + K_3 + K_4 + K_5 + K_6 + K_7

  /** Fractional bits of the square roots of the first eight primes. */
  const H0: seq<Word> := [
    0x6a09e667, 0xbb67ae85, 0x3c6ef372, 0xa54ff53a, 0x510e527f, 0x9b05688c, 0x1f83d9ab, 0x5be0cd19]

  // ---- Section 5.1.1: padding --------------------------------------------------------------

  function Zeros(n: nat): (s: seq<Byte>)
    ensures |s| == n && forall i | 0 <= i < n :: s[i] == 0
  {
    seq(n, _ => 0)
  }

  /** The fewest zero bytes that leave room for a 64-bit length at the end of a block. */
  function ZeroCount(length: nat): (z: nat)
    ensures z < 64 && (length + 1 + z) % 64 == 56
  {
    (119 - length % 64) % 64
  }

  function BigEndian32(w: Word): seq<Byte> {
    [w / 0x100_0000, w / 0x1_0000 % 256, w / 256 % 256, w % 256]
  }

  function BigEndian64(n: nat): seq<Byte> {
    BigEndian32(n / 0x1_0000_0000 % 0x1_0000_0000) + BigEndian32(n % 0x1_0000_0000)
  }

  function Pad(m: seq<Byte>): seq<Byte> {
    m + [0x80] + Zeros(ZeroCount(|m|)) + BigEndian64(8 * |m|)
  }

  // ---- Section 6.2.2: the hash computation -------------------------------------------------

  function WordAt(bytes: seq<Byte>, at: nat): Word
    requires at + 4 <= |bytes|
  {
    (bytes[at] as int) * 0x100_0000 + (bytes[at + 1] as int) * 0x1_0000 + (bytes[at + 2] as int) * 256 + bytes[at + 3]
  }

  /** The message schedule of the block that starts at `offset`. */
  function W(bytes: seq<Byte>, offset: nat, t: nat): Word
    requires offset + 64 <= |bytes|
  {
    if t < 16 then WordAt(bytes, offset + 4 * t)
    else
      Add(Add(Add(SmallSigma1(W(bytes, offset, t - 2)), W(bytes, offset, t - 7)), SmallSigma0(W(bytes, offset, t - 15))),
          W(bytes, offset, t - 16))
  }

  datatype Vars = Vars(a: Word, b: Word, c: Word, d: Word, e: Word, f: Word, g: Word, h: Word)

  function Round(v: Vars, k: Word, w: Word): Vars {
    var t1 := Add(Add(Add(Add(v.h, BigSigma1(v.e)), Ch(v.e, v.f, v.g)), k), w);
    var t2 := Add(BigSigma0(v.a), Maj(v.a, v.b, v.c));
    Vars(Add(t1, t2), v.a, v.b, v.c, Add(v.d, t1), v.e, v.f, v.g)
  }

  function Rounds(v: Vars, bytes: seq<Byte>, offset: nat, t: nat): Vars
    requires offset + 64 <= |bytes| && t <= 64
  {
    if t == 0 then v else Round(Rounds(v, bytes, offset, t - 1), K[t - 1], W(bytes, offset, t - 1))
  }

  function AddVars(u: Vars, v: Vars): Vars {
    Vars(Add(u.a, v.a), Add(u.b, v.b), Add(u.c, v.c), Add(u.d, v.d), Add(u.e, v.e), Add(u.f, v.f), Add(u.g, v.g), Add(u.h, v.h))
  }

  function Compress(v: Vars, bytes: seq<Byte>, offset: nat): Vars
    requires offset + 64 <= |bytes|
  {
    AddVars(v, Rounds(v, bytes, offset, 64))
  }

  /** The hash value after the first `blocks` blocks. */
  function HashBlocks(bytes: seq<Byte>, blocks: nat): Vars
    requires 64 * blocks <= |bytes|
  {
    if blocks == 0 then Vars(H0[0], H0[1], H0[2], H0[3], H0[4], H0[5], H0[6], H0[7])
    else Compress(HashBlocks(bytes, blocks - 1), bytes, 64 * (blocks - 1))
  }

  function Words(v: Vars): seq<Word> { [v.a, v.b, v.c, v.d, v.e, v.f, v.g, v.h] }

  function Sha256(m: seq<Byte>): seq<Word> {
    Words(HashBlocks(Pad(m), |Pad(m)| / 64))
  }
}
