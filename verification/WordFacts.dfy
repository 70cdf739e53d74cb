/** What the word operations do to every bit. */
module WordFacts {
  import opened Bits
  import opened JsNumber
  import opened Sha256Spec

  /** `^`, `&`, `|` and `~` work bit by bit. */
  lemma BitwiseWords(a: Word, b: Word, i: nat)
    requires i < 32
    ensures Bit(WordXor(a, b), i) <==> Bit(a, i) != Bit(b, i)
    ensures Bit(WordAnd(a, b), i) <==> Bit(a, i) && Bit(b, i)
    ensures Bit(WordOr(a, b), i) <==> Bit(a, i) || Bit(b, i)
    ensures Bit(WordNot(a), i) <==> !Bit(a, i)
  {
    XorBits(a, b, i);
    AndBits(a, b, i);
    OrBits(a, b, i);
    Word32();
    ComplementBits(a, 32, i);
    hide Bit, BitXor, BitAnd, BitOr, Pow2;
  }

  /** The shifts move bits; what is pushed out is lost, and zeros come in. */
  lemma ShiftedWords(a: Word, n: nat, i: nat)
    requires n < 32 && i < 32
    ensures Bit(WordShr(a, n), i) <==> i + n < 32 && Bit(a, i + n)
    ensures Bit(WordShl(a, n), i) <==> i >= n && Bit(a, i - n)
  {
    ShrBits(a, n, i);
    ShlBits(a, n, i);
    Word32();
    ModBits(BitShl(a, n), 32, i);
    hide BitShl, BitShr, Pow2;
    if i + n >= 32 { HighBits(a, 32, i + n); }
    hide Bit;
  }

  lemma {:induction false} HighBits(a: nat, n: nat, i: nat)
    requires a < Pow2(n) && i >= n
    ensures !Bit(a, i)
    decreases n
  {
    if n == 0 { ZeroBits(i); } else { HighBits(a / 2, n - 1, i - 1); }
  }

  /** Section 3.2 of FIPS 180-4: the rotation brings bit i + n, counted around the word, to bit i. */
  lemma RotrRotates(x: Word, n: nat, i: nat)
    requires 0 < n < 32 && i < 32
    ensures Bit(Rotr(x, n), i) <==> Bit(x, (i + n) % 32)
  {
    hide Bit, WordOr, WordShr, WordShl;
    BitwiseWords(WordShr(x, n), WordShl(x, 32 - n), i);
    ShiftedWords(x, n, i);
    ShiftedWords(x, 32 - n, i);
    assert (i + n) % 32 == if i + n < 32 then i + n else i + n - 32;
  }

  /** Section 4.1.2: Ch takes each bit from y or z as x says, Maj is the majority. */
  lemma ChooseAndMajority(x: Word, y: Word, z: Word, i: nat)
    requires i < 32
    ensures Bit(Ch(x, y, z), i) <==> if Bit(x, i) then Bit(y, i) else Bit(z, i)
    ensures Bit(Maj(x, y, z), i) <==> (Bit(x, i) && Bit(y, i)) || (Bit(x, i) && Bit(z, i)) || (Bit(y, i) && Bit(z, i))
  {
    hide Bit, WordXor, WordAnd, WordNot;
    BitwiseWords(x, y, i);
    BitwiseWords(WordNot(x), z, i);
    BitwiseWords(WordAnd(x, y), WordAnd(WordNot(x), z), i);
    BitwiseWords(x, z, i);
    BitwiseWords(y, z, i);
    BitwiseWords(WordAnd(x, y), WordAnd(x, z), i);
    BitwiseWords(WordXor(WordAnd(x, y), WordAnd(x, z)), WordAnd(y, z), i);
  }

  /** Section 4.1.2: the large sigmas are the sum modulo 2 of three bits, by their distances. */
  lemma BigSigmaBits(x: Word, i: nat)
    requires i < 32
    ensures Bit(BigSigma0(x), i) <==> (Bit(x, (i + 2) % 32) != Bit(x, (i + 13) % 32)) != Bit(x, (i + 22) % 32)
    ensures Bit(BigSigma1(x), i) <==> (Bit(x, (i + 6) % 32) != Bit(x, (i + 11) % 32)) != Bit(x, (i + 25) % 32)
  {
    hide Bit, Rotr, WordXor, WordShr;
    ThreeBits(Rotr(x, 2), Rotr(x, 13), Rotr(x, 22), i);
    ThreeBits(Rotr(x, 6), Rotr(x, 11), Rotr(x, 25), i);
    RotrRotates(x, 2, i);
    RotrRotates(x, 13, i);
    RotrRotates(x, 22, i);
    RotrRotates(x, 6, i);
    RotrRotates(x, 11, i);
    RotrRotates(x, 25, i);
  }

  /** The small sigmas too, where one of the three is shifted instead of rotated. */
  lemma SmallSigmaBits(x: Word, i: nat)
    requires i < 32
    ensures Bit(SmallSigma0(x), i) <==> (Bit(x, (i + 7) % 32) != Bit(x, (i + 18) % 32)) != (i + 3 < 32 && Bit(x, i + 3))
    ensures Bit(SmallSigma1(x), i) <==> (Bit(x, (i + 17) % 32) != Bit(x, (i + 19) % 32)) != (i + 10 < 32 && Bit(x, i + 10))
  {
    hide Bit, Rotr, WordXor, WordShr;
    ThreeBits(Rotr(x, 7), Rotr(x, 18), WordShr(x, 3), i);
    ThreeBits(Rotr(x, 17), Rotr(x, 19), WordShr(x, 10), i);
    RotrRotates(x, 7, i);
    RotrRotates(x, 18, i);
    RotrRotates(x, 17, i);
    RotrRotates(x, 19, i);
    ShiftedWords(x, 3, i);
    ShiftedWords(x, 10, i);
  }

  lemma ThreeBits(a: Word, b: Word, c: Word, i: nat)
    requires i < 32
    ensures Bit(WordXor(WordXor(a, b), c), i) <==> (Bit(a, i) != Bit(b, i)) != Bit(c, i)
  {
    hide Bit, WordXor;
    BitwiseWords(a, b, i);
    BitwiseWords(WordXor(a, b), c, i);
  }
}
