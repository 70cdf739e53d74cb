/** The array code of src/lib/browser-sha256.ts, proved to compute FIPS 180-4. */
module Sha256 {
  import opened JsNumber
  import opened Sha256Spec

  function RotateRight(value: int, count: nat): int
    requires 0 < count < 32
  {
    Or(Ushr(value, count), Shl(value, 32 - count))
  }

  /** The signed rotation stands for the standard's ROTR. */
  lemma RotateRightIsRotr(value: int, count: nat)
    requires 0 < count < 32
    ensures ToUint32(RotateRight(value, count)) == Rotr(ToUint32(value), count)
  {
    hide WordOr, WordShl, WordShr;
    SignedSameWord(WordShl(ToUint32(value), 32 - count));
    SignedSameWord(WordOr(Ushr(value, count), WordShl(ToUint32(value), 32 - count)));
  }

  lemma XorWords(a: int, b: int)
    ensures ToUint32(Xor(a, b)) == WordXor(ToUint32(a), ToUint32(b))
  {
    hide WordXor;
    SignedSameWord(WordXor(ToUint32(a), ToUint32(b)));
  }

  lemma AndWords(a: int, b: int)
    ensures ToUint32(And(a, b)) == WordAnd(ToUint32(a), ToUint32(b))
  {
    hide WordAnd;
    SignedSameWord(WordAnd(ToUint32(a), ToUint32(b)));
  }

  lemma NotWord(a: int)
    ensures ToUint32(Not(a)) == WordNot(ToUint32(a))
  {
    hide WordNot;
    SignedSameWord(WordNot(ToUint32(a)));
  }

  function Rotations(x: int, i: nat, j: nat, k: nat): int
    requires 0 < i < 32 && 0 < j < 32 && 0 < k < 32
  {
    Xor(Xor(RotateRight(x, i), RotateRight(x, j)), RotateRight(x, k))
  }

  function RotationsAndShift(x: int, i: nat, j: nat, k: nat): int
    requires 0 < i < 32 && 0 < j < 32 && 0 < k < 32
  {
    Xor(Xor(RotateRight(x, i), RotateRight(x, j)), Ushr(x, k))
  }

  lemma RotationsWord(x: Word, i: nat, j: nat, k: nat)
    requires 0 < i < 32 && 0 < j < 32 && 0 < k < 32
    ensures ToUint32(Rotations(x, i, j, k)) == WordXor(WordXor(Rotr(x, i), Rotr(x, j)), Rotr(x, k))
    ensures ToUint32(RotationsAndShift(x, i, j, k)) == WordXor(WordXor(Rotr(x, i), Rotr(x, j)), WordShr(x, k))
  {
    hide Rotr, RotateRight, Xor, WordXor, WordShr;
    RotateRightIsRotr(x, i);
    RotateRightIsRotr(x, j);
    RotateRightIsRotr(x, k);
    XorWords(RotateRight(x, i), RotateRight(x, j));
    XorWords(Xor(RotateRight(x, i), RotateRight(x, j)), RotateRight(x, k));
    XorWords(Xor(RotateRight(x, i), RotateRight(x, j)), Ushr(x, k));
  }

  function Choice(e: int, f: int, g: int): int { Xor(And(e, f), And(Not(e), g)) }

  function Majority(a: int, b: int, c: int): int { Xor(Xor(And(a, b), And(a, c)), And(b, c)) }

  lemma ChoiceAndMajority(x: Word, y: Word, z: Word)
    ensures ToUint32(Choice(x, y, z)) == Ch(x, y, z) && ToUint32(Majority(x, y, z)) == Maj(x, y, z)
  {
    hide Xor, And, Not, WordXor, WordAnd, WordNot;
    NotWord(x);
    AndWords(x, y);
    AndWords(Not(x), z);
    XorWords(And(x, y), And(Not(x), z));
    AndWords(x, z);
    AndWords(y, z);
    XorWords(And(x, y), And(x, z));
    XorWords(Xor(And(x, y), And(x, z)), And(y, z));
  }

  // ---- Padding ----------------------------------------------------------------------------

  /** DataView.setUint32, big-endian. */
  method SetUint32(view: array<Byte>, at: nat, value: int)
    requires at + 4 <= view.Length
    modifies view
    ensures view[..] == old(view[..at]) + BigEndian32(ToUint32(value)) + old(view[at + 4..])
    ensures |BigEndian32(ToUint32(value))| == 4
  {
    var w := ToUint32(value);
    view[at], view[at + 1], view[at + 2], view[at + 3] := w / 0x100_0000, w / 0x1_0000 % 256, w / 256 % 256, w % 256;
  }

  /** Math.ceil(size / 64) * 64. */
  function CeilBlocks(size: nat): nat {
    (size + 63) / 64 * 64
  }

  lemma PaddedLength(length: nat)
    ensures CeilBlocks(length + 9) == length + 1 + ZeroCount(length) + 8
    ensures CeilBlocks(length + 9) % 64 == 0
  {
    var q, r := length / 64, length % 64;
    assert length == 64 * q + r;
    assert CeilBlocks(length + 9) == if r <= 55 then 64 * q + 64 else 64 * q + 128;
  }

  method PadMessage(input: seq<Byte>) returns (padded: array<Byte>)
    ensures fresh(padded) && padded[..] == Pad(input) && padded.Length % 64 == 0
  {
    hide BigEndian32, ToUint32, ZeroCount, CeilBlocks;
    var n := |input|;
    var paddedLength := CeilBlocks(n + 9);
    PaddedLength(n);
    padded := new Byte[paddedLength](_ => 0);
    forall i | 0 <= i < n {
      padded[i] := input[i];
    }
    padded[n] := 0x80;
    ghost var body := input + [0x80] + Zeros(ZeroCount(n));
    assert padded[..paddedLength - 8] == body;
    WriteLength(padded, body, n * 8);
    LengthField(n);
    assert padded[..] == body + BigEndian64(8 * n);
  }

  /** The two 32-bit halves of the bit length, at the very end. */
  method WriteLength(padded: array<Byte>, ghost body: seq<Byte>, bitLength: nat)
    requires padded.Length == |body| + 8 && padded[..|body|] == body
    modifies padded
    ensures padded[..] == body + (BigEndian32(ToUint32(bitLength / 0x1_0000_0000)) + BigEndian32(ToUint32(Unsigned(bitLength))))
  {
    hide BigEndian32, ToUint32, Unsigned;
    var paddedLength := padded.Length;
    SetUint32(padded, paddedLength - 8, bitLength / 0x1_0000_0000);
    assert padded[..paddedLength - 4] == body + BigEndian32(ToUint32(bitLength / 0x1_0000_0000));
    SetUint32(padded, paddedLength - 4, Unsigned(bitLength));
  }

  lemma LengthField(n: nat)
    ensures BigEndian32(ToUint32(n * 8 / 0x1_0000_0000)) + BigEndian32(ToUint32(Unsigned(n * 8))) == BigEndian64(8 * n)
  {
    hide BigEndian32;
    assert n * 8 == 8 * n;
  }

  // ---- The schedule -----------------------------------------------------------------------

  /** A sum converted at the end is the sum mod 2^32 of the summands' words. */
  lemma SumIsAdd(x: int, y: int)
    ensures ToUint32(x + y) == Add(ToUint32(x), ToUint32(y))
  {
    SumOfWords(x, y);
  }

  lemma WordStays(w: Word)
    ensures ToUint32(w) == w
  {
  }

  /** `(x + y) >>> 0` of two words is their sum mod 2^32. */
  function UnsignedSum(x: int, y: int): (r: Word)
    ensures 0 <= x < WORD && 0 <= y < WORD ==> r == Add(x, y)
  {
    Unsigned(x + y)
  }

  lemma ScheduleSum(w16: Word, s0: int, w7: Word, s1: int)
    ensures Unsigned(w16 + s0 + w7 + s1) == Add(Add(Add(ToUint32(s1), w7), ToUint32(s0)), w16)
  {
    hide ToUint32, Add;
    WordStays(w16);
    WordStays(w7);
    SumIsAdd(s1, w7);
    SumIsAdd(s1 + w7, s0);
    SumIsAdd(s1 + w7 + s0, w16);
    assert w16 + s0 + w7 + s1 == s1 + w7 + s0 + w16;
  }

  method FillSchedule(padded: array<Byte>, offset: nat, schedule: array<Word>)
    requires offset + 64 <= padded.Length && schedule.Length == 64
    modifies schedule
    ensures forall t | 0 <= t < 64 :: schedule[t] == W(padded[..], offset, t)
  {
    hide RotationsAndShift, WordXor, WordShr, Rotr, Add, ToUint32, WordAt;
    ghost var bytes := padded[..];
    for index := 0 to 16
      invariant forall t | 0 <= t < index :: schedule[t] == W(bytes, offset, t)
    {
      schedule[index] := WordAt(padded[..], offset + index * 4);
    }
    for index := 16 to 64
      invariant forall t | 0 <= t < index :: schedule[t] == W(bytes, offset, t)
    {
      var prior15, prior2 := schedule[index - 15], schedule[index - 2];
      var sigma0, sigma1 := RotationsAndShift(prior15, 7, 18, 3), RotationsAndShift(prior2, 17, 19, 10);
      RotationsWord(prior15, 7, 18, 3);
      RotationsWord(prior2, 17, 19, 10);
      ScheduleSum(schedule[index - 16], sigma0, schedule[index - 7], sigma1);
      schedule[index] := Unsigned(schedule[index - 16] + sigma0 + schedule[index - 7] + sigma1);
    }
  }

  // ---- The compression loop ---------------------------------------------------------------

  /** The sums of a round: signed summands, one unsigned conversion each. */
  lemma RoundSums(h: Word, s1: int, ch: int, k: Word, w: Word, s0: int, maj: int)
    ensures var t1 := Unsigned(h + s1 + ch + k + w);
            var t2 := Unsigned(s0 + maj);
            && t1 == Add(Add(Add(Add(h, ToUint32(s1)), ToUint32(ch)), k), w)
            && t2 == Add(ToUint32(s0), ToUint32(maj))
  {
    hide ToUint32, Add;
    WordStays(h);
    WordStays(k);
    WordStays(w);
    SumIsAdd(h, s1);
    SumIsAdd(h + s1, ch);
    SumIsAdd(h + s1 + ch, k);
    SumIsAdd(h + s1 + ch + k, w);
    SumIsAdd(s0, maj);
  }

  lemma RoundsStep(v: Vars, bytes: seq<Byte>, offset: nat, t: nat)
    requires offset + 64 <= |bytes| && t < 64
    ensures Rounds(v, bytes, offset, 0) == v
    ensures Rounds(v, bytes, offset, t + 1) == Round(Rounds(v, bytes, offset, t), K[t], W(bytes, offset, t))
  {
    hide Round, W;
  }

  /** One pass of the loop body, in the source's own arithmetic. */
  function JsRound(v: Vars, k: Word, w: Word): Vars {
    var temporary1 := Unsigned(v.h + Rotations(v.e, 6, 11, 25) + Choice(v.e, v.f, v.g) + k + w);
    var temporary2 := Unsigned(Rotations(v.a, 2, 13, 22) + Majority(v.a, v.b, v.c));
    Vars(UnsignedSum(temporary1, temporary2), v.a, v.b, v.c, UnsignedSum(v.d, temporary1), v.e, v.f, v.g)
  }

  lemma JsRoundIsRound(v: Vars, k: Word, w: Word)
    ensures JsRound(v, k, w) == Round(v, k, w)
  {
    hide Rotations, Choice, Majority, Ch, Maj, WordXor, Rotr, ToUint32, Add, Unsigned;
    RotationsWord(v.e, 6, 11, 25);
    RotationsWord(v.a, 2, 13, 22);
    ChoiceAndMajority(v.e, v.f, v.g);
    ChoiceAndMajority(v.a, v.b, v.c);
    RoundSums(v.h, Rotations(v.e, 6, 11, 25), Choice(v.e, v.f, v.g), k, w, Rotations(v.a, 2, 13, 22), Majority(v.a, v.b, v.c));
  }

  /** The 64 rounds over the eight working variables. */
  method RunRounds(start: Vars, schedule: array<Word>, ghost bytes: seq<Byte>, ghost offset: nat) returns (end: Vars)
    requires schedule.Length == 64 && offset + 64 <= |bytes|
    requires forall t | 0 <= t < 64 :: schedule[t] == W(bytes, offset, t)
    ensures end == Rounds(start, bytes, offset, 64)
  {
    hide Rotations, Choice, Majority, W, ToUint32, Add, Rounds, Round, UnsignedSum, Unsigned;
    var a: Word, b: Word, c: Word, d: Word := start.a, start.b, start.c, start.d;
    var e: Word, f: Word, g: Word, h: Word := start.e, start.f, start.g, start.h;
    RoundsStep(start, bytes, offset, 0);
    for index := 0 to 64
      invariant Vars(a, b, c, d, e, f, g, h) == Rounds(start, bytes, offset, index)
    {
      ghost var before := Vars(a, b, c, d, e, f, g, h);
      var sigma1 := Rotations(e, 6, 11, 25);
      var choice := Choice(e, f, g);
      var temporary1 := Unsigned(h + sigma1 + choice + K[index] + schedule[index]);
      var sigma0 := Rotations(a, 2, 13, 22);
      var majority := Majority(a, b, c);
      var temporary2 := Unsigned(sigma0 + majority);
      h := g;
      g := f;
      f := e;
      e := UnsignedSum(d, temporary1);
      d := c;
      c := b;
      b := a;
      a := UnsignedSum(temporary1, temporary2);
      assert Vars(a, b, c, d, e, f, g, h) == JsRound(before, K[index], schedule[index]);
      JsRoundIsRound(before, K[index], schedule[index]);
      RoundsStep(start, bytes, offset, index);
    }
    end := Vars(a, b, c, d, e, f, g, h);
  }

  method CompressBlock(hash: array<Word>, schedule: array<Word>, ghost bytes: seq<Byte>, ghost offset: nat)
    requires hash.Length == 8 && schedule.Length == 64 && hash != schedule && offset + 64 <= |bytes|
    requires forall t | 0 <= t < 64 :: schedule[t] == W(bytes, offset, t)
    modifies hash
    ensures var v := Vars(old(hash[0]), old(hash[1]), old(hash[2]), old(hash[3]), old(hash[4]), old(hash[5]), old(hash[6]), old(hash[7]));
            hash[..] == Words(Compress(v, bytes, offset))
  {
    hide Rounds, W, Add, Unsigned;
    var start := Vars(hash[0], hash[1], hash[2], hash[3], hash[4], hash[5], hash[6], hash[7]);
    var end := RunRounds(start, schedule, bytes, offset);
    hash[0] := UnsignedSum(hash[0], end.a);
    hash[1] := UnsignedSum(hash[1], end.b);
    hash[2] := UnsignedSum(hash[2], end.c);
    hash[3] := UnsignedSum(hash[3], end.d);
    hash[4] := UnsignedSum(hash[4], end.e);
    hash[5] := UnsignedSum(hash[5], end.f);
    hash[6] := UnsignedSum(hash[6], end.g);
    hash[7] := UnsignedSum(hash[7], end.h);
    assert hash[..] == Words(AddVars(start, end));
  }

  // ---- Hexadecimal output -----------------------------------------------------------------

  const HEX := "0123456789abcdef"

  /** Number.prototype.toString(16). */
  function ToString16(n: nat): (s: string)
    ensures |s| >= 1
  {
    if n < 16 then [HEX[n]] else ToString16(n / 16) + [HEX[n % 16]]
  }

  function PadStart(s: string, width: nat): string {
    if |s| >= width then s else seq(width - |s|, _ => '0') + s
  }

  /** Exactly `width` digits, most significant first. */
  function FixedHex(n: nat, width: nat): (s: string)
    ensures |s| == width
  {
    if width == 0 then [] else FixedHex(n / 16, width - 1) + [HEX[n % 16]]
  }

  function Power16(width: nat): nat {
    if width == 0 then 1 else 16 * Power16(width - 1)
  }

  lemma {:induction false} PaddedIsFixed(n: nat, width: nat)
    requires width > 0 && n < Power16(width)
    ensures PadStart(ToString16(n), width) == FixedHex(n, width)
  {
    if n < 16 {
      LeadingZeros(width - 1);
      assert n / 16 == 0 && n % 16 == n;
    } else {
      PaddedIsFixed(n / 16, width - 1);
    }
  }

  lemma {:induction false} LeadingZeros(width: nat)
    ensures FixedHex(0, width) == seq(width, _ => '0')
  {
    if width > 0 {
      LeadingZeros(width - 1);
    }
  }

  /** Fixed-width hexadecimal loses nothing. */
  lemma {:induction false} FixedHexInjective(m: nat, n: nat, width: nat)
    requires m < Power16(width) && n < Power16(width) && FixedHex(m, width) == FixedHex(n, width)
    ensures m == n
  {
    if width > 0 {
      var s, t := FixedHex(m, width), FixedHex(n, width);
      assert s[..width - 1] == FixedHex(m / 16, width - 1) && t[..width - 1] == FixedHex(n / 16, width - 1);
      assert s[width - 1] == HEX[m % 16] && t[width - 1] == HEX[n % 16];
      HexDigits(m % 16, n % 16);
      FixedHexInjective(m / 16, n / 16, width - 1);
    }
  }

  lemma HexDigits(i: nat, j: nat)
    requires i < 16 && j < 16 && HEX[i] == HEX[j]
    ensures i == j
  {
  }

  /** The value of a hexadecimal digit in lower case, and nothing for any other character. */
  function DigitValue(c: char): int {
    if '0' <= c <= '9' then c as int - '0' as int else if 'a' <= c <= 'f' then c as int - 'a' as int + 10 else -1
  }

  /** The number that a text of digits spells, the most significant one first. */
  function Spelled(s: string): int {
    if s == [] then 0 else Spelled(s[..|s| - 1]) * 16 + DigitValue(s[|s| - 1])
  }

  lemma DigitIs(d: nat)
    requires d < 16
    ensures DigitValue(HEX[d]) == d
  {
  }

  /** The digits spell the number, and are digits in lower case. */
  lemma {:induction false} FixedHexSpells(n: nat, width: nat)
    requires n < Power16(width)
    ensures Spelled(FixedHex(n, width)) == n && forall i | 0 <= i < width :: DigitValue(FixedHex(n, width)[i]) >= 0
  {
    if width > 0 {
      FixedHexSpells(n / 16, width - 1);
      DigitIs(n % 16);
      var s := FixedHex(n, width);
      assert s[..width - 1] == FixedHex(n / 16, width - 1) && s[width - 1] == HEX[n % 16];
    }
  }

  /** The digest text of the standard: eight words of eight digits. */
  function HexOf(words: seq<Word>): string {
    if words == [] then [] else FixedHex(words[0], 8) + HexOf(words[1..])
  }

  method HexText(hash: array<Word>) returns (text: string)
    ensures text == HexOf(hash[..])
  {
    text := [];
    for index := 0 to hash.Length
      invariant text + HexOf(hash[index..]) == HexOf(hash[..])
    {
      assert Power16(8) == 0x1_0000_0000;
      PaddedIsFixed(hash[index], 8);
      assert hash[index..][1..] == hash[index + 1..];
      text := text + PadStart(ToString16(hash[index]), 8);
    }
  }

  // ---- The whole function -----------------------------------------------------------------

  /** For every byte string, the digest of FIPS 180-4 in hexadecimal. */
  method Sha256Hex(input: seq<Byte>) returns (text: string)
    ensures text == HexOf(Sha256Spec.Sha256(input))
  {
    hide Pad, Compress, HexOf;
    var padded := PadMessage(input);
    var hash := new Word[8](i requires 0 <= i < 8 => H0[i]);
    var schedule := new Word[64](_ => 0);
    var offset, blocks := 0, 0;
    assert hash[..] == Words(HashBlocks(padded[..], 0));
    while offset < padded.Length
      invariant offset == 64 * blocks <= padded.Length
      invariant padded[..] == Pad(input)
      invariant hash[..] == Words(HashBlocks(padded[..], blocks))
    {
      FillSchedule(padded, offset, schedule);
      CompressBlock(hash, schedule, padded[..], offset);
      offset, blocks := offset + 64, blocks + 1;
    }
    text := HexText(hash);
  }
}
