/**
 * The number operators of JavaScript on integers: bitwise operators work on 32-bit words and
 * give signed results, `>>>` gives unsigned ones, `+` does not wrap.
 */
module JsNumber {
  import opened Bits

  const WORD := 0x1_0000_0000

  type Word = w: int | 0 <= w < 0x1_0000_0000 witness 0

  function ToUint32(x: int): Word {
    x % 0x1_0000_0000
  }

  function ToInt32(x: int): int {
    if ToUint32(x) < 0x8000_0000 then ToUint32(x) else ToUint32(x) - 0x1_0000_0000
  }

  // ---- Bitwise operations on 32-bit words --------------------------------------------------

  function WordXor(a: Word, b: Word): Word {
    WordsBelow(a, b);
    BitXor(a, b)
  }

  function WordAnd(a: Word, b: Word): Word {
    WordsBelow(a, b);
    BitAnd(a, b)
  }

  function WordOr(a: Word, b: Word): Word {
    WordsBelow(a, b);
    BitOr(a, b)
  }

  function WordNot(a: Word): Word { 0xffff_ffff - a }

  function WordShl(a: Word, n: nat): Word
    requires n < 32
  { BitShl(a, n) % 0x1_0000_0000 }

  function WordShr(a: Word, n: nat): Word
    requires n < 32
  {
    BitShr(a, n)
  }

  lemma WordsBelow(a: Word, b: Word)
    ensures BitXor(a, b) < 0x1_0000_0000 && BitAnd(a, b) < 0x1_0000_0000 && BitOr(a, b) < 0x1_0000_0000
  {
    Word32();
    Below(a, b, 32);
  }

  // ---- The operators of the language -------------------------------------------------------

  function Xor(a: int, b: int): int { ToInt32(WordXor(ToUint32(a), ToUint32(b))) }

  function And(a: int, b: int): int { ToInt32(WordAnd(ToUint32(a), ToUint32(b))) }

  function Or(a: int, b: int): int { ToInt32(WordOr(ToUint32(a), ToUint32(b))) }

  function Not(a: int): int { ToInt32(WordNot(ToUint32(a))) }

  function Shl(a: int, n: nat): int
    requires n < 32
  { ToInt32(WordShl(ToUint32(a), n)) }

  /** The unsigned shift `>>>`. */
  function Ushr(a: int, n: nat): Word
    requires n < 32
  { WordShr(ToUint32(a), n) }

  /** `x >>> 0`. */
  function Unsigned(x: int): Word { ToUint32(x) }

  /** Math.imul. */
  function Imul(a: int, b: int): int { ToInt32(ToUint32(a) * ToUint32(b)) }

  /** A signed result stands for the same word as the bits it was made of. */
  lemma SignedSameWord(x: int)
    ensures ToUint32(ToInt32(x)) == ToUint32(x)
  {
  }

  /** Signed intermediates may be summed before the final conversion. */
  lemma SumOfWords(x: int, y: int)
    ensures ToUint32(x + y) == ToUint32(ToUint32(x) + ToUint32(y))
  {
  }
}
