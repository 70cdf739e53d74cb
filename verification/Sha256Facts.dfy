/** Facts about the standard's own definitions: padding. */
module Sha256Facts {
  import opened JsNumber
  import opened Sha256Spec

  /** Padded messages fill whole blocks, with no block more than the message needs. */
  lemma PadAligned(m: seq<Byte>, size: nat)
    ensures |Pad(m)| % 64 == 0 && |Pad(m)| >= |m| + 9
    ensures size % 64 == 0 && size >= |m| + 9 ==> size >= |Pad(m)|
  {
    hide BigEndian32;
    var z := ZeroCount(|m|);
    assert |BigEndian32(0)| == 4 by { BigEndianSize(0); }
    BigEndianSize(8 * |m| / 0x1_0000_0000 % 0x1_0000_0000);
    BigEndianSize(8 * |m| % 0x1_0000_0000);
    assert |Pad(m)| == |m| + 1 + z + 8;
  }

  lemma BigEndianSize(w: Word)
    ensures |BigEndian32(w)| == 4
  {
  }

  lemma BigEndian32Injective(v: Word, w: Word)
    requires BigEndian32(v) == BigEndian32(w)
    ensures v == w
  {
    var s, t := BigEndian32(v), BigEndian32(w);
    assert s[0] == t[0] && s[1] == t[1] && s[2] == t[2] && s[3] == t[3];
    Recompose(v);
    Recompose(w);
  }

  lemma Recompose(w: Word)
    ensures WordAt(BigEndian32(w), 0) == w
  {
    var q := w / 256;
    assert w == 256 * q + w % 256;
    assert w / 0x1_0000 == q / 256 && w / 0x100_0000 == q / 256 / 256;
  }

  lemma BigEndian64Injective(m: nat, n: nat)
    requires m < 0x1_0000_0000_0000_0000 && n < 0x1_0000_0000_0000_0000 && BigEndian64(m) == BigEndian64(n)
    ensures m == n
  {
    hide BigEndian32;
    var mh, nh: Word := m / 0x1_0000_0000, n / 0x1_0000_0000;
    var ml, nl: Word := m % 0x1_0000_0000, n % 0x1_0000_0000;
    BigEndianSize(mh);
    BigEndianSize(nh);
    assert BigEndian64(m)[..4] == BigEndian32(mh) && BigEndian64(n)[..4] == BigEndian32(nh);
    assert BigEndian64(m)[4..] == BigEndian32(ml) && BigEndian64(n)[4..] == BigEndian32(nl);
    BigEndian32Injective(mh, nh);
    BigEndian32Injective(ml, nl);
  }

  /** Two messages within the standard's length limit never share their padded form. */
  lemma PadInjective(m: seq<Byte>, n: seq<Byte>)
    requires 8 * |m| < 0x1_0000_0000_0000_0000 && 8 * |n| < 0x1_0000_0000_0000_0000 && Pad(m) == Pad(n)
    ensures m == n
  {
    hide BigEndian64, ZeroCount;
    BigEndian64Size(8 * |m|);
    BigEndian64Size(8 * |n|);
    var p := Pad(m);
    assert p[|p| - 8..] == BigEndian64(8 * |m|);
    assert p[|p| - 8..] == BigEndian64(8 * |n|);
    BigEndian64Injective(8 * |m|, 8 * |n|);
    assert p[..|m|] == m && p[..|n|] == n;
  }

  lemma BigEndian64Size(n: nat)
    ensures |BigEndian64(n)| == 8
  {
  }
}
