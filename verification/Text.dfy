/** Decimal rendering of numbers, as template literals print them, and what trimming removes. */
module Text {
  /** The white space and line terminators that String.prototype.trim removes. */
  predicate Blank(u: int) {
    || 9 <= u <= 13 || u == 32 || u == 160 || u == 0x1680 || 0x2000 <= u <= 0x200A
    || u == 0x2028 || u == 0x2029 || u == 0x202F || u == 0x205F || u == 0x3000 || u == 0xFEFF
  }

  function Digit(d: nat): (c: char)
    requires d < 10
    ensures '0' <= c <= '9'
  {
    (48 + d) as char
  }

  predicate AllDigits(s: string) {
    forall i | 0 <= i < |s| :: '0' <= s[i] <= '9'
  }

  function Digits(n: nat): (s: string)
    ensures |s| > 0 && AllDigits(s)
  {
    if n < 10 then [Digit(n)] else Digits(n / 10) + [Digit(n % 10)]
  }

  function Decimal(n: int): string {
    if n < 0 then "-" + Digits(-n) else Digits(n)
  }

  lemma DigitsEnd(n: nat)
    ensures var s := Digits(n);
            && s[|s| - 1] == Digit(n % 10)
            && (n >= 10 ==> |s| >= 2 && s[..|s| - 1] == Digits(n / 10))
            && (n < 10 ==> |s| == 1)
  {
    if n >= 10 {
      var t := Digits(n / 10);
      assert Digits(n) == t + [Digit(n % 10)] && |t| > 0;
    }
  }

  lemma {:induction false} DigitsInjective(m: nat, n: nat)
    requires Digits(m) == Digits(n)
    ensures m == n
  {
    hide Digits;
    DigitsEnd(m);
    DigitsEnd(n);
    assert m % 10 == n % 10;
    if m >= 10 && n >= 10 {
      DigitsInjective(m / 10, n / 10);
    }
  }

  lemma DecimalInjective(m: int, n: int)
    requires Decimal(m) == Decimal(n)
    ensures m == n
  {
    hide Digits;
    assert m >= 0 ==> Decimal(m)[0] != '-';
    assert n >= 0 ==> Decimal(n)[0] != '-';
    if m < 0 && n < 0 {
      assert Digits(-m) == Decimal(m)[1..] && Digits(-n) == Decimal(n)[1..];
      DigitsInjective(-m, -n);
    } else if m >= 0 && n >= 0 {
      DigitsInjective(m, n);
    }
  }
}
