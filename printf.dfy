/** The three printf conversions the decoder uses on its fields:
    `%d` (decimal), `%02hx` (the value as an `unsigned short`, lower-case hex,
    zero-padded to at least two digits) and `%02hhx` (the value as an
    `unsigned char`, likewise).  Each is specified by reading the printed
    digits back: `Value` is the number a digit string denotes. */
module Printf {

  function Power(base: nat, exp: nat): (r: nat)
    ensures base >= 1 ==> r >= 1
  {
    if exp == 0 then 1 else base * Power(base, exp - 1)
  }

  /** The digit that a character denotes ('0'-'9', 'a'-'f'). */
  function DigitValue(c: char): (d: nat)
    ensures d < 16
  {
    if '0' <= c <= '9' then c as int - '0' as int
    else if 'a' <= c <= 'f' then c as int - 'a' as int + 10
    else 0
  }

  /** `c` is a digit of `base`: '0'-'9' or 'a'-'f', denoting less than `base`. */
  predicate IsDigit(c: char, base: nat)
  {
    ('0' <= c <= '9' || 'a' <= c <= 'f') && DigitValue(c) < base
  }

  /** The character printf writes for digit `d`, lower case above nine. */
  function DigitChar(d: nat): (c: char)
    requires d < 16
    ensures DigitValue(c) == d
    ensures forall base: nat :: d < base ==> IsDigit(c, base)
    ensures d == 0 <==> c == '0'
  {
    if d < 10 then ('0' as int + d) as char else ('a' as int + d - 10) as char
  }

  /** The number a digit string denotes, most significant digit first. */
  function Value(s: string, base: nat): nat
  {
    if s == [] then 0 else Value(s[..|s| - 1], base) * base + DigitValue(s[|s| - 1])
  }

  /** The digits of `n` with no padding; zero is written "0", and no other
      number starts with a zero digit. */
  function Digits(n: nat, base: nat): (s: string)
    requires 2 <= base <= 16
    ensures |s| >= 1
    ensures forall i :: 0 <= i < |s| ==> IsDigit(s[i], base)
    ensures s[0] == '0' ==> n == 0
    ensures |s| > 1 ==> s[0] != '0'
    decreases n
  {
    if n < base then [DigitChar(n)]
    else
      DivSmaller(n, base);
      DivMod(n, base);
      var init, last := Digits(n / base, base), DigitChar(n % base);
      assert init[0] != '0';
      assert forall i :: 0 <= i < |init| ==> (init + [last])[i] == init[i];
      init + [last]
  }

  function Zeros(k: nat): (s: string)
    ensures |s| == k
    ensures forall i :: 0 <= i < |s| ==> s[i] == '0'
  {
    if k == 0 then [] else Zeros(k - 1) + ['0']
  }

  lemma DivMod(n: nat, d: nat)
    requires d > 0
    ensures n == (n / d) * d + n % d
  {
  }

  /** A quotient is below `p` when the dividend is below `d * p`. */
  lemma DivBelow(n: nat, d: nat, p: nat)
    requires d > 0 && n < d * p
    ensures n / d < p
  {
    DivMod(n, d);
    if n / d >= p {
      assert false;
    }
  }

  /** Division by two or more makes a positive number smaller. */
  lemma DivSmaller(n: nat, d: nat)
    requires n >= 1 && d >= 2
    ensures n / d < n
  {
    assert d * n == n + (d - 1) * n;
    DivBelow(n, d, n);
  }

  /** Appending a digit shifts the number up one place. */
  lemma ValueAppend(s: string, c: char, base: nat)
    ensures Value(s + [c], base) == Value(s, base) * base + DigitValue(c)
  {
    assert (s + [c])[..|s|] == s;
  }

  lemma {:induction false} DigitsValue(n: nat, base: nat)
    requires 2 <= base <= 16
    ensures Value(Digits(n, base), base) == n
    decreases n
  {
    if n >= base {
      DivMod(n, base);
      DivSmaller(n, base);
      var q: nat, r := n / base, n % base;
      var init, last := Digits(q, base), DigitChar(r);
      assert Digits(n, base) == init + [last];
      DigitsValue(q, base);
      ValueAppend(init, last, base);
      assert Value(init + [last], base) == q * base + r;
    }
  }

  lemma {:induction false} ZerosValue(k: nat, base: nat)
    ensures Value(Zeros(k), base) == 0
  {
    if k > 0 {
      var z := Zeros(k);
      ZerosValue(k - 1, base);
      assert z[..k - 1] == Zeros(k - 1);
      var v := Value(z[..k - 1], base);
      assert v == 0;
      assert v * base == 0;
      assert DigitValue(z[k - 1]) == 0;
    }
  }

  /** Zero padding on the left does not change the number printed. */
  lemma {:induction false} LeadingZerosValue(k: nat, s: string, base: nat)
    ensures Value(Zeros(k) + s, base) == Value(s, base)
    decreases |s|
  {
    if s == [] {
      assert Zeros(k) + s == Zeros(k);
      ZerosValue(k, base);
    } else {
      var t := Zeros(k) + s;
      LeadingZerosValue(k, s[..|s| - 1], base);
      assert t[..|t| - 1] == Zeros(k) + s[..|s| - 1];
    }
  }

  /** A number below `base^width` needs at most `width` digits. */
  lemma {:induction false} DigitsFit(n: nat, base: nat, width: nat)
    requires 2 <= base <= 16
    ensures width >= 1 && n < Power(base, width) ==> |Digits(n, base)| <= width
    decreases width
  {
    if width >= 1 && n < Power(base, width) && n >= base {
      DivBelow(n, base, Power(base, width - 1));
      if width == 1 {
        DivMod(n, base);
        assert false;
      }
      DigitsFit(n / base, base, width - 1);
    }
  }

  /** `n` printed in `base`, zero-padded on the left to at least `width`
      characters (the `0` flag with a field width). */
  function Format(n: nat, base: nat, width: nat): (s: string)
    requires 2 <= base <= 16
    ensures Value(s, base) == n
    ensures forall i :: 0 <= i < |s| ==> IsDigit(s[i], base)
    ensures |s| >= width && |s| >= 1
    ensures width >= 1 && n < Power(base, width) ==> |s| == width
    ensures |s| > width && |s| > 1 ==> s[0] != '0'
  {
    var digits := Digits(n, base);
    DigitsValue(n, base);
    LeadingZerosValue(if |digits| < width then width - |digits| else 0, digits, base);
    DigitsFit(n, base, width);
    if |digits| < width then Zeros(width - |digits|) + digits else digits
  }

  /** The `h` length modifier: the argument converted to `unsigned short`. */
  function AsUnsignedShort(n: nat): (r: nat)
    ensures r < 0x1_0000
    ensures n < 0x1_0000 ==> r == n
  {
    n % 0x1_0000
  }

  /** The `hh` length modifier: the argument converted to `unsigned char`. */
  function AsUnsignedChar(n: nat): (r: nat)
    ensures r < 0x100
    ensures n < 0x100 ==> r == n
  {
    n % 0x100
  }

  /** `%d` of a non-negative value. */
  function Decimal(n: nat): (s: string)
    ensures Value(s, 10) == n
    ensures forall i :: 0 <= i < |s| ==> IsDigit(s[i], 10)
    ensures |s| >= 1
    ensures |s| > 1 ==> s[0] != '0'
    ensures n < 10 ==> |s| == 1
  {
    assert Power(10, 1) == 10;
    DigitsFit(n, 10, 1);
    Format(n, 10, 0)
  }

  /** `%02hx`. */
  function HexShort(n: nat): (s: string)
    ensures Value(s, 16) == n % 0x1_0000
    ensures forall i :: 0 <= i < |s| ==> IsDigit(s[i], 16)
    ensures |s| >= 2
    ensures |s| > 2 ==> s[0] != '0'
    ensures n < 0x100 ==> |s| == 2
  {
    assert Power(16, 2) == 0x100;
    Format(AsUnsignedShort(n), 16, 2)
  }

  /** `%02hhx`: always exactly two digits, showing only the low byte. */
  function HexByte(n: nat): (s: string)
    ensures Value(s, 16) == n % 0x100
    ensures forall i :: 0 <= i < |s| ==> IsDigit(s[i], 16)
    ensures |s| == 2
  {
    assert Power(16, 2) == 0x100;
    Format(AsUnsignedChar(n), 16, 2)
  }
}
