/** Unsigned bit fields of a natural number, read the way a C bit-field is
    read when fields are allocated from the least significant bit: a field of
    `width` bits at bit `offset` of `x` is `(x / 2^offset) % 2^width`. */
module Bits {
  import Printf

  /** 2 raised to `n`. */
  function Pow2(n: nat): (r: nat)
    ensures r >= 1
    ensures n >= 1 ==> r >= 2
  {
    if n == 0 then 1 else 2 * Pow2(n - 1)
  }

  lemma {:induction false} Pow2Add(a: nat, b: nat)
    ensures Pow2(a + b) == Pow2(a) * Pow2(b)
  {
    if a > 0 {
      Pow2Add(a - 1, b);
      assert Pow2(a + b) == 2 * Pow2(a - 1 + b);
    }
  }

  /** Pow2 is the general power of the digit conversions at base two. */
  lemma {:induction false} Pow2IsPower(n: nat)
    ensures Pow2(n) == Printf.Power(2, n)
  {
    if n > 0 {
      Pow2IsPower(n - 1);
    }
  }

  /** The powers of two that the 32-bit layouts use. */
  lemma Pow2Table()
    ensures Pow2(0) == 1 && Pow2(1) == 2 && Pow2(4) == 0x10 && Pow2(5) == 0x20
    ensures Pow2(6) == 0x40 && Pow2(8) == 0x100 && Pow2(10) == 0x400
    ensures Pow2(12) == 0x1000 && Pow2(14) == 0x4000 && Pow2(15) == 0x8000
    ensures Pow2(16) == 0x1_0000 && Pow2(30) == 0x4000_0000 && Pow2(31) == 0x8000_0000
    ensures Pow2(32) == 0x1_0000_0000
  {
    assert Pow2(4) == 0x10;
    assert Pow2(8) == 0x100;
    assert Pow2(10) == 0x400;
    assert Pow2(12) == 0x1000;
    assert Pow2(16) == 0x1_0000;
    assert Pow2(20) == 0x10_0000;
    assert Pow2(24) == 0x100_0000;
    assert Pow2(28) == 0x1000_0000;
    assert Pow2(32) == 0x1_0000_0000;
  }

  /** The `width`-bit field of `x` that starts at bit `offset`. */
  function Field(x: nat, offset: nat, width: nat): (r: nat)
    ensures r < Pow2(width)
  {
    (x / Pow2(offset)) % Pow2(width)
  }

  /** A positive multiple of `d` is at least `d`. */
  lemma MulAtLeast(k: int, d: int)
    requires k >= 1 && d > 0
    ensures k * d >= d
  {
    assert k * d == (k - 1) * d + d;
    assert (k - 1) * d >= 0;
  }

  /** Dividing a natural number by a positive one gives a natural number. */
  lemma DivNonNegative(x: nat, d: int)
    requires d > 0
    ensures x / d >= 0
  {
    var q := x / d;
    assert x == q * d + x % d;
    if q < 0 {
      MulAtLeast(-q, d);
      assert false;
    }
  }

  /** Quotient and remainder are the only pair that rebuilds `x`. */
  lemma DivModUnique(x: int, d: int, q: int, r: int)
    requires d > 0 && 0 <= r < d && x == q * d + r
    ensures x / d == q && x % d == r
  {
    var q', r' := x / d, x % d;
    assert x == q' * d + r';
    if q' < q {
      assert (q - q') * d == r' - r by {
        assert (q - q') * d == q * d - q' * d;
      }
      MulAtLeast(q - q', d);
      assert false;
    } else if q' > q {
      assert (q' - q) * d == r - r' by {
        assert (q' - q) * d == q' * d - q * d;
      }
      MulAtLeast(q' - q, d);
      assert false;
    }
  }

  /** Dividing by `a` and then by `b` is dividing by `a * b`; the remainder
      modulo `a * b` splits into the two remainders. */
  lemma DivModNested(y: nat, a: nat, b: nat)
    requires a > 0 && b > 0
    ensures y / a / b == y / (a * b)
    ensures y % a + ((y / a) % b) * a == y % (a * b)
  {
    var q, r := y / (a * b), y % (a * b);
    assert y == q * (a * b) + r;
    var r1, r0 := r / a, r % a;
    assert r == r1 * a + r0;
    assert r1 < b by {
      if r1 >= b {
        MulAtLeast(r1 - b + 1, a);
        assert false;
      }
    }
    assert y == (q * b + r1) * a + r0 by {
      assert q * (a * b) == (q * b) * a;
      assert (q * b + r1) * a == (q * b) * a + r1 * a;
    }
    DivModUnique(y, a, q * b + r1, r0);
    DivModUnique(y / a, b, q, r1);
  }

  /** Two adjacent fields together form the field that spans both: this is
      how overlapping bit-field views of one word agree. */
  lemma FieldConcat(x: nat, offset: nat, a: nat, b: nat)
    ensures Field(x, offset, a) + Field(x, offset + a, b) * Pow2(a) == Field(x, offset, a + b)
  {
    var o, wa, wb := Pow2(offset), Pow2(a), Pow2(b);
    DivNonNegative(x, o);
    var y := x / o;
    assert x / Pow2(offset + a) == y / wa by {
      Pow2Add(offset, a);
      DivModNested(x, o, wa);
    }
    assert Pow2(a + b) == wa * wb by {
      Pow2Add(a, b);
    }
    DivModNested(y, wa, wb);
    assert Field(x, offset, a) == y % wa;
    assert Field(x, offset + a, b) == (y / wa) % wb;
    assert Field(x, offset, a + b) == y % (wa * wb);
  }

  /** The low `k` bits of a field are the narrower field at the same offset. */
  lemma FieldPrefix(x: nat, offset: nat, width: nat, k: nat)
    requires k <= width
    ensures Field(x, offset, width) % Pow2(k) == Field(x, offset, k)
  {
    FieldConcat(x, offset, k, width - k);
    var lo, hi := Field(x, offset, k), Field(x, offset + k, width - k);
    DivModUnique(Field(x, offset, width), Pow2(k), hi, lo);
  }

  /** A field that reaches the top of a value is just the shifted value. */
  lemma FieldTop(x: nat, offset: nat, width: nat)
    requires x < Pow2(offset + width)
    ensures Field(x, offset, width) == x / Pow2(offset)
  {
    Pow2Add(offset, width);
    DivModNested(x, Pow2(offset), Pow2(width));
    DivModUnique(x, Pow2(offset + width), 0, x);
    assert x / Pow2(offset) / Pow2(width) == 0;
    DivModUnique(x / Pow2(offset), Pow2(width), 0, x / Pow2(offset));
  }
}
