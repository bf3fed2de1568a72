/** Integer bit operations as Python evaluates them on unbounded integers.
    `v >> k` is floor division by 2^k (also for negative `v`), and
    `v & (2^m - 1)` is the non-negative remainder modulo 2^m. Dafny's `/` and `%`
    with a positive divisor are exactly these (Euclidean division). */
module Bits {

  /** 2 to the power n. */
  function Pow2(n: nat): (r: nat)
    ensures r >= 1
  {
    if n == 0 then 1 else 2 * Pow2(n - 1)
  }

  /** Python's `v >> k`. */
  function Shr(v: int, k: nat): int {
    v / Pow2(k)
  }

  /** Python's `(v >> i) & 1`, read as a truth value. */
  predicate Bit(v: int, i: nat) {
    Shr(v, i) % 2 == 1
  }

  /** Python's `(v >> 4*n) & 0xF`: the n-th 4-bit digit of v. */
  function Nibble(v: int, n: nat): int {
    Shr(v, 4 * n) % 16
  }

  /** Python's `(v32 >> 16) & 0xFFFF`. */
  function High16(v: int): int {
    Shr(v, 16) % 0x1_0000
  }

  /** Python's `v32 & 0xFFFF`. */
  function Low16(v: int): int {
    v % 0x1_0000
  }

  /** Python's `v32 & 0xFFFFFFFF`. */
  function Low32(v: int): int {
    v % 0x1_0000_0000
  }

  lemma Pow2Values()
    ensures Pow2(0) == 1 && Pow2(1) == 2 && Pow2(2) == 4 && Pow2(3) == 8
    ensures Pow2(4) == 16 && Pow2(8) == 256 && Pow2(12) == 4096 && Pow2(16) == 0x1_0000
  {
  }

  lemma {:induction false} Pow2Add(a: nat, b: nat)
    ensures Pow2(a + b) == Pow2(a) * Pow2(b)
  {
    if a > 0 {
      Pow2Add(a - 1, b);
    }
  }

  lemma {:induction false} Pow2Monotone(a: nat, b: nat)
    requires a <= b
    ensures Pow2(a) <= Pow2(b)
  {
    if a < b {
      Pow2Monotone(a, b - 1);
    }
  }

  /** Division and remainder are determined by any quotient/remainder pair. */
  lemma DivModUnique(a: int, b: int, q: int, r: int)
    requires b > 0 && 0 <= r < b && a == q * b + r
    ensures a / b == q && a % b == r
  {
    var q0, r0 := a / b, a % b;
    assert a == q0 * b + r0;
    if q > q0 {
      assert (q - q0) * b >= b by { MulAtLeast(q - q0, b); }
      assert false;
    } else if q < q0 {
      assert (q0 - q) * b >= b by { MulAtLeast(q0 - q, b); }
      assert false;
    }
  }

  lemma MulAtLeast(k: int, b: int)
    requires k >= 1 && b > 0
    ensures k * b >= b
  {
  }

  /** Floor division by b and then by c is floor division by b * c, and the
      remainder by b * c is the remainder by b plus b times the next digit in
      base c. */
  lemma DivDiv(a: int, b: int, c: int)
    requires b > 0 && c > 0
    ensures b * c > 0 && a / b / c == a / (b * c)
    ensures a % (b * c) == a % b + b * ((a / b) % c)
  {
    var q, r := a / b, a % b;
    var q2, r2 := q / c, q % c;
    assert a == b * q + r;
    assert q == c * q2 + r2;
    var rest := b * r2 + r;
    assert a == q2 * (b * c) + rest by {
      calc {
        a;
        b * q + r;
        b * (c * q2 + r2) + r;
        { MulDistrib(b, c * q2, r2); }
        b * (c * q2) + b * r2 + r;
        { MulAssoc(b, c, q2); }
        q2 * (b * c) + rest;
      }
    }
    assert 0 <= rest < b * c by {
      MulBelow(b, r2, c);
    }
    DivModUnique(a, b * c, q2, rest);
  }

  /** The low k + 1 bits of v are its low k bits plus bit k. */
  lemma LowBitsStep(v: int, k: nat)
    ensures v % Pow2(k + 1) == v % Pow2(k) + if Bit(v, k) then Pow2(k) else 0
  {
    var p := Pow2(k);
    DivDiv(v, p, 2);
    var bit := v / p % 2;
    assert bit == 0 || bit == 1;
    assert p * bit == if bit == 1 then p else 0;
  }

  lemma MulDistrib(x: int, y: int, z: int)
    ensures x * (y + z) == x * y + x * z
  {
  }

  lemma MulAssoc(x: int, y: int, z: int)
    ensures x * (y * z) == z * (x * y)
  {
  }

  /** If r2 < c then b * r2 + r < b * c for every r < b. */
  lemma MulBelow(b: int, r2: int, c: int)
    requires b > 0 && 0 <= r2 < c
    ensures 0 <= b * r2 && b * r2 + b <= b * c
  {
    MulDistrib(b, r2, 1);
    assert b * (r2 + 1) <= b * c by { MulLeMono(b, r2 + 1, c); }
  }

  lemma MulLeMono(b: int, x: int, y: int)
    requires b > 0 && 0 <= x <= y
    ensures 0 <= b * x <= b * y
  {
  }

  /** The digits of a 16-bit value, weighted by their place, give back the value. */
  lemma NibblesReassemble(v: int)
    requires 0 <= v < 0x1_0000
    ensures v == Nibble(v, 0) + 16 * Nibble(v, 1) + 256 * Nibble(v, 2) + 4096 * Nibble(v, 3)
  {
    Pow2Values();
    DivDiv(v, 16, 16);
    DivDiv(v, 256, 16);
    assert v / 16 == 16 * (v / 256) + (v / 16) % 16;
    assert v / 256 == 16 * (v / 4096) + (v / 256) % 16;
    assert v / 4096 < 16;
  }

  /** The two 16-bit halves are in range and recombine to v modulo 2^32, also
      for a negative v (Python's arithmetic shift). */
  lemma HalvesRecombine(v: int)
    ensures 0 <= High16(v) < 0x1_0000 && 0 <= Low16(v) < 0x1_0000
    ensures High16(v) * 0x1_0000 + Low16(v) == Low32(v)
  {
    Pow2Values();
    var q := v / 0x1_0000;
    var hi, k := q % 0x1_0000, q / 0x1_0000;
    assert v == 0x1_0000 * q + Low16(v);
    assert q == 0x1_0000 * k + hi;
    assert v == k * 0x1_0000_0000 + (hi * 0x1_0000 + Low16(v));
    DivModUnique(v, 0x1_0000_0000, k, hi * 0x1_0000 + Low16(v));
  }

  /** Bit g of the n-th digit is bit 4n+g of the whole value: the group id of a
      template cell and the digit's position together name one bit of the clock. */
  lemma NibbleBit(v: int, n: nat, g: nat)
    requires g < 4
    ensures Bit(Nibble(v, n), g) <==> Bit(v, 4 * n + g)
  {
    Pow2Add(4 * n, g);
    DivDiv(v, Pow2(4 * n), Pow2(g));
    LowDigitBit(Shr(v, 4 * n), g);
  }

  /** Taking the low 4 bits first does not change bits 0..3. */
  lemma LowDigitBit(x: int, g: nat)
    requires g < 4
    ensures (x % 16) / Pow2(g) % 2 == x / Pow2(g) % 2
  {
    assert Pow2(1) == 2 && Pow2(2) == 4 && Pow2(3) == 8;
    if g == 0 {
      LowDigitBitBelow(x, 1, 16);
    } else if g == 1 {
      LowDigitBitBelow(x, 2, 8);
    } else if g == 2 {
      LowDigitBitBelow(x, 4, 4);
    } else if g == 3 {
      LowDigitBitBelow(x, 8, 2);
    }
  }

  /** Bit log2(d) of x and of x % 16 agree, for d = 1, 2, 4 or 8 and e = 16 / d. */
  lemma LowDigitBitBelow(x: int, d: int, e: int)
    requires (d == 1 && e == 16) || (d == 2 && e == 8) || (d == 4 && e == 4) || (d == 8 && e == 2)
    ensures (x % 16) / d % 2 == x / d % 2
  {
    var q, m := x / 16, x % 16;
    var a, b := x / d, x % d;
    if d == 1 {
      DivModUnique(m, 1, a - 16 * q, b);
      DivModUnique(a - 16 * q, 2, a / 2 - 8 * q, a % 2);
    } else if d == 2 {
      DivModUnique(m, 2, a - 8 * q, b);
      DivModUnique(a - 8 * q, 2, a / 2 - 4 * q, a % 2);
    } else if d == 4 {
      DivModUnique(m, 4, a - 4 * q, b);
      DivModUnique(a - 4 * q, 2, a / 2 - 2 * q, a % 2);
    } else {
      DivModUnique(m, 8, a - 2 * q, b);
      DivModUnique(a - 2 * q, 2, a / 2 - q, a % 2);
    }
  }

  /** A value below 16 has no bit set at position 4 or above. */
  lemma NoHighBits(v: int, g: nat)
    requires 0 <= v < 16 && g >= 4
    ensures !Bit(v, g)
  {
    assert Pow2(4) == 16;
    Pow2Monotone(4, g);
    DivModUnique(v, Pow2(g), 0, v);
  }

  /** A 16-bit value has only the digits 0..3: every digit further up is 0. */
  lemma HighDigitZero(v: int, n: nat)
    requires 0 <= v < 0x1_0000 && n >= 4
    ensures Nibble(v, n) == 0
  {
    Pow2Values();
    Pow2Monotone(16, 4 * n);
  }
}
