/** 32-bit register arithmetic of the TC358764 driver.
 *
 *  Register values are naturals below 2^32.  C's left shift on a 32-bit
 *  operand is `Shl` (bits carried past bit 31 are lost), and C's bitwise
 *  `&` and `|` are the recursive `And` and `Or`.  The lemmas here give
 *  those operators their arithmetic meaning, which is what makes the
 *  field macros and the concrete register values provable.
 */
module Bits {

  /** 2^32: a 32-bit register value is taken modulo this. */
  const WORD: nat := 0x1_0000_0000

  type u8 = x: nat | x < 0x100
  type u16 = x: nat | x < 0x1_0000
  type u32 = x: nat | x < 0x1_0000_0000

  function Pow2(n: nat): (r: nat)
    ensures r >= 1
  {
    if n == 0 then 1 else 2 * Pow2(n - 1)
  }

  /** C `x << n` on a 32-bit operand. */
  function Shl(x: nat, n: nat): u32
  {
    (x * Pow2(n)) % WORD
  }

  /** C `x >> n` on an unsigned operand. */
  function Shr(x: nat, n: nat): nat
  {
    var d := Pow2(n);
    QuotientIsNat(x, d);
    x / d
  }

  lemma QuotientIsNat(x: nat, d: nat)
    requires d > 0
    ensures x / d >= 0
  {
  }

  /** C `x & y`, bit by bit from the least significant end. */
  function And(x: nat, y: nat): (r: nat)
    ensures r <= x && r <= y
    decreases x
  {
    if x == 0 || y == 0 then 0
    else (if x % 2 == 1 && y % 2 == 1 then 1 else 0) + 2 * And(x / 2, y / 2)
  }

  /** C `x | y`, bit by bit from the least significant end. */
  function Or(x: nat, y: nat): nat
    decreases x + y
  {
    if x == 0 then y
    else if y == 0 then x
    else (if x % 2 == 1 || y % 2 == 1 then 1 else 0) + 2 * Or(x / 2, y / 2)
  }

  /** Bits `start..end` of `x` (both inclusive), moved down to bit 0. */
  function Field(x: nat, start: nat, end: nat): nat
    requires end <= start
  {
    (x / Pow2(end)) % Pow2(start - end + 1)
  }

  /** The kernel's `BIT(n)`. */
  function BitValue(n: nat): (r: u32)
    requires n < 32
    ensures r == Pow2(n)
  {
    Pow2StrictMono(n, 32);
    Pow2Table();
    Pow2(n)
  }

  /** `FLD_MASK(start, end)`: ones in bits `start..end`.  The full-width
   *  field 31..0 is excluded because `1 << 32` on a C `int` is undefined. */
  function FldMask(start: nat, end: nat): (r: u32)
    requires end <= start < 32 && start - end + 1 < 32
    ensures r == (Pow2(start - end + 1) - 1) * Pow2(end)
  {
    var w := start - end + 1;
    MaskShifts(w, end);
    Shl(Shl(1, w) - 1, end)
  }

  /** `FLD_VAL(val, start, end)`: `val` shifted to bit `end` and cut to the
   *  field.  An oversized `val` is truncated to the field width, never
   *  rejected, and no bit outside `start..end` is set. */
  function FldVal(v: nat, start: nat, end: nat): (r: u32)
    requires end <= start < 32 && start - end + 1 < 32
    ensures r == (v % Pow2(start - end + 1)) * Pow2(end)
    ensures r < Pow2(start + 1) && r % Pow2(end) == 0
    ensures Field(r, start, end) == v % Pow2(start - end + 1)
  {
    var r := And(Shl(v, end), FldMask(start, end));
    FieldInPlace(v, start - end + 1, end);
    r
  }

  lemma MaskShifts(w: nat, end: nat)
    requires 0 < w < 32 && w + end <= 32
    ensures Shl(1, w) == Pow2(w)
    ensures Shl(Pow2(w) - 1, end) == (Pow2(w) - 1) * Pow2(end)
  {
    Pow2Word();
    Pow2StrictMono(w, 32);
    assert 1 * Pow2(w) == Pow2(w);
    ShlExact(1, w);
    ScaledBelow(Pow2(w) - 1, w, end);
    Pow2Mono(w + end, 32);
    ShlExact(Pow2(w) - 1, end);
  }

  /** The value of `(v << end) & FLD_MASK(end + w - 1, end)`. */
  lemma FieldInPlace(v: nat, w: nat, end: nat)
    requires 0 < w < 32 && w + end <= 32
    ensures var r := And(Shl(v, end), (Pow2(w) - 1) * Pow2(end));
      r == (v % Pow2(w)) * Pow2(end) &&
      r < Pow2(end + w) && r % Pow2(end) == 0 &&
      Field(r, end + w - 1, end) == v % Pow2(w)
  {
    var m := v % Pow2(w);
    AndMask(Shl(v, end), w, end);
    ShlIsScaledMod(v, end);
    Pow2Add(w, 32 - end - w);
    ModOfMod(v, Pow2(w), Pow2(32 - end - w));
    ScaledBelow(m, w, end);
    DivModUnique(m * Pow2(end), Pow2(end), m, 0);
    FieldTimes(m, w, end);
  }

  /** `v << end` keeps the low 32 - end bits of v, moved up. */
  lemma ShlIsScaledMod(v: nat, end: nat)
    requires end <= 32
    ensures Shl(v, end) / Pow2(end) == v % Pow2(32 - end)
  {
    Pow2Word();
    Pow2Add(end, 32 - end);
    ShiftedMod(v, end, 32 - end);
    DivModUnique(Pow2(end) * (v % Pow2(32 - end)), Pow2(end), v % Pow2(32 - end), 0);
  }

  lemma ShlExact(x: nat, n: nat)
    requires x * Pow2(n) < WORD
    ensures Shl(x, n) == x * Pow2(n)
  {
    DivModUnique(x * Pow2(n), WORD, 0, x * Pow2(n));
  }

  lemma ScaledBelow(m: nat, w: nat, e: nat)
    requires m < Pow2(w)
    ensures m * Pow2(e) < Pow2(w + e)
  {
    Pow2Add(w, e);
    assert Pow2(w) * Pow2(e) - m * Pow2(e) == (Pow2(w) - m) * Pow2(e);
    MulAtLeast(Pow2(e), Pow2(w) - m);
  }

  // ---------------------------------------------------------------------
  // Powers of two

  lemma {:induction false} Pow2Add(a: nat, b: nat)
    ensures Pow2(a + b) == Pow2(a) * Pow2(b)
    decreases a
  {
    if a > 0 {
      Pow2Add(a - 1, b);
      assert Pow2(a + b) == 2 * Pow2(a - 1 + b);
    }
  }

  lemma Pow2Mono(a: nat, b: nat)
    requires a <= b
    ensures Pow2(a) <= Pow2(b)
  {
    Pow2Add(a, b - a);
  }

  lemma Pow2StrictMono(a: nat, b: nat)
    requires a < b
    ensures Pow2(a) < Pow2(b)
  {
    Pow2Add(a, b - a);
    assert Pow2(b - a) == 2 * Pow2(b - a - 1);
  }

  lemma Pow2Word()
    ensures Pow2(32) == WORD
  {
    Pow2Table();
  }

  /** The powers of two the register map uses. */
  lemma Pow2Table()
    ensures Pow2(1) == 2 && Pow2(2) == 4 && Pow2(3) == 8 && Pow2(4) == 16
    ensures Pow2(5) == 32 && Pow2(8) == 0x100 && Pow2(12) == 0x1000
    ensures Pow2(13) == 0x2000 && Pow2(14) == 0x4000 && Pow2(15) == 0x8000
    ensures Pow2(16) == 0x1_0000 && Pow2(17) == 0x2_0000 && Pow2(18) == 0x4_0000
    ensures Pow2(19) == 0x8_0000 && Pow2(20) == 0x10_0000 && Pow2(21) == 0x20_0000
    ensures Pow2(22) == 0x40_0000 && Pow2(24) == 0x100_0000 && Pow2(29) == 0x2000_0000
    ensures Pow2(32) == WORD
  {
    assert Pow2(1) == 2 * Pow2(0);
    assert Pow2(2) == 2 * Pow2(1);
    assert Pow2(3) == 2 * Pow2(2);
    assert Pow2(4) == 2 * Pow2(3);
    assert Pow2(5) == 2 * Pow2(4);
    Pow2Add(4, 4);
    Pow2Add(8, 4);
    Pow2Add(12, 1);
    Pow2Add(12, 2);
    Pow2Add(12, 3);
    Pow2Add(8, 8);
    Pow2Add(16, 1);
    Pow2Add(16, 2);
    Pow2Add(16, 3);
    Pow2Add(16, 4);
    Pow2Add(16, 5);
    Pow2Add(20, 2);
    Pow2Add(16, 8);
    Pow2Add(24, 5);
    Pow2Add(16, 16);
  }

  // ---------------------------------------------------------------------
  // Division and remainder

  lemma MulAtLeast(d: int, k: int)
    requires d > 0 && k >= 1
    ensures d * k >= d
  {
    var j := k - 1;
    assert d * k == d * j + d;
    assert d * j >= 0;
  }

  /** Quotient and remainder are determined by x == d * q + r, 0 <= r < d. */
  lemma DivModUnique(x: int, d: int, q: int, r: int)
    requires d > 0 && 0 <= r < d && x == d * q + r
    ensures x / d == q && x % d == r
  {
    var q', r' := x / d, x % d;
    assert x == d * q' + r';
    if q' < q {
      MulAtLeast(d, q - q');
    } else if q' > q {
      MulAtLeast(d, q' - q);
    }
  }

  lemma DivDiv(x: nat, m: nat, n: nat)
    requires m > 0 && n > 0
    ensures x / m / n == x / (m * n)
  {
    var q, r := x / m, x % m;
    var q2, r2 := q / n, q % n;
    assert x == m * q + r;
    assert q == n * q2 + r2;
    Distribute(m, n * q2, r2);
    Associate(m, n, q2);
    assert x == (m * n) * q2 + (m * r2 + r);
    Distribute(m, r2, n - 1 - r2);
    assert m * r2 <= m * (n - 1);
    Distribute(m, n - 1, 1);
    assert m * r2 + r < m * n;
    DivModUnique(x, m * n, q2, m * r2 + r);
  }

  lemma Distribute(a: int, b: int, c: int)
    ensures a * (b + c) == a * b + a * c
  {
  }

  lemma Associate(a: int, b: int, c: int)
    ensures a * (b * c) == (a * b) * c
  {
  }

  /** (v * b) mod (b * c) is b * (v mod c). */
  lemma ShiftedMod(v: nat, e: nat, k: nat)
    ensures (v * Pow2(e)) % (Pow2(e) * Pow2(k)) == Pow2(e) * (v % Pow2(k))
  {
    var b, c := Pow2(e), Pow2(k);
    var q, r := v / c, v % c;
    ScaleQuotient(v, b, c, q, r);
    DivModUnique(v * b, b * c, q, b * r);
  }

  lemma ScaleQuotient(v: nat, b: nat, c: nat, q: nat, r: nat)
    requires b > 0 && r < c && v == c * q + r
    ensures v * b == (b * c) * q + b * r && b * r < b * c
  {
    Distribute(b, c * q, r);
    Associate(b, c, q);
    Distribute(b, r, c - r);
    MulAtLeast(b, c - r);
  }

  /** x mod (a * b) mod a is x mod a. */
  lemma ModOfMod(x: nat, a: nat, b: nat)
    requires a > 0 && b > 0
    ensures (x % (a * b)) % a == x % a
  {
    var q, r := x / (a * b), x % (a * b);
    assert x == a * (b * q + r / a) + r % a;
    DivModUnique(x, a, b * q + r / a, r % a);
  }

  /** Moving a value below 2^w up by `end` bits and reading the field back. */
  lemma FieldTimes(m: nat, w: nat, end: nat)
    requires w > 0 && m < Pow2(w)
    ensures Field(m * Pow2(end), end + w - 1, end) == m
  {
    DivModUnique(m * Pow2(end), Pow2(end), m, 0);
    DivModUnique(m, Pow2(w), 0, m);
  }

  /** `FLD_VAL` at a given value, from its contract. */
  lemma FldValIs(v: nat, start: nat, end: nat, r: nat)
    requires end <= start < 32 && start - end + 1 < 32
    requires r == (v % Pow2(start - end + 1)) * Pow2(end)
    ensures FldVal(v, start, end) == r
  {
  }

  /** Reading the field that holds `c` in x = lo + 2^e * (c + 2^w * hi). */
  lemma FieldAt(x: nat, e: nat, w: nat, lo: nat, c: nat, hi: nat)
    requires w > 0 && lo < Pow2(e) && c < Pow2(w)
    requires x == lo + Pow2(e) * (c + Pow2(w) * hi)
    ensures Field(x, e + w - 1, e) == c
  {
    DivModUnique(x, Pow2(e), c + Pow2(w) * hi, lo);
    DivModUnique(c + Pow2(w) * hi, Pow2(w), hi, c);
  }

  // ---------------------------------------------------------------------
  // Meaning of & and |

  /** Splitting off the lowest bit of x mod 2p. */
  lemma ModDouble(x: nat, p: nat)
    requires p > 0
    ensures x % (2 * p) == x % 2 + 2 * ((x / 2) % p)
  {
    var h, q := x / 2, (x / 2) / p;
    assert h == p * q + h % p;
    assert x == 2 * h + x % 2;
    assert x == (2 * p) * q + (x % 2 + 2 * (h % p));
    DivModUnique(x, 2 * p, q, x % 2 + 2 * (h % p));
  }

  /** x & (2^w - 1) keeps the low w bits. */
  lemma {:induction false} AndLowMask(x: nat, w: nat)
    ensures And(x, Pow2(w) - 1) == x % Pow2(w)
    decreases w
  {
    if w == 0 {
      assert Pow2(w) - 1 == 0;
    } else {
      var p, q := Pow2(w - 1), Pow2(w);
      assert q == 2 * p;
      AndLowMask(x / 2, w - 1);
      AndLowMaskStep(x, p, q);
    }
  }

  /** One bit more of the low mask: from x/2 & (p - 1) to x & (q - 1),
   *  where q == 2p. */
  lemma AndLowMaskStep(x: nat, p: nat, q: nat)
    requires p > 0 && q == 2 * p && And(x / 2, p - 1) == (x / 2) % p
    ensures And(x, q - 1) == x % q
  {
    AndOdd(x, p - 1);
    ModDouble(x, p);
  }

  /** x & FLD_MASK: the field of x left in place. */
  lemma {:induction false} AndMask(x: nat, w: nat, e: nat)
    ensures And(x, (Pow2(w) - 1) * Pow2(e)) == ((x / Pow2(e)) % Pow2(w)) * Pow2(e)
    decreases e
  {
    if e == 0 {
      AndLowMask(x, w);
    } else if w == 0 {
      assert (Pow2(w) - 1) * Pow2(e) == 0;
    } else {
      var p, q := Pow2(e - 1), Pow2(w);
      assert Pow2(e) == 2 * p;
      var m := (q - 1) * p;
      var t := ((x / 2) / p) % q;
      assert (q - 1) * Pow2(e) == 2 * m;
      MulAtLeast(p, q - 1);
      AndEven(x, m);
      AndMask(x / 2, w, e - 1);
      assert And(x / 2, m) == t * p;
      DivDiv(x, 2, p);
      assert t == (x / Pow2(e)) % q;
      TimesDouble(t, p);
    }
  }

  lemma TimesDouble(t: nat, p: nat)
    ensures t * (2 * p) == 2 * (t * p)
  {
  }

  lemma AndOdd(x: nat, m: nat)
    ensures And(x, 2 * m + 1) == x % 2 + 2 * And(x / 2, m)
  {
  }

  lemma AndEven(x: nat, m: nat)
    requires m > 0
    ensures And(x, 2 * m) == 2 * And(x / 2, m)
  {
    var y := 2 * m;
    assert y % 2 == 0 && y / 2 == m;
    if x == 0 {
      assert And(x / 2, m) == 0;
    }
  }

  /** A value with its low k bits clear, or-ed with a value below 2^k. */
  lemma {:induction false} OrHighLow(a: nat, b: nat, k: nat)
    requires a % Pow2(k) == 0 && b < Pow2(k)
    ensures Or(a, b) == a + b
    decreases k
  {
    if k > 0 && a > 0 && b > 0 {
      assert a % 2 == 0 by {
        DivModUnique(a, 2, Pow2(k - 1) * (a / Pow2(k)), 0);
      }
      assert (a / 2) % Pow2(k - 1) == 0 by {
        DivModUnique(a / 2, Pow2(k - 1), a / Pow2(k), 0);
      }
      OrHighLow(a / 2, b / 2, k - 1);
    }
  }

  lemma {:induction false} OrComm(a: nat, b: nat)
    ensures Or(a, b) == Or(b, a)
    decreases a + b
  {
    if a > 0 && b > 0 {
      OrComm(a / 2, b / 2);
    }
  }

  /** Setting a bit that is clear adds its value. */
  lemma {:induction false} OrSetBit(a: nat, k: nat)
    requires Field(a, k, k) == 0
    ensures Or(a, Pow2(k)) == a + Pow2(k)
    decreases k
  {
    if k > 0 && a > 0 {
      DivDiv(a, 2, Pow2(k - 1));
      OrSetBit(a / 2, k - 1);
    }
  }
}
